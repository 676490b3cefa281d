/**
 * The INFO fields of a BCF record, kept undecoded: the raw field bytes and the number of fields.
 * Fields are decoded on demand, one after the other from the start of the buffer.
 */
module BcfInfo {
  import opened Wrappers
  import opened RustNum
  import opened BcfInfoReader

  type Field = (string, Option<InfoValue>)

  /**
   * The results of reading `count` fields from `src`, each starting where the previous one
   * ended. The results stop at the first failure: where a failed decoder leaves the input, and
   * so what the fields after it read, is not part of this model.
   */
  function ReadEach(src: seq<Byte>, count: nat, infos: map<string, InfoType>, stringMap: seq<string>, d: Decoders)
    : seq<Result<Field, InfoError>>
    requires ValidDecoders(d)
    decreases count
  {
    if count == 0 then []
    else
      match ReadInfoField(src, infos, stringMap, d)
      case Err(e) => [Err(e)]
      case Ok((field, rest)) => [Ok(field)] + ReadEach(rest, count - 1, infos, stringMap, d)
  }

  /**
   * At most `count` results, all of them fields of INFO header records except possibly the last,
   * which is a failure when there are fewer than `count`.
   */
  lemma {:induction false} ReadEachShape(src: seq<Byte>, count: nat, infos: map<string, InfoType>, stringMap: seq<string>, d: Decoders)
    requires ValidDecoders(d)
    ensures var rs := ReadEach(src, count, infos, stringMap, d);
      && |rs| <= count
      && (forall i :: 0 <= i < |rs| - 1 ==> rs[i].Ok?)
      && (|rs| < count ==> rs != [] && rs[|rs| - 1].Err?)
      && (forall i :: 0 <= i < |rs| && rs[i].Ok? ==> rs[i].value.0 in infos)
    decreases count
  {
    if count > 0 {
      var r := ReadInfoField(src, infos, stringMap, d);
      if r.Ok? {
        var (field, rest) := r.value;
        ReadEachShape(rest, count - 1, infos, stringMap, d);
        var tail := ReadEach(rest, count - 1, infos, stringMap, d);
        var rs := [Ok(field)] + tail;
        assert forall i :: 1 <= i < |rs| ==> rs[i] == tail[i - 1];
      }
    }
  }

  function Oks(entries: seq<Field>): seq<Result<Field, InfoError>>
  {
    seq(|entries|, i requires 0 <= i < |entries| => Ok(entries[i]))
  }

  lemma ReadEachStep(src: seq<Byte>, m: nat, infos: map<string, InfoType>, stringMap: seq<string>, d: Decoders)
    requires ValidDecoders(d)
    requires ReadInfoField(src, infos, stringMap, d).Ok?
    ensures var (field, rest) := ReadInfoField(src, infos, stringMap, d).value;
      ReadEach(src, m + 1, infos, stringMap, d) == [Ok(field)] + ReadEach(rest, m, infos, stringMap, d)
  {
  }

  /** Reading `n > 0` fields is reading `n - 1` fields and then one more. */
  lemma ReadFieldsLast(src: seq<Byte>, n: nat, infos: map<string, InfoType>, stringMap: seq<string>, d: Decoders)
    requires ValidDecoders(d) && n > 0
    requires ReadFields(src, infos, stringMap, n, d).Ok?
    ensures var prev := ReadFields(src, infos, stringMap, n - 1, d);
      && prev.Ok?
      && ReadInfoField(prev.value.1, infos, stringMap, d).Ok?
      && var (field, rest) := ReadInfoField(prev.value.1, infos, stringMap, d).value;
        ReadFields(src, infos, stringMap, n, d).value == (prev.value.0 + [field], rest)
  {
  }

  lemma OksAppend(entries: seq<Field>, field: Field, tail: seq<Result<Field, InfoError>>)
    ensures Oks(entries) + ([Ok(field)] + tail) == Oks(entries + [field]) + tail
  {
    assert Oks(entries + [field]) == Oks(entries) + [Ok(field)];
  }

  /**
   * Reading `n + m` fields one by one gives the `n` fields that `ReadFields` reads, then what
   * reading `m` more from where it stopped gives.
   */
  lemma {:induction false} ReadEachAfterFields(src: seq<Byte>, n: nat, m: nat, infos: map<string, InfoType>, stringMap: seq<string>, d: Decoders)
    requires ValidDecoders(d)
    requires ReadFields(src, infos, stringMap, n, d).Ok?
    ensures ReadEach(src, n + m, infos, stringMap, d)
      == Oks(ReadFields(src, infos, stringMap, n, d).value.0) + ReadEach(ReadFields(src, infos, stringMap, n, d).value.1, m, infos, stringMap, d)
  {
    if n == 0 {
      assert Oks([]) == [];
    } else {
      ReadFieldsLast(src, n, infos, stringMap, d);
      var prev := ReadFields(src, infos, stringMap, n - 1, d).value;
      var (field, rest) := ReadInfoField(prev.1, infos, stringMap, d).value;
      ReadEachAfterFields(src, n - 1, m + 1, infos, stringMap, d);
      assert (n - 1) + (m + 1) == n + m;
      ReadEachStep(prev.1, m, infos, stringMap, d);
      OksAppend(prev.0, field, ReadEach(rest, m, infos, stringMap, d));
    }
  }

  /** The first result of `results` that is a failure or a field named `key`, or nothing. */
  function FirstMatch(results: seq<Result<Field, InfoError>>, key: string): Option<Result<Field, InfoError>>
  {
    if results == [] then None
    else if results[0].Err? then Some(results[0])
    else if results[0].value.0 == key then Some(results[0])
    else FirstMatch(results[1..], key)
  }

  /**
   * What `FirstMatch` finds: nothing exactly when every result is a field with another name;
   * otherwise a result that is a failure or a field named `key`, preceded only by fields with
   * other names.
   */
  lemma {:induction false} FirstMatchMeaning(results: seq<Result<Field, InfoError>>, key: string)
    ensures var r := FirstMatch(results, key);
      && (r.None? <==> forall i :: 0 <= i < |results| ==> results[i].Ok? && results[i].value.0 != key)
      && (r.Some? ==> exists i :: (0 <= i < |results| && results[i] == r.value
            && forall j :: 0 <= j < i ==> results[j].Ok? && results[j].value.0 != key))
      && (r.Some? && r.value.Ok? ==> r.value.value.0 == key)
  {
    if results != [] && results[0].Ok? && results[0].value.0 != key {
      var tail := results[1..];
      FirstMatchMeaning(tail, key);
      var r := FirstMatch(tail, key);
      assert forall i :: 1 <= i < |results| ==> results[i] == tail[i - 1];
      if r.Some? {
        var i :| 0 <= i < |tail| && tail[i] == r.value
          && (forall j :: 0 <= j < i ==> tail[j].Ok? && tail[j].value.0 != key);
        assert results[i + 1] == r.value;
        assert forall j :: 0 <= j < i + 1 ==> results[j].Ok? && results[j].value.0 != key;
      }
    } else if results != [] {
      assert results[0] == FirstMatch(results, key).value;
    }
  }

  /**
   * Looking for `key` among `count > 0` fields: a failure to read the first field is the answer,
   * so is a first field named `key`; otherwise the search goes on after that field.
   */
  lemma FirstMatchStep(src: seq<Byte>, count: nat, infos: map<string, InfoType>, stringMap: seq<string>, key: string, d: Decoders)
    requires ValidDecoders(d) && count > 0
    ensures var r := ReadInfoField(src, infos, stringMap, d);
      FirstMatch(ReadEach(src, count, infos, stringMap, d), key)
        == if r.Err? then Some(Err(r.error))
           else if r.value.0.0 == key then Some(Ok(r.value.0))
           else FirstMatch(ReadEach(r.value.1, count - 1, infos, stringMap, d), key)
  {
    var r := ReadInfoField(src, infos, stringMap, d);
    if r.Ok? {
      var after := ReadEach(r.value.1, count - 1, infos, stringMap, d);
      assert ReadEach(src, count, infos, stringMap, d) == [Ok(r.value.0)] + after;
      assert ([Ok(r.value.0)] + after)[1..] == after;
    }
  }

  /** Reading fields one after the other until one is named `key` or a read fails. */
  function Search(src: seq<Byte>, count: nat, infos: map<string, InfoType>, stringMap: seq<string>, key: string, d: Decoders)
    : Option<Result<Field, InfoError>>
    requires ValidDecoders(d)
    decreases count
  {
    if count == 0 then None
    else
      match ReadInfoField(src, infos, stringMap, d)
      case Err(e) => Some(Err(e))
      case Ok((field, rest)) =>
        if field.0 == key then Some(Ok(field)) else Search(rest, count - 1, infos, stringMap, key, d)
  }

  /** That search finds the first failure or field named `key` among the results of reading `count` fields. */
  lemma {:induction false} SearchIsFirstMatch(src: seq<Byte>, count: nat, infos: map<string, InfoType>, stringMap: seq<string>, key: string, d: Decoders)
    requires ValidDecoders(d)
    ensures Search(src, count, infos, stringMap, key, d) == FirstMatch(ReadEach(src, count, infos, stringMap, d), key)
    decreases count
  {
    if count > 0 {
      FirstMatchStep(src, count, infos, stringMap, key, d);
      var r := ReadInfoField(src, infos, stringMap, d);
      if r.Ok? && r.value.0.0 != key {
        SearchIsFirstMatch(r.value.1, count - 1, infos, stringMap, key, d);
      }
    }
  }

  class Info {
    var buf: seq<Byte>
    var fieldCount: nat

    /** `Info::new`: wraps the buffer and the field count unchanged. */
    constructor (buf: seq<Byte>, fieldCount: nat)
      ensures this.buf == buf && this.fieldCount == fieldCount
    {
      this.buf := buf;
      this.fieldCount := fieldCount;
    }

    /** `Info::default`. */
    constructor Default()
      ensures buf == [] && fieldCount == 0
    {
      buf := [];
      fieldCount := 0;
    }

    function Len(): nat
      reads this
    {
      fieldCount
    }

    /** `is_empty`: there are no fields exactly when the field count is 0. */
    function IsEmpty(): (b: bool)
      reads this
      ensures b <==> Len() == 0
    {
      Len() == 0
    }

    /** `clear`: drops the bytes and the fields. */
    method Clear()
      modifies this
      ensures buf == [] && fieldCount == 0
      ensures IsEmpty()
    {
      buf := [];
      SetFieldCount(0);
    }

    method SetFieldCount(n: nat)
      modifies this
      ensures fieldCount == n && buf == old(buf)
    {
      fieldCount := n;
    }

    /** `iter`: the `len()` fields, read one after the other from the start of the buffer. */
    function Iter(infos: map<string, InfoType>, stringMap: seq<string>, d: Decoders): seq<Result<Field, InfoError>>
      requires ValidDecoders(d)
      reads this
    {
      ReadEach(buf, fieldCount, infos, stringMap, d)
    }

    /** `values`: the value of each result of `iter`, in the same order. */
    function Values(infos: map<string, InfoType>, stringMap: seq<string>, d: Decoders)
      : (vs: seq<Result<Option<InfoValue>, InfoError>>)
      requires ValidDecoders(d)
      reads this
      ensures var fs := Iter(infos, stringMap, d);
        |vs| == |fs| && forall i :: 0 <= i < |fs| ==>
          (fs[i].Ok? ==> vs[i] == Ok(fs[i].value.1)) && (fs[i].Err? ==> vs[i] == Err(fs[i].error))
    {
      var fs := Iter(infos, stringMap, d);
      seq(|fs|, i requires 0 <= i < |fs| => if fs[i].Ok? then Ok(fs[i].value.1) else Err(fs[i].error))
    }

    /** `get`: the first field named `key`, or the first failure met before it, or nothing. */
    method Get(infos: map<string, InfoType>, stringMap: seq<string>, key: string, d: Decoders)
      returns (r: Option<Result<Field, InfoError>>)
      requires ValidDecoders(d)
      ensures r == FirstMatch(Iter(infos, stringMap, d), key)
    {
      SearchIsFirstMatch(buf, fieldCount, infos, stringMap, key, d);
      var cursor := buf;
      for i := 0 to fieldCount
        invariant Search(buf, fieldCount, infos, stringMap, key, d)
          == Search(cursor, fieldCount - i, infos, stringMap, key, d)
      {
        var result := ReadInfoField(cursor, infos, stringMap, d);
        if result.Err? {
          return Some(Err(result.error));
        }
        var (field, rest) := result.value;
        if field.0 == key {
          return Some(Ok(field));
        }
        cursor := rest;
      }
      return None;
    }

    /** `try_into_vcf_record_info`: all `len()` fields, read as `read_info` reads them. */
    method TryIntoVcfRecordInfo(infos: map<string, InfoType>, stringMap: seq<string>, d: Decoders)
      returns (r: Result<seq<Field>, InfoError>)
      requires ValidDecoders(d)
      ensures r.Ok? <==> ReadFields(buf, infos, stringMap, fieldCount, d).Ok?
      ensures r.Ok? ==> r.value == ReadFields(buf, infos, stringMap, fieldCount, d).value.0
      ensures r.Err? ==> r.error == ReadFields(buf, infos, stringMap, fieldCount, d).error
    {
      var read := ReadInfo(buf, infos, stringMap, fieldCount, d);
      if read.Err? {
        return Err(read.error);
      }
      return Ok(read.value.0);
    }
  }

  /**
   * When the whole record reads without error, `iter` yields exactly its `len()` fields, in the
   * order `read_info` collects them, and `values` their values.
   */
  lemma IterAgreesWithReadInfo(info: Info, infos: map<string, InfoType>, stringMap: seq<string>, d: Decoders)
    requires ValidDecoders(d)
    requires ReadFields(info.buf, infos, stringMap, info.fieldCount, d).Ok?
    ensures var entries := ReadFields(info.buf, infos, stringMap, info.fieldCount, d).value.0;
      && info.Iter(infos, stringMap, d) == Oks(entries)
      && |info.Iter(infos, stringMap, d)| == info.Len()
      && info.Values(infos, stringMap, d) == seq(|entries|, i requires 0 <= i < |entries| => Ok(entries[i].1))
  {
    var entries := ReadFields(info.buf, infos, stringMap, info.fieldCount, d).value.0;
    ReadEachAfterFields(info.buf, info.fieldCount, 0, infos, stringMap, d);
    assert Oks(entries) + [] == Oks(entries);
    ReadFieldsOk(info.buf, infos, stringMap, info.fieldCount, d);
    var fs := info.Iter(infos, stringMap, d);
    var vs := info.Values(infos, stringMap, d);
    assert fs == Oks(entries);
    assert forall i :: 0 <= i < |vs| ==> vs[i] == Ok(entries[i].1) by {
      forall i | 0 <= i < |vs| ensures vs[i] == Ok(entries[i].1) {
        assert fs[i] == Ok(entries[i]);
      }
    }
  }

  /** Among fields with distinct names, looking for the name of field `k` finds field `k`. */
  lemma FirstMatchDistinct(entries: seq<Field>, k: nat)
    requires k < |entries|
    requires forall i, j :: 0 <= i < j < |entries| ==> entries[i].0 != entries[j].0
    ensures FirstMatch(Oks(entries), entries[k].0) == Some(Ok(entries[k]))
  {
    var fs := Oks(entries);
    FirstMatchMeaning(fs, entries[k].0);
    assert fs[k] == Ok(entries[k]);
    var r := FirstMatch(fs, entries[k].0);
    var i :| 0 <= i < |fs| && fs[i] == r.value && (forall j :: 0 <= j < i ==> fs[j].Ok? && fs[j].value.0 != entries[k].0);
    assert fs[i] == Ok(entries[i]);
  }

  /** A record that reads without error has `get` find every one of its fields by name. */
  lemma GetFindsEveryField(info: Info, infos: map<string, InfoType>, stringMap: seq<string>, d: Decoders, k: nat)
    requires ValidDecoders(d)
    requires ReadFields(info.buf, infos, stringMap, info.fieldCount, d).Ok?
    requires k < |ReadFields(info.buf, infos, stringMap, info.fieldCount, d).value.0|
    ensures var entries := ReadFields(info.buf, infos, stringMap, info.fieldCount, d).value.0;
      FirstMatch(info.Iter(infos, stringMap, d), entries[k].0) == Some(Ok(entries[k]))
  {
    var entries := ReadFields(info.buf, infos, stringMap, info.fieldCount, d).value.0;
    ReadEachAfterFields(info.buf, info.fieldCount, 0, infos, stringMap, d);
    assert Oks(entries) + [] == Oks(entries);
    ReadFieldsOk(info.buf, infos, stringMap, info.fieldCount, d);
    FirstMatchDistinct(entries, k);
  }
}
