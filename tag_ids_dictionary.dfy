/**
 * The tag-IDs dictionary of a CRAM compression header: every distinct list of (tag, type) keys
 * that a record's data fields make gets one line, numbered in order of first appearance.
 */
module TagIdsDictionary {
  import SamFieldValue

  /** A two-character SAM data-field tag. */
  type Tag = seq<char>

  /** A record data field: its tag, the type of its value (`Value::ty`), and the value. */
  datatype Field = Field(tag: Tag, ty: SamFieldValue.Type, value: SamFieldValue.Value)

  /** A dictionary key: a field's tag and value type, without the value. */
  datatype Key = Key(tag: Tag, ty: SamFieldValue.Type)

  /** The keys of a record's data fields, in field order. */
  function KeysOf(fields: seq<Field>): (keys: seq<Key>)
    ensures |keys| == |fields|
    ensures forall i :: 0 <= i < |fields| ==> keys[i] == Key(fields[i].tag, fields[i].ty)
  {
    seq(|fields|, i requires 0 <= i < |fields| => Key(fields[i].tag, fields[i].ty))
  }

  /** Two records whose fields differ only in their values give the same key list. */
  lemma KeysIgnoreValues(a: seq<Field>, b: seq<Field>)
    requires |a| == |b|
    requires forall i :: 0 <= i < |a| ==> a[i].tag == b[i].tag && a[i].ty == b[i].ty
    ensures KeysOf(a) == KeysOf(b)
  {
  }

  /** The distinct key lists of `history`, each once, in the order they first appear. */
  function FirstAppearances(history: seq<seq<Key>>): (lines: seq<seq<Key>>)
  {
    if history == [] then []
    else
      var prev := FirstAppearances(history[..|history| - 1]);
      if history[|history| - 1] in prev then prev else prev + [history[|history| - 1]]
  }

  /** The position of the first occurrence of `x` in `h`. */
  function FirstIndex(h: seq<seq<Key>>, x: seq<Key>): (i: nat)
    requires x in h
    ensures i < |h| && h[i] == x && forall j :: 0 <= j < i ==> h[j] != x
  {
    if h[0] == x then 0 else 1 + FirstIndex(h[1..], x)
  }

  lemma FirstIndexPrefix(h: seq<seq<Key>>, x: seq<Key>, n: nat)
    requires n <= |h| && x in h[..n]
    ensures FirstIndex(h, x) == FirstIndex(h[..n], x)
  {
    var i := FirstIndex(h[..n], x);
    var j := FirstIndex(h, x);
    assert h[i] == x;
    assert h[..n][j] == x by { if j >= i { assert j <= i; } }
  }

  /**
   * The lines hold no list twice, hold exactly the lists of the history, and are ordered by the
   * position where each list first appears.
   */
  lemma {:induction false} FirstAppearancesSpec(history: seq<seq<Key>>)
    ensures var lines := FirstAppearances(history);
      && (forall i, j :: 0 <= i < j < |lines| ==> lines[i] != lines[j])
      && (forall x :: x in lines <==> x in history)
      && (forall i, j :: 0 <= i < j < |lines| ==> FirstIndex(history, lines[i]) < FirstIndex(history, lines[j]))
  {
    if history != [] {
      var n := |history| - 1;
      var init := history[..n];
      var prev := FirstAppearances(init);
      FirstAppearancesSpec(init);
      assert forall x :: x in history <==> x in init || x == history[n] by {
        assert history == init + [history[n]];
      }
      forall x | x in prev
        ensures FirstIndex(history, x) == FirstIndex(init, x) < n
      {
        assert init == history[..n];
        FirstIndexPrefix(history, x, n);
      }
      if history[n] !in prev {
        assert history[n] !in init;
        assert FirstIndex(history, history[n]) == n;
      }
    }
  }

  /** The map a builder keeps: `lines[i]` is at index `i`, and nothing else is in it. */
  ghost predicate IndexesLines(keysIndices: map<seq<Key>, nat>, lines: seq<seq<Key>>)
  {
    && |keysIndices| == |lines|
    && (forall i :: 0 <= i < |lines| ==> lines[i] in keysIndices && keysIndices[lines[i]] == i)
    && (forall k :: k in keysIndices ==> k in lines)
  }

  class Builder {
    var keysIndices: map<seq<Key>, nat>
    /** The key lists of the records given to `update`, in order. */
    ghost var history: seq<seq<Key>>

    ghost predicate Valid()
      reads this
    {
      IndexesLines(keysIndices, FirstAppearances(history))
    }

    /** `Builder::default`: no key lists seen. */
    constructor ()
      ensures Valid() && history == [] && keysIndices == map[]
    {
      keysIndices := map[];
      history := [];
    }

    /**
     * `update`: a key list seen for the first time gets the next index, the number of lists seen
     * before; a list already seen keeps its index and the map is unchanged.
     */
    method Update(fields: seq<Field>)
      requires Valid()
      modifies this
      ensures Valid() && history == old(history) + [KeysOf(fields)]
      ensures var keys := KeysOf(fields);
        keysIndices == if keys in old(keysIndices) then old(keysIndices) else old(keysIndices)[keys := |old(keysIndices)|]
    {
      var keys := KeysOf(fields);
      var nextIndex := |keysIndices|;
      ghost var lines := FirstAppearances(history);
      FirstAppearancesSpec(history);
      history := history + [keys];
      assert history[..|history| - 1] == old(history);
      if keys !in keysIndices {
        keysIndices := keysIndices[keys := nextIndex];
        assert keys !in lines;
      }
    }

    /** `build`: the key lists ordered by index, which is their order of first appearance. */
    method Build() returns (dictionary: seq<seq<Key>>)
      requires Valid()
      ensures dictionary == FirstAppearances(history)
    {
      ghost var lines := FirstAppearances(history);
      dictionary := [];
      for i := 0 to |keysIndices|
        invariant dictionary == lines[..i]
      {
        assert lines[i] in keysIndices && keysIndices[lines[i]] == i;
        var keys :| keys in keysIndices && keysIndices[keys] == i;
        ghost var j :| 0 <= j < |lines| && lines[j] == keys;
        assert lines[..i + 1] == lines[..i] + [lines[i]];
        dictionary := dictionary + [keys];
      }
      assert lines[..|lines|] == lines;
    }
  }

  /**
   * The test at builder.rs:36-73: NH:i8=1, then NH:i8=2, then NH:i8=1 with CO:Z give the two
   * lines [NH:i8] and [NH:i8, CO:Z].
   */
  lemma FirstAppearancesExample(nh1: SamFieldValue.Value, nh2: SamFieldValue.Value, co: SamFieldValue.Value)
    ensures var nh, c := Key("NH", SamFieldValue.Int8), Key("CO", SamFieldValue.String);
      FirstAppearances([
        KeysOf([Field("NH", SamFieldValue.Int8, nh1)]),
        KeysOf([Field("NH", SamFieldValue.Int8, nh2)]),
        KeysOf([Field("NH", SamFieldValue.Int8, nh1), Field("CO", SamFieldValue.String, co)])])
      == [[nh], [nh, c]]
  {
    var nh, c := Key("NH", SamFieldValue.Int8), Key("CO", SamFieldValue.String);
    var h := [[nh], [nh], [nh, c]];
    assert KeysOf([Field("NH", SamFieldValue.Int8, nh1)]) == [nh];
    assert KeysOf([Field("NH", SamFieldValue.Int8, nh2)]) == [nh];
    assert KeysOf([Field("NH", SamFieldValue.Int8, nh1), Field("CO", SamFieldValue.String, co)]) == [nh, c];
    assert h[..1][..0] == [];
    assert FirstAppearances(h[..1]) == [[nh]];
    assert h[..2][..1] == h[..1];
    assert FirstAppearances(h[..2]) == [[nh]];
    assert h[..2] == h[..|h| - 1];
    assert [nh, c] != [nh];
  }
}
