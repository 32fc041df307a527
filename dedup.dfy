/**
 * The `alerts_dict` build of both sensors: each active alert has a key
 * (`MasterId`, else `Id`), its municipality names and the entry made for it.
 * The first alert with a key puts its entry in; a later one only merges its
 * names into that entry's `municipalities`, as the sorted set union.  The
 * merge reads `municipalities` from the stored entry, a `KeyError` when the
 * stored entry is a Met.no one.
 */
module Dedup {
  import opened Common
  import opened Text
  import opened Entries

  type Key = Option<string>

  /** One active alert as the loop sees it. */
  datatype Candidate = Candidate(key: Key, names: seq<string>, entry: AlertEntry)

  /** The dict: its keys in insertion order and its contents. */
  datatype Table = Table(keys: seq<Key>, entries: map<Key, AlertEntry>)

  ghost predicate TableOk(t: Table) {
    Distinct(t.keys) && forall k :: k in t.entries <==> k in t.keys
  }

  const MergeError := "KeyError: 'municipalities'"

  /** One iteration of the loop. */
  function Step(t: Table, c: Candidate): (r: Result<Table, string>)
    requires TableOk(t)
    ensures r.Ok? ==> TableOk(r.value)
    ensures r.Err? <==> c.key in t.entries && Municipalities(t.entries[c.key]).None?
  {
    if c.key in t.entries then
      var existing := t.entries[c.key];
      match Municipalities(existing)
      case None => Err(MergeError)
      case Some(ms) =>
        Ok(Table(t.keys, t.entries[c.key := WithMunicipalities(existing, SortedSet(ms + c.names))]))
    else
      Ok(Table(t.keys + [c.key], t.entries[c.key := c.entry]))
  }

  /** The loop over all candidates; the first failing merge ends it. */
  function Build(cs: seq<Candidate>): (r: Result<Table, string>)
    ensures r.Ok? ==> TableOk(r.value)
  {
    if cs == [] then Ok(Table([], map[]))
    else
      match Build(cs[..|cs| - 1])
      case Err(e) => Err(e)
      case Ok(t) => Step(t, cs[|cs| - 1])
  }

  /** `list(alerts_dict.values())` */
  function Values(t: Table): (vs: seq<AlertEntry>)
    requires TableOk(t)
    ensures |vs| == |t.keys|
    ensures forall i :: 0 <= i < |vs| ==> vs[i] == t.entries[t.keys[i]]
  {
    seq(|t.keys|, i requires 0 <= i < |t.keys| => t.entries[t.keys[i]])
  }

  // ------------------------------------------------------------ the method

  /** The loop as the sensors run it, over a dict and its insertion order. */
  method BuildTable(cs: seq<Candidate>) returns (r: Result<Table, string>)
    ensures r == Build(cs)
  {
    var keys: seq<Key> := [];
    var entries: map<Key, AlertEntry> := map[];
    for i := 0 to |cs|
      invariant Build(cs[..i]) == Ok(Table(keys, entries))
    {
      assert cs[..i + 1][..i] == cs[..i];
      var c := cs[i];
      if c.key in entries {
        var existing := entries[c.key];
        if Municipalities(existing).None? {
          BuildErrStays(cs, i + 1);
          assert cs[..|cs|] == cs;
          return Err(MergeError);
        }
        entries := entries[c.key := WithMunicipalities(existing, SortedSet(Municipalities(existing).value + c.names))];
      } else {
        keys := keys + [c.key];
        entries := entries[c.key := c.entry];
      }
    }
    assert cs[..|cs|] == cs;
    r := Ok(Table(keys, entries));
  }

  /** Once a merge has failed the build stays failed. */
  lemma {:induction false} BuildErrStays(cs: seq<Candidate>, i: nat)
    requires i <= |cs| && Build(cs[..i]).Err?
    ensures Build(cs) == Build(cs[..i])
    decreases |cs| - i
  {
    if i < |cs| {
      assert cs[..i + 1][..i] == cs[..i];
      BuildErrStays(cs, i + 1);
    } else {
      assert cs[..i] == cs;
    }
  }

  // -------------------------------------------------------- closed form

  /** How many candidates carry key `k`. */
  function Count(cs: seq<Candidate>, k: Key): (n: nat)
    ensures n == 0 <==> forall j :: 0 <= j < |cs| ==> cs[j].key != k
    ensures n <= |cs|
  {
    if cs == [] then 0
    else
      var init := cs[..|cs| - 1];
      assert forall j :: 0 <= j < |init| ==> init[j] == cs[j];
      Count(init, k) + (if cs[|cs| - 1].key == k then 1 else 0)
  }

  /** Index of the first candidate with key `k`. */
  function FirstIndex(cs: seq<Candidate>, k: Key): (i: nat)
    requires Count(cs, k) >= 1
    ensures i < |cs| && cs[i].key == k
    ensures forall j :: 0 <= j < i ==> cs[j].key != k
  {
    var init := cs[..|cs| - 1];
    if Count(init, k) >= 1 then
      var i := FirstIndex(init, k);
      assert cs[i] == init[i];
      assert forall j :: 0 <= j < i ==> cs[j] == init[j];
      i
    else
      assert forall j :: 0 <= j < |init| ==> cs[j] == init[j];
      |cs| - 1
  }

  /** The keys in order of first occurrence, each once. */
  function KeysOf(cs: seq<Candidate>): (ks: seq<Key>)
    ensures Distinct(ks) && |ks| <= |cs|
    ensures forall k :: k in ks <==> Count(cs, k) >= 1
  {
    if cs == [] then []
    else
      var init := KeysOf(cs[..|cs| - 1]);
      if cs[|cs| - 1].key in init then init else init + [cs[|cs| - 1].key]
  }

  /** All names of the candidates with key `k`, in order. */
  function NamesWith(cs: seq<Candidate>, k: Key): (ns: seq<string>)
    ensures Count(cs, k) == 0 ==> ns == []
    ensures Count(cs, k) == 1 ==> ns == cs[FirstIndex(cs, k)].names
  {
    if cs == [] then []
    else
      var init := cs[..|cs| - 1];
      NamesWith(init, k) + (if cs[|cs| - 1].key == k then cs[|cs| - 1].names else [])
  }

  /** Entries carry their own alert's names, when they have the key at all. */
  ghost predicate NamesConsistent(cs: seq<Candidate>) {
    forall i :: 0 <= i < |cs| && Municipalities(cs[i].entry).Some? ==> Municipalities(cs[i].entry).value == cs[i].names
  }

  /** No key whose first entry lacks `municipalities` (a Met.no entry) recurs. */
  ghost predicate MergeSafe(cs: seq<Candidate>) {
    forall k :: Count(cs, k) >= 2 ==> Municipalities(cs[FirstIndex(cs, k)].entry).Some?
  }

  /** What the dict holds for `k`: the first entry, its names replaced by the sorted union if the key recurs. */
  function Merged(cs: seq<Candidate>, k: Key): AlertEntry
    requires Count(cs, k) >= 1 && MergeSafe(cs)
  {
    var first := cs[FirstIndex(cs, k)].entry;
    if Count(cs, k) >= 2 then WithMunicipalities(first, SortedSet(NamesWith(cs, k))) else first
  }

  /** The sorted set of a sorted set with more names is the sorted set of all names. */
  lemma SortedSetAgain(a: seq<string>, b: seq<string>)
    ensures SortedSet(SortedSet(a) + b) == SortedSet(a + b)
  {
    var x, y := SortedSet(SortedSet(a) + b), SortedSet(a + b);
    ElemsAppend(SortedSet(a), b);
    ElemsAppend(a, b);
    StrictlySortedUnique(x, y);
  }

  /** Appending a candidate changes nothing about the other keys. */
  lemma OtherKeyStep(cs: seq<Candidate>, k: Key)
    requires cs != [] && k != cs[|cs| - 1].key
    ensures Count(cs, k) == Count(cs[..|cs| - 1], k)
    ensures NamesWith(cs, k) == NamesWith(cs[..|cs| - 1], k)
    ensures Count(cs, k) >= 1 ==> FirstIndex(cs, k) == FirstIndex(cs[..|cs| - 1], k)
  {
  }

  /** The merge is safe for a longer list when it is for the prefix and for the new key. */
  lemma MergeSafeStep(cs: seq<Candidate>)
    requires cs != []
    ensures
      var init, k := cs[..|cs| - 1], cs[|cs| - 1].key;
      MergeSafe(cs) <==>
        MergeSafe(init) && (Count(init, k) >= 1 ==> Municipalities(cs[FirstIndex(cs, k)].entry).Some?)
  {
    var init, k := cs[..|cs| - 1], cs[|cs| - 1].key;
    assert forall j :: 0 <= j < |init| ==> init[j] == cs[j];
    if MergeSafe(cs) {
      forall k' | Count(init, k') >= 2
        ensures Municipalities(init[FirstIndex(init, k')].entry).Some?
      {
        if k' != k { OtherKeyStep(cs, k'); }
      }
    }
    if MergeSafe(init) && (Count(init, k) >= 1 ==> Municipalities(cs[FirstIndex(cs, k)].entry).Some?) {
      forall k' | Count(cs, k') >= 2
        ensures Municipalities(cs[FirstIndex(cs, k')].entry).Some?
      {
        if k' != k { OtherKeyStep(cs, k'); }
      }
    }
  }

  /** On the other keys the dict's contents equal their merged form after a step. */
  lemma MergedOthers(cs: seq<Candidate>, before: Table, after: Table)
    requires cs != [] && MergeSafe(cs) && MergeSafe(cs[..|cs| - 1])
    requires forall k :: Count(cs[..|cs| - 1], k) >= 1 ==> k in before.entries && before.entries[k] == Merged(cs[..|cs| - 1], k)
    requires forall k :: k != cs[|cs| - 1].key && k in before.entries ==> k in after.entries && after.entries[k] == before.entries[k]
    ensures forall k :: Count(cs, k) >= 1 && k != cs[|cs| - 1].key ==> after.entries[k] == Merged(cs, k)
  {
    forall k | Count(cs, k) >= 1 && k != cs[|cs| - 1].key
      ensures after.entries[k] == Merged(cs, k)
    {
      OtherKeyStep(cs, k);
    }
  }

  /**
   * The build fails exactly when a Met.no entry's key recurs, and otherwise
   * the dict holds one entry per key, in order of first occurrence: the
   * first alert's entry, its names replaced by the sorted union of all
   * names under that key when the key recurs.
   */
  lemma {:induction false} BuildClosedForm(cs: seq<Candidate>)
    requires NamesConsistent(cs)
    ensures Build(cs).Ok? <==> MergeSafe(cs)
    ensures Build(cs).Ok? ==> Build(cs).value.keys == KeysOf(cs)
    ensures Build(cs).Ok? ==> forall k :: Count(cs, k) >= 1 ==> Build(cs).value.entries[k] == Merged(cs, k)
    decreases |cs|
  {
    if cs != [] {
      var n := |cs| - 1;
      var init, c := cs[..n], cs[n];
      assert NamesConsistent(init) by {
        assert forall j :: 0 <= j < n ==> init[j] == cs[j];
      }
      BuildClosedForm(init);
      MergeSafeStep(cs);
      if Build(init).Ok? {
        var t := Build(init).value;
        assert forall k :: Count(init, k) >= 1 ==> k in t.entries by {
          assert forall k :: Count(init, k) >= 1 ==> k in KeysOf(init);
        }
        if c.key in t.entries {
          ExistingKeyStep(cs);
        } else {
          NewKeyStep(cs);
        }
        if Build(cs).Ok? {
          MergedOthers(cs, t, Build(cs).value);
        }
      }
    }
  }

  /** The inductive step of `BuildClosedForm` for a key new to the dict. */
  lemma NewKeyStep(cs: seq<Candidate>)
    requires cs != []
    requires
      var init := cs[..|cs| - 1];
      && Build(init).Ok? && MergeSafe(init)
      && Build(init).value.keys == KeysOf(init)
      && cs[|cs| - 1].key !in Build(init).value.entries
    ensures MergeSafe(cs) && Build(cs).Ok?
    ensures Build(cs).value.keys == KeysOf(cs)
    ensures Build(cs).value.entries[cs[|cs| - 1].key] == Merged(cs, cs[|cs| - 1].key)
  {
    var n := |cs| - 1;
    var init, k := cs[..n], cs[n].key;
    assert k !in KeysOf(init);
    assert Count(init, k) == 0;
    MergeSafeStep(cs);
  }

  /** The inductive step of `BuildClosedForm` for a key already in the dict. */
  lemma ExistingKeyStep(cs: seq<Candidate>)
    requires cs != [] && NamesConsistent(cs)
    requires
      var init := cs[..|cs| - 1];
      && Build(init).Ok? && MergeSafe(init)
      && Build(init).value.keys == KeysOf(init)
      && (forall k :: Count(init, k) >= 1 ==> Build(init).value.entries[k] == Merged(init, k))
      && cs[|cs| - 1].key in Build(init).value.entries
    ensures Build(cs).Ok? <==> MergeSafe(cs)
    ensures Build(cs).Ok? ==> Build(cs).value.keys == KeysOf(cs)
    ensures Build(cs).Ok? ==> Build(cs).value.entries[cs[|cs| - 1].key] == Merged(cs, cs[|cs| - 1].key)
  {
    var n := |cs| - 1;
    var init, c, k := cs[..n], cs[n], cs[n].key;
    var t := Build(init).value;
    assert k in KeysOf(init);
    assert Count(init, k) >= 1;
    assert Count(cs, k) == Count(init, k) + 1;
    var f := FirstIndex(init, k);
    assert FirstIndex(cs, k) == f;
    assert cs[f] == init[f];
    assert NamesWith(cs, k) == NamesWith(init, k) + c.names;
    var existing := t.entries[k];
    assert existing == Merged(init, k);
    MergeSafeStep(cs);
    assert MergeSafe(cs) <==> Municipalities(existing).Some? by {
      if Count(init, k) < 2 {
        assert existing == init[f].entry;
      }
    }
    if Municipalities(existing).Some? {
      var ms := Municipalities(existing).value;
      var first := init[f].entry;
      if Count(init, k) >= 2 {
        SortedSetAgain(NamesWith(init, k), c.names);
        WithMunicipalitiesTwice(first, SortedSet(NamesWith(init, k)), SortedSet(NamesWith(init, k) + c.names));
      } else {
        assert ms == init[f].names;
      }
    }
  }
}
