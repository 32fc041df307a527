/**
 * `alerts_list.sort(key=lambda x: (x["level"], <start time>), reverse=True)`:
 * Python's sort is stable, also with `reverse=True`, so entries with equal
 * keys keep their order.  The key's time is the start-time value, `None`
 * for a JSON null; comparing `None` with a text raises in Python, so the
 * order of `None` against a text below is only a completion of the order,
 * and the callers require that no such pair shares a level (`Comparable`).
 */
module Sorting {
  import opened Text

  import opened Common

  datatype SortKey = SortKey(level: int, time: Option<string>)

  /** An entry together with its sort key. */
  datatype Keyed<T> = Keyed(key: SortKey, item: T)

  predicate TimeLess(a: Option<string>, b: Option<string>) {
    match (a, b)
    case (None, Some(_)) => true
    case (Some(x), Some(y)) => StrLess(x, y)
    case _ => false
  }

  /** Tuple `<` on (level, time). */
  predicate KeyLess(a: SortKey, b: SortKey) {
    a.level < b.level || (a.level == b.level && TimeLess(a.time, b.time))
  }

  lemma KeyLessIrreflexive(a: SortKey)
    ensures !KeyLess(a, a)
  {
    if a.time.Some? { StrLessIrreflexive(a.time.value); }
  }

  lemma KeyLessTransitive(a: SortKey, b: SortKey, c: SortKey)
    requires KeyLess(a, b) && KeyLess(b, c)
    ensures KeyLess(a, c)
  {
    if a.level == b.level == c.level && a.time.Some? && b.time.Some? && c.time.Some? {
      StrLessTransitive(a.time.value, b.time.value, c.time.value);
    }
  }

  lemma KeyLessTotal(a: SortKey, b: SortKey)
    requires a != b
    ensures KeyLess(a, b) || KeyLess(b, a)
  {
    if a.level == b.level && a.time.Some? && b.time.Some? {
      StrLessTotal(a.time.value, b.time.value);
    }
  }

  lemma KeyLessAsymmetric(a: SortKey, b: SortKey)
    requires KeyLess(a, b)
    ensures !KeyLess(b, a)
  {
    KeyLessIrreflexive(a);
    if KeyLess(b, a) {
      KeyLessTransitive(a, b, a);
    }
  }

  /** Not below is transitive: the order is total. */
  lemma NotLessTransitive(a: SortKey, b: SortKey, c: SortKey)
    requires !KeyLess(a, b) && !KeyLess(b, c)
    ensures !KeyLess(a, c)
  {
    if a != b && b != c {
      KeyLessTotal(a, b);
      KeyLessTotal(b, c);
      KeyLessTransitive(c, b, a);
      KeyLessIrreflexive(a);
      if KeyLess(a, c) {
        KeyLessTransitive(a, c, a);
      }
    } else if a == b {
    } else {
    }
  }

  /** No two entries of one level where one time is `None` and the other a text: Python can compare every pair. */
  predicate Comparable<T>(s: seq<Keyed<T>>) {
    forall i, j :: 0 <= i < |s| && 0 <= j < |s| && s[i].key.level == s[j].key.level ==>
      s[i].key.time.None? == s[j].key.time.None?
  }

  /** Highest key first. */
  predicate SortedDesc<T>(s: seq<Keyed<T>>) {
    forall i, j :: 0 <= i < j < |s| ==> !KeyLess(s[i].key, s[j].key)
  }

  /** The entries with key `k`, in order. */
  function WithKey<T>(s: seq<Keyed<T>>, k: SortKey): seq<Keyed<T>> {
    if s == [] then []
    else WithKey(s[..|s| - 1], k) + (if s[|s| - 1].key == k then [s[|s| - 1]] else [])
  }

  /** `x` placed after every entry of `t`, from the end, that is not below it. */
  function InsertDesc<T>(x: Keyed<T>, t: seq<Keyed<T>>): seq<Keyed<T>> {
    if t == [] then [x]
    else if KeyLess(t[|t| - 1].key, x.key) then InsertDesc(x, t[..|t| - 1]) + [t[|t| - 1]]
    else t + [x]
  }

  /** The stable descending sort: entries inserted one by one in input order. */
  function SortDesc<T>(s: seq<Keyed<T>>): seq<Keyed<T>> {
    if s == [] then [] else InsertDesc(s[|s| - 1], SortDesc(s[..|s| - 1]))
  }

  // ---------------------------------------------------------------- insert

  lemma {:induction false} InsertDescPermutes<T>(x: Keyed<T>, t: seq<Keyed<T>>)
    ensures multiset(InsertDesc(x, t)) == multiset(t) + multiset{x}
    ensures |InsertDesc(x, t)| == |t| + 1
    decreases |t|
  {
    if t != [] && KeyLess(t[|t| - 1].key, x.key) {
      var init := t[..|t| - 1];
      InsertDescPermutes(x, init);
      assert t == init + [t[|t| - 1]];
    }
  }

  lemma {:induction false} InsertDescSorted<T>(x: Keyed<T>, t: seq<Keyed<T>>)
    requires SortedDesc(t)
    ensures SortedDesc(InsertDesc(x, t))
    decreases |t|
  {
    if t == [] {
    } else {
      var last := t[|t| - 1];
      var init := t[..|t| - 1];
      if KeyLess(last.key, x.key) {
        InsertDescSorted(x, init);
        InsertDescPermutes(x, init);
        var front := InsertDesc(x, init);
        var r := front + [last];
        forall i | 0 <= i < |front| ensures !KeyLess(front[i].key, last.key) {
          assert front[i] in multiset(front);
          if front[i] == x {
            KeyLessAsymmetric(last.key, x.key);
          } else {
            assert front[i] in multiset(init);
            var k :| 0 <= k < |init| && init[k] == front[i];
            assert t[k] == init[k];
          }
        }
        assert forall i, j :: 0 <= i < j < |r| ==> !KeyLess(r[i].key, r[j].key) by {
          forall i, j | 0 <= i < j < |r| ensures !KeyLess(r[i].key, r[j].key) {
            if j < |front| {
              assert r[i] == front[i] && r[j] == front[j];
            } else {
              assert r[i] == front[i] && r[j] == last;
            }
          }
        }
      } else {
        var r := t + [x];
        forall i, j | 0 <= i < j < |r| ensures !KeyLess(r[i].key, r[j].key) {
          if j < |t| {
            assert r[i] == t[i] && r[j] == t[j];
          } else if i < |t| - 1 {
            assert r[i] == t[i] && r[j] == x;
            assert !KeyLess(t[i].key, last.key);
            NotLessTransitive(t[i].key, last.key, x.key);
          } else {
            assert r[i] == last && r[j] == x;
          }
        }
      }
    }
  }

  lemma {:induction false} WithKeyAppend<T>(a: seq<Keyed<T>>, b: seq<Keyed<T>>, k: SortKey)
    ensures WithKey(a + b, k) == WithKey(a, k) + WithKey(b, k)
    decreases |b|
  {
    if b == [] {
      assert a + b == a;
    } else {
      var init := b[..|b| - 1];
      WithKeyAppend(a, init, k);
      assert (a + b)[..|a + b| - 1] == a + init;
    }
  }

  /** Inserting `x` adds it after the entries that share its key and leaves the other keys' entries alone. */
  lemma {:induction false} InsertDescWithKey<T>(x: Keyed<T>, t: seq<Keyed<T>>, k: SortKey)
    ensures WithKey(InsertDesc(x, t), k) == WithKey(t, k) + (if x.key == k then [x] else [])
    decreases |t|
  {
    if t == [] {
      assert WithKey([x], k) == WithKey([], k) + (if x.key == k then [x] else []) by {
        assert [x][..0] == [];
      }
    } else {
      var last := t[|t| - 1];
      var init := t[..|t| - 1];
      assert t == init + [last];
      if KeyLess(last.key, x.key) {
        InsertDescWithKey(x, init, k);
        WithKeyAppend(InsertDesc(x, init), [last], k);
        WithKeyAppend(init, [last], k);
        assert [last][..0] == [];
        assert WithKey([last], k) == (if last.key == k then [last] else []);
        if x.key == k {
          KeyLessIrreflexive(x.key);
          assert last.key != k;
        }
      } else {
        WithKeyAppend(t, [x], k);
        assert [x][..0] == [];
      }
    }
  }

  // ------------------------------------------------------------------ sort

  /** The sort orders by key, highest first. */
  lemma {:induction false} SortDescSorted<T>(s: seq<Keyed<T>>)
    ensures SortedDesc(SortDesc(s))
    decreases |s|
  {
    if s != [] {
      SortDescSorted(s[..|s| - 1]);
      InsertDescSorted(s[|s| - 1], SortDesc(s[..|s| - 1]));
    }
  }

  /** The sort keeps every entry, as often as it occurs. */
  lemma {:induction false} SortDescPermutes<T>(s: seq<Keyed<T>>)
    ensures multiset(SortDesc(s)) == multiset(s)
    ensures |SortDesc(s)| == |s|
    decreases |s|
  {
    if s != [] {
      var init := s[..|s| - 1];
      SortDescPermutes(init);
      InsertDescPermutes(s[|s| - 1], SortDesc(init));
      assert s == init + [s[|s| - 1]];
    }
  }

  /** The sort is stable: the entries with one key come out in their input order. */
  lemma {:induction false} SortDescStable<T>(s: seq<Keyed<T>>, k: SortKey)
    ensures WithKey(SortDesc(s), k) == WithKey(s, k)
    decreases |s|
  {
    if s != [] {
      var init := s[..|s| - 1];
      SortDescStable(init, k);
      InsertDescWithKey(s[|s| - 1], SortDesc(init), k);
    }
  }

  // ------------------------------------------------------------ in place

  /**
   * Where the entries from `j` on are all below `x` and the one before `j`
   * is not, inserting `x` puts it at `j`.
   */
  lemma {:induction false} InsertDescAt<T>(x: Keyed<T>, t: seq<Keyed<T>>, j: nat)
    requires j <= |t|
    requires forall k :: j <= k < |t| ==> KeyLess(t[k].key, x.key)
    requires j == 0 || !KeyLess(t[j - 1].key, x.key)
    ensures InsertDesc(x, t) == t[..j] + [x] + t[j..]
    decreases |t|
  {
    if |t| == j {
      assert t[..j] == t && t[j..] == [];
    } else {
      var init := t[..|t| - 1];
      InsertDescAt(x, init, j);
      assert init[..j] == t[..j];
      assert init[j..] + [t[|t| - 1]] == t[j..];
    }
  }

  /**
   * The shifting loop of an insertion step: moves the entries of `a[..i]`
   * that are below `x` one place up and returns the gap left for `x`.
   */
  method ShiftDown<T>(a: array<Keyed<T>>, i: nat, x: Keyed<T>, ghost sorted: seq<Keyed<T>>) returns (j: nat)
    requires i < a.Length && sorted == a[..i]
    modifies a
    ensures j <= i
    ensures a[..j] == sorted[..j] && a[j + 1..i + 1] == sorted[j..i] && a[i + 1..] == old(a[i + 1..])
    ensures forall k :: j <= k < i ==> KeyLess(sorted[k].key, x.key)
    ensures j == 0 || !KeyLess(sorted[j - 1].key, x.key)
  {
    ghost var rest := a[i + 1..];
    j := i;
    while j > 0 && KeyLess(a[j - 1].key, x.key)
      invariant 0 <= j <= i
      invariant a[..j] == sorted[..j] && a[j + 1..i + 1] == sorted[j..i] && a[i + 1..] == rest
      invariant forall k :: j <= k < i ==> KeyLess(sorted[k].key, x.key)
    {
      assert a[j - 1] == sorted[j - 1];
      ShiftOne(a, j, i);
      j := j - 1;
    }
    assert j > 0 ==> a[j - 1] == sorted[j - 1];
  }

  /** One move of the shifting loop: `a[j - 1]` is copied into the gap at `j`. */
  method ShiftOne<T>(a: array<Keyed<T>>, j: nat, i: nat)
    requires 0 < j <= i < a.Length
    modifies a
    ensures a[..j - 1] == old(a[..j - 1])
    ensures a[j..i + 1] == [old(a[j - 1])] + old(a[j + 1..i + 1])
    ensures a[i + 1..] == old(a[i + 1..])
  {
    a[j] := a[j - 1];
  }

  /** Moves `a[i]` down past the entries below it: one insertion step. */
  method InsertStep<T>(a: array<Keyed<T>>, i: nat)
    requires i < a.Length
    modifies a
    ensures a[..i + 1] == InsertDesc(old(a[i]), old(a[..i]))
    ensures a[i + 1..] == old(a[i + 1..])
  {
    ghost var sorted := a[..i];
    var x := a[i];
    var j := ShiftDown(a, i, x, sorted);
    InsertDescAt(x, sorted, j);
    a[j] := x;
    assert a[..i + 1] == sorted[..j] + [x] + sorted[j..i] by {
      assert a[..i + 1] == a[..j] + [x] + a[j + 1..i + 1];
    }
  }

  /** Insertion sort in place, as `list.sort` with `reverse=True` leaves the list. */
  method SortInPlace<T>(a: array<Keyed<T>>)
    modifies a
    ensures a[..] == SortDesc(old(a[..]))
  {
    ghost var input := a[..];
    for i := 0 to a.Length
      invariant a[..i] == SortDesc(input[..i])
      invariant a[i..] == input[i..]
    {
      assert input[..i + 1][..i] == input[..i];
      assert a[i] == input[i];
      InsertStep(a, i);
    }
    assert input[..a.Length] == input;
  }
}
