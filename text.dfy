/**
 * The Python string operations the integration relies on, restricted to what
 * its inputs need: ASCII and Latin-1 case mapping, `in`, `split`/`join`, `strip`,
 * `replace(t, "")`, `title()`, `isdigit()`, `int()`, `str()` of an integer,
 * string ordering and `sorted(set(...))`.
 */
module Text {
  import opened Common

  // ---------------------------------------------------------------- characters

  predicate IsDigitChar(c: char) { '0' <= c <= '9' }

  /** The capitals `lower()` maps one-to-one within Latin-1: A-Z and À-Þ except ×, so Æ, Ø and Å too. */
  predicate IsUpperChar(c: char) { 'A' <= c <= 'Z' || ('\U{C0}' <= c <= '\U{DE}' && c != '\U{D7}') }

  /** Their small letters, 32 code points above: a-z and à-þ except ÷. */
  predicate IsLowerChar(c: char) { 'a' <= c <= 'z' || ('\U{E0}' <= c <= '\U{FE}' && c != '\U{F7}') }

  predicate IsLetter(c: char) { IsUpperChar(c) || IsLowerChar(c) }

  function LowerChar(c: char): char {
    if IsUpperChar(c) then (c as int + 32) as char else c
  }

  function UpperChar(c: char): char {
    if IsLowerChar(c) then (c as int - 32) as char else c
  }

  /** The characters `str.isspace()` accepts: what argument-less `strip()` and `int()` remove. */
  predicate IsSpace(c: char) {
    c == ' ' || ('\t' <= c <= '\r') || ((28 as char) <= c <= (31 as char))
    || c == (133 as char) || c == (160 as char) || c == '\U{1680}'
    || ('\U{2000}' <= c <= '\U{200A}') || c == '\U{2028}' || c == '\U{2029}'
    || c == '\U{202F}' || c == '\U{205F}' || c == '\U{3000}'
  }

  // ------------------------------------------------------------------- casing

  /** `s.lower()` */
  function Lower(s: string): (r: string)
    ensures |r| == |s|
    ensures forall i :: 0 <= i < |s| ==> r[i] == LowerChar(s[i])
  {
    seq(|s|, i requires 0 <= i < |s| => LowerChar(s[i]))
  }

  /** The Norwegian capitals lower-case as in Python. */
  lemma LowerNorwegian()
    ensures Lower("ÆØÅ") == "æøå" && Lower("Ålesund") == "ålesund"
  {
  }

  lemma LowerIdempotent(s: string)
    ensures Lower(Lower(s)) == Lower(s)
  {
  }

  /** `s.title()`: a letter is upper-cased when it does not follow a letter, lower-cased otherwise. */
  function Title(s: string): string {
    TitleAfter(s, false)
  }

  function TitleAfter(s: string, afterLetter: bool): (r: string)
    ensures |r| == |s|
    ensures forall i :: 0 <= i < |s| ==> r[i] == LowerChar(s[i]) || r[i] == UpperChar(s[i])
  {
    if s == [] then []
    else [if afterLetter then LowerChar(s[0]) else UpperChar(s[0])] + TitleAfter(s[1..], IsLetter(s[0]))
  }

  /** Upper-casing a character changes it only within its letter pair. */
  lemma LowerUpper(c: char)
    ensures LowerChar(UpperChar(c)) == LowerChar(c)
  {
  }

  /** `s.replace(a, b)` for single characters. */
  function ReplaceChar(s: string, a: char, b: char): (r: string)
    ensures |r| == |s|
  {
    seq(|s|, i requires 0 <= i < |s| => if s[i] == a then b else s[i])
  }

  // ------------------------------------------------------------ substrings, `in`

  predicate OccursAt(s: string, t: string, i: int) {
    0 <= i && i + |t| <= |s| && s[i..i + |t|] == t
  }

  /** Python's `t in s`. */
  predicate Contains(s: string, t: string) {
    exists i :: 0 <= i <= |s| - |t| && OccursAt(s, t, i)
  }

  /** A text that lacks the first character of `t` does not contain `t`. */
  lemma AbsentFirstChar(s: string, t: string)
    requires |t| > 0 && forall i :: 0 <= i < |s| ==> s[i] != t[0]
    ensures !Contains(s, t)
  {
    forall j | 0 <= j <= |s| - |t| ensures !OccursAt(s, t, j) {
      assert s[j..j + |t|][0] == s[j];
    }
  }

  /** Index of the first occurrence of `t` in `s` at or after `from`. */
  function IndexOf(s: string, t: string, from: nat): (r: Option<nat>)
    ensures r.Some? ==> from <= r.value && OccursAt(s, t, r.value)
    ensures r.Some? ==> forall j :: from <= j < r.value ==> !OccursAt(s, t, j)
    ensures r.None? ==> forall j :: from <= j ==> !OccursAt(s, t, j)
    decreases |s| - from
  {
    if from + |t| > |s| then None
    else if s[from..from + |t|] == t then Some(from)
    else IndexOf(s, t, from + 1)
  }

  // ------------------------------------------------------------- split and join

  /** Python's `s.split(sep)` for a non-empty separator. */
  function Split(s: string, sep: string): (parts: seq<string>)
    requires |sep| > 0
    ensures |parts| >= 1
    ensures forall k :: 0 <= k < |parts| ==> !Contains(parts[k], sep)
    decreases |s|
  {
    match IndexOf(s, sep, 0)
    case None => [s]
    case Some(i) =>
      HeadFree(s, sep, i);
      [s[..i]] + Split(s[i + |sep|..], sep)
  }

  /** The text before the first separator does not contain it. */
  lemma HeadFree(s: string, sep: string, i: nat)
    requires |sep| > 0 && IndexOf(s, sep, 0) == Some(i)
    ensures !Contains(s[..i], sep)
  {
    var head := s[..i];
    forall j | 0 <= j <= |head| - |sep| ensures !OccursAt(head, sep, j) {
      assert head[j..j + |sep|] == s[j..j + |sep|];
      assert !OccursAt(s, sep, j);
    }
  }

  /** Python's `sep.join(parts)`. */
  function Join(parts: seq<string>, sep: string): string {
    if |parts| == 0 then ""
    else if |parts| == 1 then parts[0]
    else parts[0] + sep + Join(parts[1..], sep)
  }

  /** Splitting and joining with the same separator gives the original text back. */
  lemma {:induction false} JoinSplit(s: string, sep: string)
    requires |sep| > 0
    ensures Join(Split(s, sep), sep) == s
    decreases |s|
  {
    match IndexOf(s, sep, 0)
    case None =>
    case Some(i) =>
      var rest := s[i + |sep|..];
      JoinSplit(rest, sep);
      SplitAt(s, sep, i);
      JoinCons(s[..i], Split(rest, sep), sep);
      Reassemble(s, sep, i);
  }

  /** A text is the part before a separator occurrence, the separator and the part after it. */
  lemma Reassemble(s: string, sep: string, i: nat)
    requires OccursAt(s, sep, i)
    ensures s == s[..i] + sep + s[i + |sep|..]
  {
    assert s[..i] + sep + s[i + |sep|..] == s[..i] + s[i..i + |sep|] + s[i + |sep|..];
  }

  /** Where the first separator is at `i`, the split is the text before it, then the split of the rest. */
  lemma SplitAt(s: string, sep: string, i: nat)
    requires |sep| > 0 && IndexOf(s, sep, 0) == Some(i)
    ensures Split(s, sep) == [s[..i]] + Split(s[i + |sep|..], sep)
  {
  }

  /** Joining a part in front of a non-empty list puts one separator after it. */
  lemma JoinCons(head: string, tail: seq<string>, sep: string)
    requires |tail| >= 1
    ensures Join([head] + tail, sep) == head + sep + Join(tail, sep)
  {
    assert ([head] + tail)[1..] == tail;
  }

  /** A text without the separator splits into itself alone. */
  lemma SplitAbsent(s: string, sep: string)
    requires |sep| > 0 && !Contains(s, sep)
    ensures Split(s, sep) == [s]
  {
    var r := IndexOf(s, sep, 0);
    assert r.Some? ==> OccursAt(s, sep, r.value);
  }

  /**
   * With a separator whose first character does not recur in it, a leading
   * part free of the separator is split off exactly.
   */
  lemma SplitCons(a: string, rest: string, sep: string)
    requires |sep| > 0 && !Contains(a, sep)
    requires forall k :: 0 < k < |sep| ==> sep[k] != sep[0]
    ensures Split(a + sep + rest, sep) == [a] + Split(rest, sep)
  {
    var s := a + sep + rest;
    assert OccursAt(s, sep, |a|) by {
      assert s[|a|..|a| + |sep|] == sep;
    }
    forall j | 0 <= j < |a| ensures !OccursAt(s, sep, j) {
      if j + |sep| <= |a| {
        assert s[j..j + |sep|] == a[j..j + |sep|];
        assert !OccursAt(a, sep, j);
      } else if j + |sep| <= |s| {
        var k := |a| - j;
        assert s[j..j + |sep|][k] == s[|a|] == sep[0] != sep[k];
      }
    }
    assert IndexOf(s, sep, 0) == Some(|a|);
    assert s[..|a|] == a;
    assert s[|a| + |sep|..] == rest;
  }

  // -------------------------------------------------------------------- strip

  function TrimLeft(s: string, cs: set<char>): string {
    if |s| > 0 && s[0] in cs then TrimLeft(s[1..], cs) else s
  }

  function TrimRight(s: string, cs: set<char>): string {
    if |s| > 0 && s[|s| - 1] in cs then TrimRight(s[..|s| - 1], cs) else s
  }

  /** Trimming the left drops a prefix of characters of `cs`, up to one that is not. */
  lemma {:induction false} TrimLeftShape(s: string, cs: set<char>)
    ensures var r := TrimLeft(s, cs);
      && |r| <= |s| && r == s[|s| - |r|..]
      && (r == [] || r[0] !in cs)
      && forall i :: 0 <= i < |s| - |r| ==> s[i] in cs
  {
    if |s| > 0 && s[0] in cs {
      TrimLeftShape(s[1..], cs);
    }
  }

  /** Trimming the right drops a suffix of characters of `cs`, back to one that is not. */
  lemma {:induction false} TrimRightShape(s: string, cs: set<char>)
    ensures var r := TrimRight(s, cs);
      && |r| <= |s| && r == s[..|r|]
      && (r == [] || r[|r| - 1] !in cs)
      && forall i :: |r| <= i < |s| ==> s[i] in cs
  {
    if |s| > 0 && s[|s| - 1] in cs {
      TrimRightShape(s[..|s| - 1], cs);
    }
  }

  /** Python's `s.strip(chars)`. */
  function StripChars(s: string, cs: set<char>): (r: string)
    ensures |r| <= |s|
    ensures r == [] || (r[0] !in cs && r[|r| - 1] !in cs)
  {
    var left := TrimLeft(s, cs);
    var r := TrimRight(left, cs);
    TrimLeftShape(s, cs);
    TrimRightShape(left, cs);
    assert r != [] ==> r[0] == left[0];
    r
  }

  const Whitespace: set<char> :=
    {' ', '\t', '\n', 11 as char, 12 as char, '\r', 28 as char, 29 as char, 30 as char, 31 as char,
     133 as char, 160 as char, '\U{1680}',
     '\U{2000}', '\U{2001}', '\U{2002}', '\U{2003}', '\U{2004}', '\U{2005}', '\U{2006}', '\U{2007}',
     '\U{2008}', '\U{2009}', '\U{200A}', '\U{2028}', '\U{2029}', '\U{202F}', '\U{205F}', '\U{3000}'}

  lemma WhitespaceIsSpace(c: char)
    ensures c in Whitespace <==> IsSpace(c)
  {
  }

  /** Python's argument-less `s.strip()`. */
  function Strip(s: string): string {
    StripChars(s, Whitespace)
  }

  /** A text with nothing to strip is unchanged by stripping. */
  lemma StripNoop(s: string, cs: set<char>)
    requires s == [] || (s[0] !in cs && s[|s| - 1] !in cs)
    ensures StripChars(s, cs) == s
  {
  }

  // ---------------------------------------------------------- remove (replace)

  /** Python's `s.replace(t, "")`: drops the non-overlapping occurrences found left to right. */
  function RemoveAll(s: string, t: string): (r: string)
    requires |t| > 0
    ensures |r| <= |s|
    decreases |s|
  {
    if |s| < |t| then s
    else if s[..|t|] == t then RemoveAll(s[|t|..], t)
    else [s[0]] + RemoveAll(s[1..], t)
  }

  /** Removing a text that occurs shortens by at least its length. */
  lemma {:induction false} RemovePresent(s: string, t: string)
    requires |t| > 0 && Contains(s, t)
    ensures |RemoveAll(s, t)| <= |s| - |t|
    decreases |s|
  {
    var i :| 0 <= i <= |s| - |t| && OccursAt(s, t, i);
    if s[..|t|] != t {
      assert i > 0;
      assert s[1..][i - 1..i - 1 + |t|] == s[i..i + |t|];
      assert OccursAt(s[1..], t, i - 1);
      RemovePresent(s[1..], t);
    }
  }

  /** Removing a text that does not occur changes nothing. */
  lemma {:induction false} RemoveAbsent(s: string, t: string)
    requires |t| > 0 && !Contains(s, t)
    ensures RemoveAll(s, t) == s
    decreases |s|
  {
    if |s| >= |t| {
      assert !OccursAt(s, t, 0);
      assert !Contains(s[1..], t) by {
        forall j | 0 <= j <= |s[1..]| - |t| ensures !OccursAt(s[1..], t, j) {
          assert s[1..][j..j + |t|] == s[j + 1..j + 1 + |t|];
          assert !OccursAt(s, t, j + 1);
        }
      }
      RemoveAbsent(s[1..], t);
    }
  }

  // ------------------------------------------------------------ digits and int()

  /** Python's `s.isdigit()` for ASCII text: non-empty and all digits. */
  predicate IsDigits(s: string) {
    |s| > 0 && forall i :: 0 <= i < |s| ==> IsDigitChar(s[i])
  }

  function DigitValue(c: char): nat
    requires IsDigitChar(c)
  {
    c as int - '0' as int
  }

  function DigitsValue(s: string): nat
    requires forall i :: 0 <= i < |s| ==> IsDigitChar(s[i])
  {
    if |s| == 0 then 0 else 10 * DigitsValue(s[..|s| - 1]) + DigitValue(s[|s| - 1])
  }

  /** Python's `int(s)`: surrounding whitespace, an optional sign, then decimal digits; None where Python raises ValueError. */
  function ParseInt(s: string): Option<int> {
    var t := Strip(s);
    if |t| > 0 && (t[0] == '+' || t[0] == '-') then
      if IsDigits(t[1..]) then
        var v: int := DigitsValue(t[1..]);
        Some(if t[0] == '-' then -v else v)
      else None
    else if IsDigits(t) then Some(DigitsValue(t))
    else None
  }

  function DigitChar(d: nat): (c: char)
    requires d < 10
    ensures IsDigitChar(c) && DigitValue(c) == d
  {
    ('0' as int + d) as char
  }

  /** Python's `str(n)` for a natural number. */
  function NatToString(n: nat): (s: string)
    ensures IsDigits(s)
  {
    if n < 10 then [DigitChar(n)] else NatToString(n / 10) + [DigitChar(n % 10)]
  }

  /** Python's `str(i)` for an integer. */
  function IntToString(i: int): string {
    if i < 0 then "-" + NatToString(-i) else NatToString(i)
  }

  lemma {:induction false} NatToStringValue(n: nat)
    ensures DigitsValue(NatToString(n)) == n
  {
    if n >= 10 {
      NatToStringValue(n / 10);
      var s := NatToString(n);
      assert s[..|s| - 1] == NatToString(n / 10);
    }
  }

  /** A digit string is read by int() as its value. */
  lemma ParseDigits(s: string)
    requires IsDigits(s)
    ensures ParseInt(s) == Some(DigitsValue(s))
  {
    assert !IsSpace(s[0]) && !IsSpace(s[|s| - 1]);
    StripNoop(s, Whitespace);
  }

  /** int(str(i)) == i. */
  lemma IntToStringRoundTrip(i: int)
    ensures ParseInt(IntToString(i)) == Some(i)
  {
    var n: nat := if i < 0 then -i else i;
    NatToStringValue(n);
    var s := IntToString(i);
    if i < 0 {
      assert s[1..] == NatToString(n);
      assert !IsSpace(s[0]) && !IsSpace(s[|s| - 1]);
      StripNoop(s, Whitespace);
    } else {
      ParseDigits(s);
    }
  }

  // ---------------------------------------------------------- string ordering

  /** Python's `<` on strings: lexicographic by code point. */
  predicate StrLess(a: string, b: string) {
    if |a| == 0 then |b| > 0
    else if |b| == 0 then false
    else a[0] < b[0] || (a[0] == b[0] && StrLess(a[1..], b[1..]))
  }

  lemma {:induction false} StrLessIrreflexive(a: string)
    ensures !StrLess(a, a)
  {
    if |a| > 0 { StrLessIrreflexive(a[1..]); }
  }

  lemma {:induction false} StrLessTransitive(a: string, b: string, c: string)
    requires StrLess(a, b) && StrLess(b, c)
    ensures StrLess(a, c)
  {
    if |a| > 0 && |b| > 0 && |c| > 0 && a[0] == b[0] == c[0] {
      StrLessTransitive(a[1..], b[1..], c[1..]);
    }
  }

  lemma {:induction false} StrLessTotal(a: string, b: string)
    requires a != b
    ensures StrLess(a, b) || StrLess(b, a)
  {
    if |a| > 0 && |b| > 0 && a[0] == b[0] {
      assert a == [a[0]] + a[1..] && b == [b[0]] + b[1..];
      StrLessTotal(a[1..], b[1..]);
    }
  }

  // ------------------------------------------------------- sorted(set(names))

  /** Strictly increasing, hence free of duplicates. */
  predicate StrictlySorted(s: seq<string>) {
    forall i, j :: 0 <= i < j < |s| ==> StrLess(s[i], s[j])
  }

  lemma ElemsCons(x: string, t: seq<string>)
    ensures Elems([x] + t) == {x} + Elems(t)
  {
    var r := [x] + t;
    forall y | y in Elems(r) ensures y in {x} + Elems(t) {
      var i :| 0 <= i < |r| && r[i] == y;
      if i > 0 { assert t[i - 1] == y; }
    }
    forall y | y in Elems(t) ensures y in Elems(r) {
      var i :| 0 <= i < |t| && t[i] == y;
      assert r[i + 1] == y;
    }
    assert r[0] == x;
  }

  lemma ElemsEmpty(s: seq<string>)
    ensures Elems(s) == {} <==> s == []
  {
    if s != [] { assert s[0] in Elems(s); }
  }

  lemma ElemsAppend(a: seq<string>, b: seq<string>)
    ensures Elems(a + b) == Elems(a) + Elems(b)
  {
    var r := a + b;
    forall y | y in Elems(r) ensures y in Elems(a) + Elems(b) {
      var i :| 0 <= i < |r| && r[i] == y;
      if i >= |a| { assert b[i - |a|] == y; }
    }
    forall y | y in Elems(a) + Elems(b) ensures y in Elems(r) {
      if y in Elems(a) {
        var i :| 0 <= i < |a| && a[i] == y;
        assert r[i] == y;
      } else {
        var i :| 0 <= i < |b| && b[i] == y;
        assert r[|a| + i] == y;
      }
    }
  }

  /** Inserts `x` into a strictly sorted list unless it is already there. */
  function InsertUnique(x: string, t: seq<string>): (r: seq<string>)
    requires StrictlySorted(t)
    ensures StrictlySorted(r)
    ensures Elems(r) == Elems(t) + {x}
  {
    if t == [] then
      assert [x][0] == x;
      [x]
    else if x == t[0] then
      assert t[0] in Elems(t);
      t
    else if StrLess(x, t[0]) then
      forall j | 0 < j < |t| ensures StrLess(x, t[j]) { StrLessTransitive(x, t[0], t[j]); }
      ElemsCons(x, t);
      [x] + t
    else
      StrLessTotal(x, t[0]);
      var rest := InsertUnique(x, t[1..]);
      ElemsCons(t[0], t[1..]);
      assert [t[0]] + t[1..] == t;
      HeadBelow(t, x, rest);
      var r := [t[0]] + rest;
      ElemsCons(t[0], rest);
      r
  }

  /** The head of a strictly sorted list is below anything made of its tail and a larger `x`. */
  lemma HeadBelow(t: seq<string>, x: string, rest: seq<string>)
    requires |t| > 0 && StrictlySorted(t) && StrLess(t[0], x)
    requires Elems(rest) == Elems(t[1..]) + {x}
    ensures forall j :: 0 <= j < |rest| ==> StrLess(t[0], rest[j])
  {
    forall j | 0 <= j < |rest| ensures StrLess(t[0], rest[j]) {
      assert rest[j] in Elems(rest);
      if rest[j] != x {
        var i :| 0 <= i < |t[1..]| && t[1..][i] == rest[j];
        assert t[i + 1] == rest[j];
      }
    }
  }

  /** The elements of a sequence, as a set. */
  function Elems(s: seq<string>): set<string> {
    set i | 0 <= i < |s| :: s[i]
  }

  /** Python's `sorted(set(xs))`. */
  function SortedSet(xs: seq<string>): (r: seq<string>)
    ensures StrictlySorted(r)
    ensures Elems(r) == Elems(xs)
  {
    if xs == [] then []
    else
      var r := InsertUnique(xs[|xs| - 1], SortedSet(xs[..|xs| - 1]));
      assert Elems(xs) == Elems(xs[..|xs| - 1]) + {xs[|xs| - 1]} by {
        forall y | y in Elems(xs) ensures y in Elems(xs[..|xs| - 1]) + {xs[|xs| - 1]} {
          var i :| 0 <= i < |xs| && xs[i] == y;
          if i < |xs| - 1 { assert xs[..|xs| - 1][i] == y; }
        }
      }
      r
  }

  /**
   * A strictly sorted list is determined by its elements: so SortedSet(xs)
   * is the one list Python's `sorted(set(xs))` gives.
   */
  lemma {:induction false} StrictlySortedUnique(a: seq<string>, b: seq<string>)
    requires StrictlySorted(a) && StrictlySorted(b) && Elems(a) == Elems(b)
    ensures a == b
    decreases |a|
  {
    ElemsEmpty(a);
    ElemsEmpty(b);
    if a != [] {
      assert a[0] in Elems(b);
      assert b[0] in Elems(a);
      var i :| 0 <= i < |b| && b[i] == a[0];
      var j :| 0 <= j < |a| && a[j] == b[0];
      if i > 0 {
        assert StrLess(b[0], a[0]);
        if j > 0 { StrLessTransitive(b[0], a[0], a[j]); StrLessIrreflexive(b[0]); } else { StrLessIrreflexive(a[0]); }
      }
      assert a[0] == b[0];
      assert Elems(a[1..]) == Elems(b[1..]) by {
        forall y | y in Elems(a[1..]) ensures y in Elems(b[1..]) {
          var k :| 0 <= k < |a[1..]| && a[1..][k] == y;
          assert StrLess(a[0], y);
          assert y in Elems(b);
          var m :| 0 <= m < |b| && b[m] == y;
          if m == 0 { StrLessIrreflexive(y); }
          assert b[1..][m - 1] == y;
        }
        forall y | y in Elems(b[1..]) ensures y in Elems(a[1..]) {
          var k :| 0 <= k < |b[1..]| && b[1..][k] == y;
          assert StrLess(b[0], y);
          assert y in Elems(a);
          var m :| 0 <= m < |a| && a[m] == y;
          if m == 0 { StrLessIrreflexive(y); }
          assert a[1..][m - 1] == y;
        }
      }
      StrictlySortedUnique(a[1..], b[1..]);
      assert a == [a[0]] + a[1..] && b == [b[0]] + b[1..];
    }
  }
}
