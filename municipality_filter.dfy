/**
 * `_filter_alerts` of both sensors (the "My Area" sensor): the configured
 * filter, stripped when the sensor is created, is split on commas into
 * stripped, lower-cased terms; an alert is kept when some term occurs in
 * some lower-cased municipality name of the alert.  An empty filter keeps
 * everything.
 */
module MunicipalityFilter {
  import opened Text
  import opened Records

  /** `[term.strip().lower() for term in filter.split(",")]` */
  function Terms(filter: string): (ts: seq<string>)
    ensures |ts| == |Split(filter, ",")|
    ensures forall i :: 0 <= i < |ts| ==> ts[i] == Lower(Strip(Split(filter, ",")[i]))
  {
    var parts := Split(filter, ",");
    seq(|parts|, i requires 0 <= i < |parts| => Lower(Strip(parts[i])))
  }

  /** `[m.get("Name", "").lower() for m in alert.get("MunicipalityList", [])]` */
  function LowerNames(w: Warning): (ns: seq<string>)
    ensures |ns| == |w.municipalities|
    ensures forall j :: 0 <= j < |ns| ==> ns[j] == Lower(w.municipalities[j].name)
  {
    seq(|w.municipalities|, j requires 0 <= j < |w.municipalities| => Lower(w.municipalities[j].name))
  }

  /** Some term occurs in some name. */
  predicate AnyMatch(terms: seq<string>, names: seq<string>) {
    exists i, j :: 0 <= i < |terms| && 0 <= j < |names| && Contains(names[j], terms[i])
  }

  predicate Matches(w: Warning, terms: seq<string>) {
    AnyMatch(terms, LowerNames(w))
  }

  /** The alerts that match, in their order. */
  function Keep(ws: seq<Warning>, terms: seq<string>): seq<Warning> {
    if ws == [] then []
    else Keep(ws[..|ws| - 1], terms) + (if Matches(ws[|ws| - 1], terms) then [ws[|ws| - 1]] else [])
  }

  /** What the sensor keeps given its stored (already stripped) filter. */
  function Filtered(ws: seq<Warning>, filter: string): seq<Warning> {
    if filter == "" then ws else Keep(ws, Terms(filter))
  }

  /** The filter the sensor stores: the configured one, stripped. */
  function StoredFilter(configured: string): (f: string)
    ensures |f| <= |configured|
    ensures f == [] || (f[0] !in Whitespace && f[|f| - 1] !in Whitespace)
  {
    Strip(configured)
  }

  // ------------------------------------------------------------ the method

  /** The nested search with its `matches` flag and early exits. */
  method SearchMatch(terms: seq<string>, names: seq<string>) returns (matches: bool)
    ensures matches == AnyMatch(terms, names)
  {
    matches := false;
    var i := 0;
    while i < |terms|
      invariant 0 <= i <= |terms|
      invariant !matches ==> forall i', j :: 0 <= i' < i && 0 <= j < |names| ==> !Contains(names[j], terms[i'])
      invariant matches ==> AnyMatch(terms, names)
    {
      var j := 0;
      while j < |names|
        invariant 0 <= j <= |names|
        invariant !matches ==> forall j' :: 0 <= j' < j ==> !Contains(names[j'], terms[i])
        invariant matches ==> AnyMatch(terms, names)
      {
        if Contains(names[j], terms[i]) {
          matches := true;
          break;
        }
        j := j + 1;
      }
      if matches {
        break;
      }
      i := i + 1;
    }
  }

  /** `_filter_alerts` on the stored filter. */
  method FilterAlerts(ws: seq<Warning>, filter: string) returns (filtered: seq<Warning>)
    ensures filtered == Filtered(ws, filter)
  {
    if filter == "" {
      return ws;
    }
    var terms := Terms(filter);
    filtered := [];
    for k := 0 to |ws|
      invariant filtered == Keep(ws[..k], terms)
    {
      assert ws[..k + 1][..k] == ws[..k];
      var m := SearchMatch(terms, LowerNames(ws[k]));
      if m {
        filtered := filtered + [ws[k]];
      }
    }
    assert ws[..|ws|] == ws;
  }

  // ------------------------------------------------------------ properties

  /** Exactly the matching alerts are kept. */
  lemma {:induction false} KeepMembers(ws: seq<Warning>, terms: seq<string>)
    ensures |Keep(ws, terms)| <= |ws|
    ensures forall w :: w in Keep(ws, terms) <==> w in ws && Matches(w, terms)
  {
    if ws != [] {
      var init := ws[..|ws| - 1];
      KeepMembers(init, terms);
      assert ws == init + [ws[|ws| - 1]];
    }
  }

  /** Filtering a concatenation filters each part: the kept alerts stay in order. */
  lemma {:induction false} KeepAppend(a: seq<Warning>, b: seq<Warning>, terms: seq<string>)
    ensures Keep(a + b, terms) == Keep(a, terms) + Keep(b, terms)
    decreases |b|
  {
    if b != [] {
      var b' := b[..|b| - 1];
      assert (a + b)[..|a + b| - 1] == a + b';
      KeepAppend(a, b', terms);
    } else {
      assert a + b == a;
    }
  }

  /** Filtering twice with the same filter is filtering once. */
  lemma {:induction false} FilteredIdempotent(ws: seq<Warning>, filter: string)
    ensures Filtered(Filtered(ws, filter), filter) == Filtered(ws, filter)
  {
    if filter != "" {
      KeepTwice(ws, Terms(filter));
    }
  }

  lemma {:induction false} KeepTwice(ws: seq<Warning>, terms: seq<string>)
    ensures Keep(Keep(ws, terms), terms) == Keep(ws, terms)
  {
    if ws != [] {
      var init, w := ws[..|ws| - 1], ws[|ws| - 1];
      KeepTwice(init, terms);
      var single := if Matches(w, terms) then [w] else [];
      KeepAppend(Keep(init, terms), single, terms);
      if Matches(w, terms) {
        assert [w][..0] == [];
      }
    }
  }

  /** An alert without municipalities never passes a non-empty filter. */
  lemma NoMunicipalitiesDropped(w: Warning, filter: string)
    requires filter != "" && w.municipalities == []
    ensures Filtered([w], filter) == []
  {
    var ws := [w];
    assert ws[..|ws| - 1] == [];
    assert !Matches(w, Terms(filter));
    assert Keep(ws, Terms(filter)) == Keep([], Terms(filter));
  }

  /** An empty term (two commas in a row, or a trailing comma) matches every alert that has a municipality. */
  lemma EmptyTermMatchesAll(w: Warning, terms: seq<string>)
    requires "" in terms
    ensures Matches(w, terms) <==> |w.municipalities| > 0
  {
    var i :| 0 <= i < |terms| && terms[i] == "";
    if |w.municipalities| > 0 {
      assert OccursAt(LowerNames(w)[0], "", 0);
    }
  }

  /** A filter with a trailing comma, "Oslo," has the terms "oslo" and "": it keeps every alert with a municipality. */
  lemma TrailingCommaKeepsAll(w: Warning)
    ensures Matches(w, Terms("Oslo,")) <==> |w.municipalities| > 0
  {
    AbsentFirstChar("Oslo", ",");
    SplitCons("Oslo", "", ",");
    SplitAbsent("", ",");
    assert "Oslo," == "Oslo" + "," + "";
    var ts := Terms("Oslo,");
    assert ts[1] == Lower(Strip(""));
    EmptyTermMatchesAll(w, ts);
  }

  /** The filter "ålesund" keeps an alert for "Ålesund": case is ignored for Æ, Ø and Å as well. */
  lemma NorwegianTermMatches(w: Warning)
    requires |w.municipalities| > 0 && w.municipalities[0].name == "Ålesund"
    ensures Matches(w, Terms("ålesund"))
  {
    AbsentFirstChar("ålesund", ",");
    SplitAbsent("ålesund", ",");
    StripNoop("ålesund", Whitespace);
    LowerNorwegian();
    var ts := Terms("ålesund");
    assert ts[0] == Lower("ålesund") == "ålesund";
    assert OccursAt(LowerNames(w)[0], ts[0], 0);
  }
}
