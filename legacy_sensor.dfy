/**
 * `VarsomAlertsSensor` of the legacy integration: the state is the highest
 * active level as text, the attributes list one entry per `MasterId` (else
 * `Id`) with the municipality names merged, highest level first, and the
 * picture is chosen from the state's colour and the first typed alert.
 * Filtering, the active test, the highest level, merging and sorting are
 * the same steps the current sensor takes and are shared with it.
 */
module LegacySensor {
  import opened Common
  import opened Text
  import opened Records
  import opened Entries
  import opened Sorting
  import opened Dedup
  import opened MunicipalityFilter
  import opened CurrentSensor

  /** What the legacy sensor reads from itself and its coordinator. */
  datatype LegacyConfig = LegacyConfig(
    useFilter: bool,       // the "My Area" sensor
    filter: string,        // the stored (stripped) municipality filter
    lang: string,
    countyName: string,
    countyId: string)

  /** The alerts the sensor looks at. */
  function Used(data: seq<Warning>, cfg: LegacyConfig): seq<Warning> {
    if cfg.useFilter then Filtered(data, cfg.filter) else data
  }

  /** The same alerts the current sensor looks at under the same filter settings. */
  function AsCurrent(cfg: LegacyConfig): (c: SensorConfig)
    ensures c.useFilter == cfg.useFilter && c.filter == cfg.filter && c.lang == cfg.lang
  {
    SensorConfig(cfg.useFilter, cfg.filter, cfg.lang, false, cfg.countyId, cfg.countyName, None, None)
  }

  // ------------------------------------------------------------ state

  /** `native_value`: "1" without data or without an active alert, else the highest active level as text. */
  function NativeValue(data: seq<Warning>, cfg: LegacyConfig): Result<string, string> {
    LevelText(data != [], Active(Used(data, cfg)))
  }

  function LevelText(hasData: bool, active: seq<Warning>): Result<string, string> {
    if !hasData || active == [] then Ok("1")
    else
      match MaxOf(active)
      case Err(e) => Err(e)
      case Ok(m) => Ok(IntToString(m))
  }

  /**
   * The state is "1" when nothing is active, else the text of an active
   * level that no active level exceeds; it fails exactly when some active
   * level is not an integer.
   */
  lemma NativeValueIsMax(data: seq<Warning>, cfg: LegacyConfig)
    ensures var active := Active(Used(data, cfg));
      NativeValue(data, cfg).Err? <==>
        data != [] && exists i :: 0 <= i < |active| && LevelValue(active[i]).None?
    ensures var active := Active(Used(data, cfg));
      (data == [] || active == []) ==> NativeValue(data, cfg) == Ok("1")
    ensures var active := Active(Used(data, cfg)); var r := NativeValue(data, cfg);
      data != [] && active != [] && r.Ok? ==>
        && ParseInt(r.value).Some?
        && (exists i :: 0 <= i < |active| && LevelValue(active[i]) == ParseInt(r.value))
        && forall i :: 0 <= i < |active| ==> LevelValue(active[i]).value <= ParseInt(r.value).value
  {
    LevelTextIsMax(data != [], Active(Used(data, cfg)));
  }

  lemma LevelTextIsMax(hasData: bool, active: seq<Warning>)
    ensures LevelText(hasData, active).Err? <==> hasData && exists i :: 0 <= i < |active| && LevelValue(active[i]).None?
    ensures (!hasData || active == []) ==> LevelText(hasData, active) == Ok("1")
    ensures var r := LevelText(hasData, active);
      hasData && active != [] && r.Ok? ==>
        && ParseInt(r.value).Some?
        && (exists i :: 0 <= i < |active| && LevelValue(active[i]) == ParseInt(r.value))
        && forall i :: 0 <= i < |active| ==> LevelValue(active[i]).value <= ParseInt(r.value).value
  {
    if hasData && active != [] {
      MaxOfAttained(active);
      if MaxOf(active).Ok? {
        IntToStringRoundTrip(MaxOf(active).value);
      }
    }
  }

  /** `max` fails exactly on an unreadable level, and otherwise returns one of the levels. */
  lemma MaxOfAttained(ws: seq<Warning>)
    requires ws != []
    ensures MaxOf(ws).Err? <==> exists i :: 0 <= i < |ws| && LevelValue(ws[i]).None?
    ensures MaxOf(ws).Ok? ==> exists i :: 0 <= i < |ws| && LevelValue(ws[i]) == Some(MaxOf(ws).value)
  {
    var vs := LevelValues(ws);
    if MaxOf(ws).Ok? {
      MaxValueAttained(vs);
      var i :| 0 <= i < |vs| && vs[i] == Some(MaxValue(vs).value);
      assert LevelValue(ws[i]) == Some(MaxOf(ws).value);
    }
  }

  /**
   * The legacy state is the level text the current sensor's corrected
   * picture is keyed on: the legacy sensor keys its picture on the level.
   */
  lemma NativeValueIsHighestLevelText(data: seq<Warning>, cfg: LegacyConfig)
    ensures NativeValue(data, cfg) == HighestLevelText(data, AsCurrent(cfg))
  {
    assert ActiveOf(data, AsCurrent(cfg)) == Active(Used(data, cfg));
  }

  // ------------------------------------------------------------ entries

  const EnglishPage := "https://www.varsom.no/en/flood-and-landslide-warning-service/forecastid/"
  const NorwegianPage := "https://www.varsom.no/flom-og-jordskred/varsling/varselid/"

  /** The Varsom page of a forecast: the same flood-and-landslide path for every warning type, none without a key. */
  function LegacyUrl(w: Warning, lang: string): (url: Option<string>)
    ensures url.Some? <==> Truthy(UrlKey(w))
    ensures url.Some? && lang == "en" ==> url.value == EnglishPage + UrlKey(w).value
    ensures url.Some? && lang != "en" ==> url.value == NorwegianPage + UrlKey(w).value
  {
    var key := UrlKey(w);
    if !Truthy(key) then None
    else if lang == "en" then Some(EnglishPage + key.value)
    else Some(NorwegianPage + key.value)
  }

  /** The entry a first alert under its key stores. */
  function LegacyRecord(w: Warning, level: int, lang: string, names: map<string, string>): (e: LegacyAlert)
    ensures e.id == ForecastId(w) && e.masterId == w.masterId && e.level == level
    ensures e.municipalities == MunicipalityNames(w)
    ensures e.url == LegacyUrl(w, lang)
  {
    LegacyAlert(
      ForecastId(w), w.masterId, level, Get(names, ActivityLevelOf(w), "unknown"),
      w.dangerTypeName.GetOr(""), w.warningType.GetOr("unknown"), MunicipalityNames(w),
      w.validFrom, w.validTo, w.mainText, w.warningText, w.adviceText, w.consequenceText,
      LegacyUrl(w, lang))
  }

  /** The merge loop's view of the active alerts; every legacy entry has a `municipalities` key. */
  function LegacyCandidates(active: seq<Warning>, lang: string, names: map<string, string>): (cs: seq<Candidate>)
    requires forall i :: 0 <= i < |active| ==> LevelValue(active[i]).Some?
    ensures |cs| == |active|
    ensures forall i :: 0 <= i < |cs| ==>
      cs[i].key == UrlKey(active[i]) && cs[i].entry == LegacyEntry(LegacyRecord(active[i], LevelValue(active[i]).value, lang, names))
    ensures NamesConsistent(cs) && MergeSafe(cs)
  {
    seq(|active|, i requires 0 <= i < |active| =>
      Candidate(UrlKey(active[i]), MunicipalityNames(active[i]),
                LegacyEntry(LegacyRecord(active[i], LevelValue(active[i]).value, lang, names))))
  }

  function LegacyLocation(cfg: LegacyConfig): Location {
    CountyLocation(cfg.countyName, cfg.countyId, if cfg.useFilter then Some(cfg.filter) else None)
  }

  /**
   * `extra_state_attributes`: as in the current sensor, except that the
   * entries are legacy ones, which always have `municipalities`, so the
   * merge never fails.
   */
  function LegacyAttributesSpec(data: seq<Warning>, cfg: LegacyConfig, names: map<string, string>)
    : (r: Result<Attributes, string>)
  {
    if data == [] then Ok(Attributes(0, "green", 1, [], LegacyLocation(cfg)))
    else
      var active := Active(Used(data, cfg));
      match MaxLevel(active)
      case Err(e) => Err(e)
      case Ok(m) =>
        var cs := LegacyCandidates(active, cfg.lang, names);
        BuildClosedForm(cs);
        var t := Build(cs).value;
        var keyed := KeyedEntries(Values(t));
        if !Comparable(keyed) then Err(SortError)
        else Ok(Attributes(|t.keys|, Get(names, IntToString(m), "green"), m, Items(SortDesc(keyed)), LegacyLocation(cfg)))
  }

  /** The property as the legacy sensor computes it. */
  method LegacyExtraStateAttributes(data: seq<Warning>, cfg: LegacyConfig, names: map<string, string>)
    returns (r: Result<Attributes, string>)
    ensures r == LegacyAttributesSpec(data, cfg, names)
  {
    if data == [] {
      return Ok(Attributes(0, "green", 1, [], LegacyLocation(cfg)));
    }
    var used := data;
    if cfg.useFilter {
      used := FilterAlerts(data, cfg.filter);
    }
    var active := Active(used);
    var maxLevel := MaxLevel(active);
    if maxLevel.Err? {
      return Err(maxLevel.error);
    }
    var cs := LegacyCandidates(active, cfg.lang, names);
    var table := BuildTable(cs);
    BuildClosedForm(cs);
    var keyed := KeyedEntries(Values(table.value));
    if !Comparable(keyed) {
      return Err(SortError);
    }
    var a := new Keyed<AlertEntry>[|keyed|](i requires 0 <= i < |keyed| => keyed[i]);
    assert a[..] == keyed;
    SortInPlace(a);
    r := Ok(Attributes(|table.value.keys|, Get(names, IntToString(maxLevel.value), "green"), maxLevel.value,
                       Items(a[..]), LegacyLocation(cfg)));
  }

  // ------------------------------------------------------------ properties

  function LegacyActive(data: seq<Warning>, cfg: LegacyConfig): seq<Warning> {
    Active(Used(data, cfg))
  }

  /**
   * The attributes fail only on an unreadable level or an unorderable pair
   * of start times, never in the merge; on success there is one entry per
   * key, each the merged entry of its key, in descending order of (level,
   * valid_from).
   */
  lemma LegacyAttributesEntries(data: seq<Warning>, cfg: LegacyConfig, names: map<string, string>)
    requires data != [] && MaxLevel(LegacyActive(data, cfg)).Ok?
    ensures var cs := LegacyCandidates(LegacyActive(data, cfg), cfg.lang, names);
      LegacyAttributesSpec(data, cfg, names).Err? ==> LegacyAttributesSpec(data, cfg, names) == Err(SortError)
    ensures var cs := LegacyCandidates(LegacyActive(data, cfg), cfg.lang, names);
      var r := LegacyAttributesSpec(data, cfg, names);
      r.Ok? ==>
        && r.value.activeAlerts == |r.value.alerts| == |KeysOf(cs)| <= |LegacyActive(data, cfg)|
        && multiset(r.value.alerts) == multiset(MergedEntries(cs))
        && (forall i, j :: 0 <= i < j < |r.value.alerts| ==>
              !KeyLess(SortKeyOf(r.value.alerts[i]), SortKeyOf(r.value.alerts[j])))
        && r.value.highestLevelNumeric == MaxLevel(LegacyActive(data, cfg)).value
  {
    var active := LegacyActive(data, cfg);
    var cs := LegacyCandidates(active, cfg.lang, names);
    BuildClosedForm(cs);
    var r := LegacyAttributesSpec(data, cfg, names);
    if r.Ok? {
      var keyed := KeyedEntries(Values(Build(cs).value));
      MergedAndSorted(cs);
      SortedEntries(keyed);
      SortDescPermutes(keyed);
    }
  }

  /** No entry of the attributes is above `highest_level_numeric`. */
  lemma LegacyAttributesBounded(data: seq<Warning>, cfg: LegacyConfig, names: map<string, string>)
    requires data != [] && MaxLevel(LegacyActive(data, cfg)).Ok?
    ensures var r := LegacyAttributesSpec(data, cfg, names);
      r.Ok? ==> forall i :: 0 <= i < |r.value.alerts| ==> Level(r.value.alerts[i]) <= r.value.highestLevelNumeric
  {
    var active := LegacyActive(data, cfg);
    var cs := LegacyCandidates(active, cfg.lang, names);
    var r := LegacyAttributesSpec(data, cfg, names);
    if r.Ok? {
      LegacyAttributesEntries(data, cfg, names);
      LegacyLevels(active, cfg.lang, names, MaxLevel(active).value);
      AlertsBelow(r.value, MergedEntries(cs));
    }
  }

  /** Alerts that are the merged entries, none above the highest level, are each at most that level. */
  lemma AlertsBelow(a: Attributes, merged: seq<AlertEntry>)
    requires multiset(a.alerts) == multiset(merged)
    requires forall e :: e in merged ==> Level(e) <= a.highestLevelNumeric
    ensures forall i :: 0 <= i < |a.alerts| ==> Level(a.alerts[i]) <= a.highestLevelNumeric
  {
    forall i | 0 <= i < |a.alerts| ensures Level(a.alerts[i]) <= a.highestLevelNumeric {
      assert a.alerts[i] in multiset(merged);
    }
  }

  /** A merged entry keeps the level of the first alert under its key. */
  lemma LegacyLevels(active: seq<Warning>, lang: string, names: map<string, string>, m: int)
    requires forall i :: 0 <= i < |active| ==> LevelValue(active[i]).Some? && LevelValue(active[i]).value <= m
    ensures forall e :: e in MergedEntries(LegacyCandidates(active, lang, names)) ==> Level(e) <= m
  {
    var cs := LegacyCandidates(active, lang, names);
    forall i | 0 <= i < |cs| ensures Level(cs[i].entry) <= m {
      assert cs[i].entry == LegacyEntry(LegacyRecord(active[i], LevelValue(active[i]).value, lang, names));
    }
    MergedBelow(cs, m);
  }

  /** `sorted(set([a] + [b]))` for two names in order. */
  lemma SortedPair(a: string, b: string)
    requires StrLess(a, b)
    ensures SortedSet([a] + [b]) == [a, b]
  {
    ElemsAppend([a], [b]);
    ElemsCons(a, [b]);
    assert [a] + [b] == [a, b];
    assert StrictlySorted([a, b]);
    StrictlySortedUnique(SortedSet([a] + [b]), [a, b]);
  }

  /**
   * Two active alerts with the same `MasterId` and level, one for a
   * municipality and one for another, become one entry under that id whose
   * municipalities are both names in order.
   */
  lemma SameMasterIdMerged(w1: Warning, w2: Warning, cfg: LegacyConfig, names: map<string, string>, a: string, b: string)
    requires !cfg.useFilter
    requires w1.masterId != "" && w2.masterId == w1.masterId
    requires IsActive(w1) && IsActive(w2) && LevelValue(w1).Some? && LevelValue(w2) == LevelValue(w1)
    requires MunicipalityNames(w1) == [a] && MunicipalityNames(w2) == [b] && StrLess(a, b)
    ensures LegacyAttributesSpec([w1, w2], cfg, names).Ok?
    ensures LegacyAttributesSpec([w1, w2], cfg, names).value.alerts
         == [LegacyEntry(LegacyRecord(w1, LevelValue(w1).value, cfg.lang, names).(municipalities := [a, b]))]
  {
    var data := [w1, w2];
    ActiveBoth(w1, w2);
    var cs := LegacyCandidates(data, cfg.lang, names);
    var k := Some(w1.masterId);
    var e := LegacyEntry(LegacyRecord(w1, LevelValue(w1).value, cfg.lang, names).(municipalities := [a, b]));
    assert Build(cs) == Ok(Table([k], map[k := e])) by {
      var e1 := LegacyEntry(LegacyRecord(w1, LevelValue(w1).value, cfg.lang, names));
      assert cs == [Candidate(k, [a], e1), Candidate(k, [b], cs[1].entry)];
      BuildSameKeyPair(k, [a], [b], e1, cs[1].entry);
      SortedPair(a, b);
      assert WithMunicipalities(e1, [a, b]) == e;
    }
    SingleEntrySorted(Table([k], map[k := e]), e);
  }

  /** A one-entry table is published as that entry. */
  lemma SingleEntrySorted(t: Table, e: AlertEntry)
    requires TableOk(t) && |t.keys| == 1 && t.entries[t.keys[0]] == e
    ensures Values(t) == [e]
    ensures Comparable(KeyedEntries(Values(t)))
    ensures Items(SortDesc(KeyedEntries(Values(t)))) == [e]
  {
    var keyed := KeyedEntries(Values(t));
    assert keyed[..0] == [];
    assert SortDesc(keyed) == keyed;
  }

  lemma ActiveBoth(w1: Warning, w2: Warning)
    requires IsActive(w1) && IsActive(w2)
    ensures Active([w1, w2]) == [w1, w2]
  {
    assert [w1, w2][..1] == [w1] && [w1][..0] == [];
    assert Active([w1]) == [w1];
  }

  /** Two alerts under one key: one entry, the first, with the sorted union of their names. */
  lemma BuildSameKeyPair(k: Key, n1: seq<string>, n2: seq<string>, e1: AlertEntry, e2: AlertEntry)
    requires Municipalities(e1) == Some(n1)
    ensures Build([Candidate(k, n1, e1), Candidate(k, n2, e2)])
         == Ok(Table([k], map[k := WithMunicipalities(e1, SortedSet(n1 + n2))]))
  {
    var c1, c2 := Candidate(k, n1, e1), Candidate(k, n2, e2);
    assert [c1, c2][..1] == [c1] && [c1][..0] == [];
    assert Build([]) == Ok(Table([], map[]));
    assert [] + [k] == [k];
    assert Build([c1]) == Ok(Table([k], map[k := e1]));
    assert map[k := e1][k := WithMunicipalities(e1, SortedSet(n1 + n2))] == map[k := WithMunicipalities(e1, SortedSet(n1 + n2))];
  }

  // ------------------------------------------------------------ entity picture

  /**
   * `entity_picture`: the colour of the state and the first typed alert
   * select the icon; no generic fallback.  The state can fail, and then so
   * does the picture.
   */
  function LegacyEntityPicture(data: seq<Warning>, cfg: LegacyConfig, names: map<string, string>,
                               icons: map<string, string>): (r: Result<Option<string>, string>)
    ensures r.Ok? <==> NativeValue(data, cfg).Ok?
    ensures r.Ok? && r.value.Some? ==>
      var state := NativeValue(data, cfg).value;
      && state in names && names[state] != "" && names[state] != "green" && FirstType(data).Some?
      && FirstType(data).value + "-" + names[state] in icons
      && r.value == Some(icons[FirstType(data).value + "-" + names[state]])
  {
    match NativeValue(data, cfg)
    case Err(e) => Err(e)
    case Ok(state) =>
      var t := FirstType(data);
      if state !in names || names[state] == "" || names[state] == "green" || t.None? then Ok(None)
      else
        var key := t.value + "-" + names[state];
        Ok(if key in icons then Some(icons[key]) else None)
  }

  /** Where the type's own icon exists and is non-empty, the legacy and the corrected current picture agree. */
  lemma PicturesAgree(data: seq<Warning>, cfg: LegacyConfig, names: map<string, string>, icons: map<string, string>)
    requires NativeValue(data, cfg).Ok? && FirstType(data).Some?
    requires var state := NativeValue(data, cfg).value;
      state in names ==> var key := FirstType(data).value + "-" + names[state]; key in icons && icons[key] != ""
    ensures EntityPicture(data, AsCurrent(cfg), names, icons) == LegacyEntityPicture(data, cfg, names, icons)
  {
    NativeValueIsHighestLevelText(data, cfg);
  }
}
