/**
 * `NorwayAlertsSensor`: its state (the number of active alerts), its
 * `alerts` attribute (one entry per warning, merged on `MasterId`/`Id`,
 * sorted by level and start time, highest first) and the entry it builds
 * for each warning: a CAP record in CAP mode for NVE warnings, otherwise a
 * native record.  The level-name table and the icon table are parameters.
 */
module CurrentSensor {
  import opened Common
  import opened Text
  import opened Records
  import opened Cap
  import opened Entries
  import opened Sorting
  import opened Dedup
  import opened MunicipalityFilter

  /** What the sensor reads from itself and from its coordinator. */
  datatype SensorConfig = SensorConfig(
    useFilter: bool,             // the "My Area" sensor
    filter: string,              // the stored (stripped) municipality filter
    lang: string,
    capFormat: bool,
    countyId: string,
    countyName: string,
    latitude: Option<string>,
    longitude: Option<string>)

  /** The alerts a sensor looks at: all of them, or the filtered ones for the "My Area" sensor. */
  function DataToUse(data: seq<Warning>, cfg: SensorConfig): seq<Warning> {
    if cfg.useFilter then Filtered(data, cfg.filter) else data
  }

  /** The alerts whose level is neither "0" nor "1", in order. */
  function Active(ws: seq<Warning>): seq<Warning> {
    if ws == [] then []
    else Active(ws[..|ws| - 1]) + (if IsActive(ws[|ws| - 1]) then [ws[|ws| - 1]] else [])
  }

  lemma {:induction false} ActiveMembers(ws: seq<Warning>)
    ensures |Active(ws)| <= |ws|
    ensures forall w :: w in Active(ws) <==> w in ws && IsActive(w)
  {
    if ws != [] {
      ActiveMembers(ws[..|ws| - 1]);
      assert ws == ws[..|ws| - 1] + [ws[|ws| - 1]];
    }
  }

  /** `native_value`: 0 without data, else the number of active alerts. */
  function NativeValue(data: seq<Warning>, cfg: SensorConfig): nat {
    if data == [] then 0 else |Active(DataToUse(data, cfg))|
  }

  /** The state never exceeds the number of alerts, and the filtered sensor never counts more than the main one. */
  lemma NativeValueBounds(data: seq<Warning>, cfg: SensorConfig)
    ensures NativeValue(data, cfg) <= |data|
    ensures NativeValue(data, cfg) <= NativeValue(data, cfg.(useFilter := false))
  {
    if data != [] && cfg.useFilter && cfg.filter != "" {
      ActiveKeep(data, Terms(cfg.filter));
    }
    ActiveMembers(data);
  }

  /** Filtering before counting never yields more active alerts. */
  lemma {:induction false} ActiveKeep(ws: seq<Warning>, terms: seq<string>)
    ensures |Active(Keep(ws, terms))| <= |Active(ws)|
  {
    if ws != [] {
      var init, w := ws[..|ws| - 1], ws[|ws| - 1];
      ActiveKeep(init, terms);
      var single := if Matches(w, terms) then [w] else [];
      ActiveAppend(Keep(init, terms), single);
      if Matches(w, terms) {
        assert [w][..0] == [];
      }
    }
  }

  lemma {:induction false} ActiveAppend(a: seq<Warning>, b: seq<Warning>)
    ensures Active(a + b) == Active(a) + Active(b)
    decreases |b|
  {
    if b != [] {
      assert (a + b)[..|a + b| - 1] == a + b[..|b| - 1];
      ActiveAppend(a, b[..|b| - 1]);
    } else {
      assert a + b == a;
    }
  }

  // ------------------------------------------------------------ highest level

  /** The level of an alert as `int()` reads it. */
  function LevelValue(w: Warning): Option<int> {
    ParseInt(ActivityLevelOf(w))
  }

  /**
   * The maximum of a non-empty list of readable levels, taken left to
   * right; the index of the first unreadable one otherwise.
   */
  function MaxValue(vs: seq<Option<int>>): (r: Result<int, nat>)
    requires vs != []
    ensures r.Ok? <==> forall i :: 0 <= i < |vs| ==> vs[i].Some?
    ensures r.Ok? ==> forall i :: 0 <= i < |vs| ==> vs[i].value <= r.value
    ensures r.Err? ==> r.error < |vs| && vs[r.error].None? && forall i :: 0 <= i < r.error ==> vs[i].Some?
  {
    var last := vs[|vs| - 1];
    if |vs| == 1 then
      match last
      case None => Err(0)
      case Some(n) => Ok(n)
    else
      var init := vs[..|vs| - 1];
      assert forall i :: 0 <= i < |init| ==> init[i] == vs[i];
      match MaxValue(init)
      case Err(k) => Err(k)
      case Ok(m) =>
        match last
        case None => Err(|vs| - 1)
        case Some(n) => Ok(if n > m then n else m)
  }

  /** The maximum is one of the levels. */
  lemma {:induction false} MaxValueAttained(vs: seq<Option<int>>)
    requires vs != [] && MaxValue(vs).Ok?
    ensures exists i :: 0 <= i < |vs| && vs[i] == Some(MaxValue(vs).value)
  {
    if |vs| > 1 {
      var init := vs[..|vs| - 1];
      MaxValueAttained(init);
      var i :| 0 <= i < |init| && init[i] == Some(MaxValue(init).value);
      assert vs[i] == init[i];
    }
  }

  function LevelValues(ws: seq<Warning>): (vs: seq<Option<int>>)
    ensures |vs| == |ws| && forall i :: 0 <= i < |ws| ==> vs[i] == LevelValue(ws[i])
  {
    seq(|ws|, i requires 0 <= i < |ws| => LevelValue(ws[i]))
  }

  /** `max(int(alert["ActivityLevel"]) for alert in ws)` on a non-empty list; the first unreadable level raises. */
  function MaxOf(ws: seq<Warning>): (r: Result<int, string>)
    requires ws != []
    ensures r.Ok? <==> forall i :: 0 <= i < |ws| ==> LevelValue(ws[i]).Some?
    ensures r.Ok? ==> forall i :: 0 <= i < |ws| ==> LevelValue(ws[i]).value <= r.value
  {
    match MaxValue(LevelValues(ws))
    case Ok(m) => Ok(m)
    case Err(k) => Err(LevelError(ws[k]))
  }

  function LevelError(w: Warning): string {
    "ValueError: invalid literal for int(): " + ActivityLevelOf(w)
  }

  /** `max_level`: 1 when nothing is active. */
  function MaxLevel(active: seq<Warning>): (r: Result<int, string>)
    ensures active == [] ==> r == Ok(1)
    ensures active != [] ==> r == MaxOf(active)
  {
    if active == [] then Ok(1) else MaxOf(active)
  }

  // ------------------------------------------------------------------ entries

  /**
   * The alert's own icon: none for a green level or an untyped alert, else
   * the icon for its type and colour, falling back to the generic icon of
   * the colour when that one is missing or empty.
   */
  function AlertIcon(w: Warning, names: map<string, string>, icons: map<string, string>): (icon: Option<string>)
    ensures
      var color := Get(names, ActivityLevelOf(w), "green");
      var t := w.warningType.GetOr("");
      && (t == "" || color == "green" ==> icon == None)
      && (t != "" && color != "green" && t + "-" + color in icons && icons[t + "-" + color] != "" ==>
            icon == Some(icons[t + "-" + color]))
      && (t != "" && color != "green" && !(t + "-" + color in icons && icons[t + "-" + color] != "") ==>
            icon == (if "generic-" + color in icons then Some(icons["generic-" + color]) else None))
  {
    var color := Get(names, ActivityLevelOf(w), "green");
    var t := w.warningType.GetOr("");
    if t != "" && color != "green" then
      var key := t + "-" + color;
      if key in icons && icons[key] != "" then Some(icons[key])
      else if "generic-" + color in icons then Some(icons["generic-" + color])
      else None
    else None
  }

  /** The page an NVE native entry links to. */
  function VarsomUrl(w: Warning, avalanche: bool, lang: string): (url: Option<string>)
    ensures avalanche ==> url == Some(AvalanchePage(lang))
    ensures !avalanche && Truthy(UrlKey(w)) ==> url == Some(DeepLink(lang, UrlKey(w).value))
    ensures !avalanche && !Truthy(UrlKey(w)) ==> url == None
  {
    if avalanche then Some(AvalanchePage(lang))
    else if Truthy(UrlKey(w)) then Some(DeepLink(lang, UrlKey(w).value))
    else None
  }

  const MetWarningsPage := "https://www.met.no/vaer-og-klima/ekstremvaervarsler-og-andre-faremeldinger"

  /** `_add_metalert_attributes`. */
  function MetAttrsOf(m: MetFields): (a: MetAttrs)
    ensures m.area == "" ==> a.areas == []
    ensures m.area != "" ==> a.areas == Split(m.area, ", ")
    ensures |a.eventType| == |m.event|
    ensures forall i :: 0 <= i < |m.event| ==>
      a.eventType[i] == (if m.event[i] == ' ' then '_' else LowerChar(m.event[i]))
    ensures forall i :: 0 <= i < |a.eventType| ==> a.eventType[i] != ' '
    ensures a.resourceUrl == m.resourceUrl
    ensures Truthy(m.resourceUrl) ==> a.url == m.resourceUrl.value
    ensures !Truthy(m.resourceUrl) ==> a.url == MetWarningsPage
  {
    var eventType := if m.event != "" then ReplaceChar(Lower(m.event), ' ', '_') else "";
    var areas := if m.area != "" then Split(m.area, ", ") else [];
    MetAttrs(
      m.title, m.event, eventType, m.area, areas, m.description,
      m.awarenessLevel, m.awarenessNumeric, m.awarenessColor, m.awarenessName,
      m.starttime, m.endtime, m.resources, m.mapUrl, m.resourceUrl,
      if Truthy(m.resourceUrl) then m.resourceUrl.value else MetWarningsPage)
  }

  /** The `areas` list joins back to the `area` text it was split from. */
  lemma MetAreasJoin(m: MetFields)
    requires m.area != ""
    ensures Join(MetAttrsOf(m).areas, ", ") == m.area
  {
    JoinSplit(m.area, ", ");
  }

  /**
   * The native entry of a new key: the common keys, then the Met.no keys
   * for a Met.no alert, the avalanche keys when `avalanche` holds, the
   * generic NVE keys otherwise.
   */
  function NativeRecord(w: Warning, level: int, lang: string, names: map<string, string>,
                        icon: Option<string>, avalanche: bool): (e: AlertEntry)
    ensures e.NativeEntry? && e.base.level == level && e.base.id == ForecastId(w)
    ensures e.extra.MetExtra? <==> w.met.Some?
    ensures e.extra.AvalancheExtra? <==> w.met.None? && avalanche
    ensures !e.extra.MetExtra? ==>
      e.extra.nve.municipalities == MunicipalityNames(w) && e.extra.nve.url == VarsomUrl(w, avalanche, lang)
  {
    var base := NativeBase(ForecastId(w), level, Get(names, ActivityLevelOf(w), "unknown"),
                           w.dangerTypeName.GetOr(""), w.warningType.GetOr("unknown"), w.mainText, icon);
    var nve := NveCommon(w.masterId, MunicipalityNames(w), VarsomUrl(w, avalanche, lang));
    if w.met.Some? then NativeEntry(base, MetExtra(MetAttrsOf(w.met.value)))
    else if avalanche then
      var weather := if w.avalanche.Some? then w.avalanche.value else AvalancheFields(None, None, "", "", "", "");
      NativeEntry(base, AvalancheExtra(nve, RegionOf(w), weather.windSpeed, weather.windDirection,
                                       weather.temperature, weather.precipitation))
    else NativeEntry(base, NveExtra(nve, w.warningText, w.adviceText, w.consequenceText))
  }

  /** The entry `extra_state_attributes` builds for a warning, as written: its avalanche test is `== "avalanche"`. */
  function EntryAsWritten(w: Warning, cfg: SensorConfig, names: map<string, string>,
                          icons: map<string, string>): (r: Result<AlertEntry, string>)
    ensures r.Ok? <==> LevelValue(w).Some?
    ensures r.Ok? ==> Level(r.value) == LevelValue(w).value
    ensures r.Ok? ==> (r.value.CapEntry? <==> cfg.capFormat && w.met.None?)
    ensures r.Ok? && r.value.NativeEntry? && w.met.None? ==>
      (r.value.extra.AvalancheExtra? <==> w.warningType.GetOr("") == "avalanche")
  {
    var t := w.warningType.GetOr("");
    var icon := AlertIcon(w, names, icons);
    if cfg.capFormat && w.met.None? then
      match ConvertNveToCapAsWritten(w, t, cfg.lang, names, icon)
      case Err(e) => Err(e)
      case Ok(c) => Ok(CapEntry(c))
    else
      match LevelValue(w)
      case None => Err(LevelError(w))
      case Some(n) => Ok(NativeRecord(w, n, cfg.lang, names, icon, t == "avalanche"))
  }

  /**
   * The entry with the avalanche test accepting both tags, so the current
   * client's avalanche warnings get the avalanche keys and bulletin link.
   * Its `municipalities` are the alert's own names, and only a Met.no entry
   * lacks them.
   */
  function Entry(w: Warning, cfg: SensorConfig, names: map<string, string>,
                 icons: map<string, string>): (r: Result<AlertEntry, string>)
    ensures r.Ok? <==> LevelValue(w).Some?
    ensures r.Ok? ==> Level(r.value) == LevelValue(w).value
    ensures r.Ok? ==> (r.value.CapEntry? <==> cfg.capFormat && w.met.None?)
    ensures r.Ok? ==> (Municipalities(r.value).None? <==> w.met.Some?)
    ensures r.Ok? && Municipalities(r.value).Some? ==> Municipalities(r.value).value == MunicipalityNames(w)
    ensures r.Ok? && r.value.NativeEntry? && w.met.None? ==>
      (r.value.extra.AvalancheExtra? <==> IsAvalancheTag(w.warningType.GetOr("")))
  {
    var t := w.warningType.GetOr("");
    var icon := AlertIcon(w, names, icons);
    if cfg.capFormat && w.met.None? then
      match ConvertNveToCap(w, t, cfg.lang, names, icon)
      case Err(e) => Err(e)
      case Ok(c) =>
        CapAreaFields(w, t, cfg.lang, names, icon);
        Ok(CapEntry(c))
    else
      match LevelValue(w)
      case None => Err(LevelError(w))
      case Some(n) => Ok(NativeRecord(w, n, cfg.lang, names, icon, IsAvalancheTag(t)))
  }

  /**
   * A native-mode avalanche warning of the current client (tagged
   * "avalanches") gets the generic flood-and-landslide keys and a deep link
   * from the code as written, and the avalanche keys with the bulletin page
   * once the test accepts the tag.
   */
  lemma AvalancheEntryMismatch(w: Warning, cfg: SensorConfig, names: map<string, string>, icons: map<string, string>)
    requires w.warningType == Some("avalanches") && w.met.None? && !cfg.capFormat
    requires LevelValue(w).Some?
    ensures
      var asWritten := EntryAsWritten(w, cfg, names, icons).value;
      && asWritten.extra.NveExtra?
      && asWritten.extra.nve.url == VarsomUrl(w, false, cfg.lang)
      && asWritten.extra.nve.url != Some(AvalanchePage(cfg.lang))
    ensures
      var corrected := Entry(w, cfg, names, icons).value;
      && corrected.extra.AvalancheExtra?
      && corrected.extra.nve.url == Some(AvalanchePage(cfg.lang))
  {
    if Truthy(UrlKey(w)) {
      DeepLinkIsNotBulletin(cfg.lang, UrlKey(w).value);
    }
  }

  // ------------------------------------------------------------ attributes

  /** The alerts the merge loop sees: key, names and the entry a first occurrence would store. */
  function Candidates(active: seq<Warning>, cfg: SensorConfig, names: map<string, string>,
                      icons: map<string, string>): (cs: seq<Candidate>)
    requires forall i :: 0 <= i < |active| ==> LevelValue(active[i]).Some?
    ensures |cs| == |active|
    ensures forall i :: 0 <= i < |cs| ==> cs[i].key == UrlKey(active[i]) && cs[i].entry == Entry(active[i], cfg, names, icons).value
    ensures NamesConsistent(cs)
  {
    seq(|active|, i requires 0 <= i < |active| =>
      Candidate(UrlKey(active[i]), MunicipalityNames(active[i]), Entry(active[i], cfg, names, icons).value))
  }

  function KeyedEntries(es: seq<AlertEntry>): (ks: seq<Keyed<AlertEntry>>)
    ensures |ks| == |es|
    ensures forall i :: 0 <= i < |ks| ==> ks[i] == Keyed(SortKeyOf(es[i]), es[i])
  {
    seq(|es|, i requires 0 <= i < |es| => Keyed(SortKeyOf(es[i]), es[i]))
  }

  function Items(ks: seq<Keyed<AlertEntry>>): (es: seq<AlertEntry>)
    ensures |es| == |ks|
    ensures forall i :: 0 <= i < |es| ==> es[i] == ks[i].item
  {
    seq(|ks|, i requires 0 <= i < |ks| => ks[i].item)
  }

  const SortError := "TypeError: '<' not supported between instances of 'NoneType' and 'str'"

  /** The location keys: county ones (with the filter on the "My Area" sensor) or the coordinates. */
  datatype Location =
    | CountyLocation(countyName: string, countyId: string, municipalityFilter: Option<string>)
    | CoordinateLocation(latitude: Option<string>, longitude: Option<string>)

  function LocationOf(cfg: SensorConfig): Location {
    if cfg.countyId != "" then CountyLocation(cfg.countyName, cfg.countyId, if cfg.useFilter then Some(cfg.filter) else None)
    else CoordinateLocation(cfg.latitude, cfg.longitude)
  }

  /** The attributes the sensor publishes. */
  datatype Attributes = Attributes(
    activeAlerts: nat,
    highestLevel: string,
    highestLevelNumeric: int,
    alerts: seq<AlertEntry>,
    location: Location)

  /**
   * `extra_state_attributes`: the active alerts' highest level, their
   * entries merged per key and sorted highest first.  An unreadable level,
   * a merge into a Met.no entry and an unorderable pair of start times are
   * the errors.
   */
  function AttributesSpec(data: seq<Warning>, cfg: SensorConfig, names: map<string, string>,
                          icons: map<string, string>): Result<Attributes, string>
  {
    if data == [] then Ok(Attributes(0, "green", 1, [], LocationOf(cfg)))
    else
      var active := Active(DataToUse(data, cfg));
      match MaxLevel(active)
      case Err(e) => Err(e)
      case Ok(m) =>
        match Build(Candidates(active, cfg, names, icons))
        case Err(e) => Err(e)
        case Ok(t) =>
          var keyed := KeyedEntries(Values(t));
          if !Comparable(keyed) then Err(SortError)
          else Ok(Attributes(|t.keys|, Get(names, IntToString(m), "green"), m, Items(SortDesc(keyed)), LocationOf(cfg)))
  }

  /** The property as the sensor computes it: the filter loop, the merge loop, the in-place sort. */
  method ExtraStateAttributes(data: seq<Warning>, cfg: SensorConfig, names: map<string, string>,
                              icons: map<string, string>) returns (r: Result<Attributes, string>)
    ensures r == AttributesSpec(data, cfg, names, icons)
  {
    if data == [] {
      return Ok(Attributes(0, "green", 1, [], LocationOf(cfg)));
    }
    var used := data;
    if cfg.useFilter {
      used := FilterAlerts(data, cfg.filter);
    }
    var active := Active(used);
    var maxLevel := MaxLevel(active);
    if maxLevel.Err? {
      return Err(maxLevel.error);
    }
    var table := BuildTable(Candidates(active, cfg, names, icons));
    if table.Err? {
      return Err(table.error);
    }
    var keyed := KeyedEntries(Values(table.value));
    if !Comparable(keyed) {
      return Err(SortError);
    }
    var a := new Keyed<AlertEntry>[|keyed|](i requires 0 <= i < |keyed| => keyed[i]);
    assert a[..] == keyed;
    SortInPlace(a);
    r := Ok(Attributes(|table.value.keys|, Get(names, IntToString(maxLevel.value), "green"), maxLevel.value,
                       Items(a[..]), LocationOf(cfg)));
  }

  // ------------------------------------------------------------ properties

  /** A key-ordered entry list keeps the key of each entry with it. */
  predicate KeysMatch(ks: seq<Keyed<AlertEntry>>) {
    forall i :: 0 <= i < |ks| ==> ks[i].key == SortKeyOf(ks[i].item)
  }

  /** Sorting keeps every entry with its own key and orders them highest first. */
  lemma SortedEntries(keyed: seq<Keyed<AlertEntry>>)
    requires KeysMatch(keyed)
    ensures KeysMatch(SortDesc(keyed))
    ensures forall i, j :: 0 <= i < j < |SortDesc(keyed)| ==>
      !KeyLess(SortKeyOf(Items(SortDesc(keyed))[i]), SortKeyOf(Items(SortDesc(keyed))[j]))
    ensures multiset(Items(SortDesc(keyed))) == multiset(Items(keyed))
  {
    var sorted := SortDesc(keyed);
    SortDescPermutes(keyed);
    SortDescSorted(keyed);
    forall i | 0 <= i < |sorted| ensures sorted[i].key == SortKeyOf(sorted[i].item) {
      assert sorted[i] in multiset(keyed);
    }
    ItemsSort(keyed);
  }

  lemma {:induction false} ItemsInsert(x: Keyed<AlertEntry>, t: seq<Keyed<AlertEntry>>)
    ensures multiset(Items(InsertDesc(x, t))) == multiset(Items(t)) + multiset{x.item}
    decreases |t|
  {
    if t != [] {
      var init, last := t[..|t| - 1], t[|t| - 1];
      ItemsAppend(init, [last]);
      assert t == init + [last];
      if KeyLess(last.key, x.key) {
        ItemsInsert(x, init);
        ItemsAppend(InsertDesc(x, init), [last]);
      } else {
        ItemsAppend(t, [x]);
      }
    }
  }

  /** The sort moves entries around and loses or adds none. */
  lemma {:induction false} ItemsSort(s: seq<Keyed<AlertEntry>>)
    ensures multiset(Items(SortDesc(s))) == multiset(Items(s))
    decreases |s|
  {
    if s != [] {
      var init := s[..|s| - 1];
      ItemsSort(init);
      ItemsInsert(s[|s| - 1], SortDesc(init));
      ItemsAppend(init, [s[|s| - 1]]);
      assert s == init + [s[|s| - 1]];
    }
  }

  lemma ItemsAppend(a: seq<Keyed<AlertEntry>>, b: seq<Keyed<AlertEntry>>)
    ensures Items(a + b) == Items(a) + Items(b)
  {
  }

  /** The alerts of a successful `extra_state_attributes`, before merging. */
  function ActiveOf(data: seq<Warning>, cfg: SensorConfig): seq<Warning> {
    Active(DataToUse(data, cfg))
  }

  /** `active_alerts` counts the merged entries: no more than the state, which counts alerts before merging. */
  lemma AttributesCount(data: seq<Warning>, cfg: SensorConfig, names: map<string, string>, icons: map<string, string>)
    requires AttributesSpec(data, cfg, names, icons).Ok?
    ensures
      var a := AttributesSpec(data, cfg, names, icons).value;
      a.activeAlerts == |a.alerts| && a.activeAlerts <= NativeValue(data, cfg)
  {
    if data != [] {
      var active := ActiveOf(data, cfg);
      var cs := Candidates(active, cfg, names, icons);
      BuildClosedForm(cs);
      var t := Build(cs).value;
      SortDescPermutes(KeyedEntries(Values(t)));
    }
  }

  /** The published alerts are in descending order of (level, start time). */
  lemma AttributesOrder(data: seq<Warning>, cfg: SensorConfig, names: map<string, string>, icons: map<string, string>)
    requires AttributesSpec(data, cfg, names, icons).Ok?
    ensures
      var alerts := AttributesSpec(data, cfg, names, icons).value.alerts;
      forall i, j :: 0 <= i < j < |alerts| ==> !KeyLess(SortKeyOf(alerts[i]), SortKeyOf(alerts[j]))
  {
    if data != [] {
      var active := ActiveOf(data, cfg);
      var t := Build(Candidates(active, cfg, names, icons)).value;
      SortedEntries(KeyedEntries(Values(t)));
    }
  }

  /** The merged entry of each key, in order of first occurrence. */
  function MergedEntries(cs: seq<Candidate>): (es: seq<AlertEntry>)
    requires MergeSafe(cs)
    ensures |es| == |KeysOf(cs)|
    ensures forall i :: 0 <= i < |es| ==> es[i] == Merged(cs, KeysOf(cs)[i])
  {
    seq(|KeysOf(cs)|, i requires 0 <= i < |KeysOf(cs)| => Merged(cs, KeysOf(cs)[i]))
  }

  /** Merging and sorting publish each key's merged entry once. */
  lemma MergedAndSorted(cs: seq<Candidate>)
    requires NamesConsistent(cs) && Build(cs).Ok?
    ensures MergeSafe(cs)
    ensures multiset(Items(SortDesc(KeyedEntries(Values(Build(cs).value))))) == multiset(MergedEntries(cs))
  {
    BuildClosedForm(cs);
    var vs := Values(Build(cs).value);
    assert vs == MergedEntries(cs);
    var keyed := KeyedEntries(vs);
    assert Items(keyed) == vs;
    ItemsSort(keyed);
  }

  /** A merged entry keeps the level of the first alert under its key. */
  lemma MergedLevels(active: seq<Warning>, cfg: SensorConfig, names: map<string, string>, icons: map<string, string>, m: int)
    requires forall i :: 0 <= i < |active| ==> LevelValue(active[i]).Some? && LevelValue(active[i]).value <= m
    requires MergeSafe(Candidates(active, cfg, names, icons))
    ensures forall e :: e in MergedEntries(Candidates(active, cfg, names, icons)) ==> Level(e) <= m
  {
    var cs := Candidates(active, cfg, names, icons);
    forall i | 0 <= i < |cs| ensures Level(cs[i].entry) <= m {
      assert Level(cs[i].entry) == LevelValue(active[i]).value;
    }
    MergedBelow(cs, m);
  }

  /** A bound on the level of every candidate bounds every merged entry. */
  lemma MergedBelow(cs: seq<Candidate>, m: int)
    requires MergeSafe(cs) && forall i :: 0 <= i < |cs| ==> Level(cs[i].entry) <= m
    ensures forall e :: e in MergedEntries(cs) ==> Level(e) <= m
  {
    forall e | e in MergedEntries(cs) ensures Level(e) <= m {
      var j :| 0 <= j < |KeysOf(cs)| && MergedEntries(cs)[j] == e;
      var f := FirstIndex(cs, KeysOf(cs)[j]);
      assert Level(e) == Level(cs[f].entry);
    }
  }

  /**
   * Every published alert is the merged entry of one key (its first
   * alert's entry, with the names of all alerts under the key), each key's
   * entry is published once, and no entry's level exceeds
   * `highest_level_numeric`.
   */
  lemma AttributesEntries(data: seq<Warning>, cfg: SensorConfig, names: map<string, string>, icons: map<string, string>)
    requires data != [] && AttributesSpec(data, cfg, names, icons).Ok?
    ensures forall i :: 0 <= i < |ActiveOf(data, cfg)| ==> LevelValue(ActiveOf(data, cfg)[i]).Some?
    ensures MergeSafe(Candidates(ActiveOf(data, cfg), cfg, names, icons))
    ensures
      var a := AttributesSpec(data, cfg, names, icons).value;
      && multiset(a.alerts) == multiset(MergedEntries(Candidates(ActiveOf(data, cfg), cfg, names, icons)))
      && forall i :: 0 <= i < |a.alerts| ==> Level(a.alerts[i]) <= a.highestLevelNumeric
  {
    var active := ActiveOf(data, cfg);
    var m := MaxLevel(active).value;
    var cs := Candidates(active, cfg, names, icons);
    MergedAndSorted(cs);
    MergedLevels(active, cfg, names, icons, m);
    var a := AttributesSpec(data, cfg, names, icons).value;
    forall i | 0 <= i < |a.alerts| ensures Level(a.alerts[i]) <= m {
      assert a.alerts[i] in multiset(MergedEntries(cs));
    }
  }

  // ------------------------------------------------------------ entity picture

  /** The first non-empty `_warning_type` among the coordinator's alerts. */
  function FirstType(data: seq<Warning>): (t: Option<string>)
    ensures t.Some? ==> t.value != "" && exists i :: 0 <= i < |data| && data[i].warningType == t
    ensures t.None? <==> forall i :: 0 <= i < |data| ==> data[i].warningType.GetOr("") == ""
  {
    if data == [] then None
    else if data[0].warningType.GetOr("") != "" then data[0].warningType
    else
      var t := FirstType(data[1..]);
      assert forall i :: 0 <= i < |data[1..]| ==> data[1..][i] == data[i + 1];
      assert t.Some? ==> data[1..] != [];
      t
  }

  /** The search loop of `entity_picture`, which stops at the first typed alert. */
  method FindWarningType(data: seq<Warning>) returns (t: Option<string>)
    ensures t == FirstType(data)
  {
    t := None;
    var i := 0;
    while i < |data|
      invariant 0 <= i <= |data|
      invariant FirstType(data) == FirstType(data[i..])
      invariant t == None
    {
      if data[i].warningType.GetOr("") != "" {
        t := data[i].warningType;
        assert data[i..][0] == data[i];
        return;
      }
      assert data[i..][1..] == data[i + 1..];
      i := i + 1;
    }
  }

  /** The icon for a colour and a type: none for no colour, green or no type; else the type's icon, else the generic one. */
  function Picture(color: Option<string>, t: Option<string>, icons: map<string, string>): (icon: Option<string>)
    ensures color.None? || color == Some("") || color == Some("green") || t.None? ==> icon == None
    ensures color.Some? && color.value != "" && color.value != "green" && t.Some? ==>
      var key := t.value + "-" + color.value;
      var generic := "generic-" + color.value;
      && (key in icons && icons[key] != "" ==> icon == Some(icons[key]))
      && (!(key in icons && icons[key] != "") ==>
            icon == (if generic in icons then Some(icons[generic]) else None))
    ensures icon.Some? ==> icon.value in icons.Values
  {
    if color.None? || color.value == "" || color.value == "green" || t.None? then None
    else
      var key := t.value + "-" + color.value;
      if key in icons && icons[key] != "" then Some(icons[key])
      else if "generic-" + color.value in icons then Some(icons["generic-" + color.value])
      else None
  }

  /**
   * `ACTIVITY_LEVEL_NAMES.get(state)` with the integer state `native_value`
   * now returns: the table is keyed by level texts ("1" to "5"), as every
   * other lookup in the sensor uses it, and no text key equals an int.
   */
  function LevelNameOfCount(names: map<string, string>, count: nat): Option<string> {
    None
  }

  /** `entity_picture` as written: the colour lookup uses the alert count, so the sensor never has a picture. */
  function EntityPictureAsWritten(data: seq<Warning>, cfg: SensorConfig, names: map<string, string>,
                                  icons: map<string, string>): (icon: Option<string>)
    ensures icon == None
  {
    var color := LevelNameOfCount(names, NativeValue(data, cfg));
    Picture(color, FirstType(data), icons)
  }

  /** The state the picture was written for: the highest active level as text, "1" when nothing is active. */
  function HighestLevelText(data: seq<Warning>, cfg: SensorConfig): Result<string, string> {
    if data == [] then Ok("1")
    else
      match MaxLevel(ActiveOf(data, cfg))
      case Err(e) => Err(e)
      case Ok(m) =>
        Ok(if ActiveOf(data, cfg) == [] then "1" else IntToString(m))
  }

  /** `entity_picture` keyed on the highest active level, as in the legacy sensor. */
  function EntityPicture(data: seq<Warning>, cfg: SensorConfig, names: map<string, string>,
                         icons: map<string, string>): (r: Result<Option<string>, string>)
    ensures r.Ok? <==> HighestLevelText(data, cfg).Ok?
    ensures r.Ok? && r.value.Some? ==>
      var level := HighestLevelText(data, cfg).value;
      level in names && names[level] != "green" && FirstType(data).Some?
    ensures r.Ok? ==>
      var level := HighestLevelText(data, cfg).value;
      r.value == Picture(if level in names then Some(names[level]) else None, FirstType(data), icons)
  {
    match HighestLevelText(data, cfg)
    case Err(e) => Err(e)
    case Ok(level) =>
      Ok(Picture(if level in names then Some(names[level]) else None, FirstType(data), icons))
  }

  /**
   * With an active alert of a typed warning whose level has a colour and an
   * icon, the sensor as written still shows no picture; keyed on the level
   * it shows that icon.
   */
  lemma EntityPictureMissing(data: seq<Warning>, cfg: SensorConfig, names: map<string, string>, icons: map<string, string>)
    requires data != [] && ActiveOf(data, cfg) != [] && MaxLevel(ActiveOf(data, cfg)).Ok?
    requires FirstType(data).Some?
    requires
      var color := Get(names, IntToString(MaxLevel(ActiveOf(data, cfg)).value), "green");
      var key := FirstType(data).value + "-" + color;
      && IntToString(MaxLevel(ActiveOf(data, cfg)).value) in names
      && color != "" && color != "green" && key in icons && icons[key] != ""
    ensures EntityPictureAsWritten(data, cfg, names, icons) == None
    ensures EntityPicture(data, cfg, names, icons).Ok?
    ensures
      var color := Get(names, IntToString(MaxLevel(ActiveOf(data, cfg)).value), "green");
      EntityPicture(data, cfg, names, icons).value == Some(icons[FirstType(data).value + "-" + color])
  {
  }
}
