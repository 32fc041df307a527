/**
 * `convert_nve_to_cap`: the projection of an NVE warning onto the Common
 * Alerting Protocol shape that Met.no alerts already have, so one card can
 * show both.  `ACTIVITY_LEVEL_NAMES` is a parameter (`names`), and so is the
 * icon the sensor writes into the record before converting it (`picture`).
 */
module Cap {
  import opened Common
  import opened Text
  import opened Records
  import MetAlerts

  // ------------------------------------------------------------------ tables

  /** `severity_map.get(level, "Unknown")` */
  function Severity(level: string): (s: string)
    ensures level == "1" ==> s == "Minor"
    ensures level == "2" ==> s == "Moderate"
    ensures level == "3" ==> s == "Severe"
    ensures level in {"4", "5"} ==> s == "Extreme"
    ensures level !in {"1", "2", "3", "4", "5"} ==> s == "Unknown"
  {
    if level == "1" then "Minor"
    else if level == "2" then "Moderate"
    else if level == "3" then "Severe"
    else if level == "4" || level == "5" then "Extreme"
    else "Unknown"
  }

  /** `awareness_map.get(level, "Unknown")` */
  function AwarenessName(level: string): (s: string)
    ensures level == "1" ==> s == "Low"
    ensures level == "2" ==> s == "Moderate"
    ensures level == "3" ==> s == "Severe"
    ensures level in {"4", "5"} ==> s == "Extreme"
    ensures level !in {"1", "2", "3", "4", "5"} ==> s == "Unknown"
  {
    if level == "1" then "Low"
    else if level == "2" then "Moderate"
    else if level == "3" then "Severe"
    else if level == "4" || level == "5" then "Extreme"
    else "Unknown"
  }

  /** The two tables differ only at the green level, where CAP says "Minor" and the awareness scale "Low". */
  lemma SeverityMatchesAwareness(level: string)
    ensures Severity(level) == AwarenessName(level) <==> level != "1"
  {
  }

  /** `event_map.get(warning_type, warning_type.title())` */
  function EventName(warningType: string): (e: string)
    ensures warningType == "landslide" ==> e == "Landslide"
    ensures warningType == "flood" ==> e == "Flood"
    ensures warningType == "avalanche" ==> e == "Avalanche"
    ensures warningType !in {"landslide", "flood", "avalanche"} ==> e == Title(warningType)
  {
    if warningType == "landslide" then "Landslide"
    else if warningType == "flood" then "Flood"
    else if warningType == "avalanche" then "Avalanche"
    else Title(warningType)
  }

  // -------------------------------------------------------------------- links

  const VarsomHome := "https://www.varsom.no"

  /** The avalanche bulletin page for the language. */
  function AvalanchePage(lang: string): string {
    if lang == "en" then "https://www.varsom.no/en/avalanche-bulletins"
    else "https://www.varsom.no/snoskredvarsling"
  }

  /** The flood-and-landslide forecast page a deep link extends. */
  function DeepLinkPrefix(lang: string): string {
    if lang == "en" then "https://www.varsom.no/en/flood-and-landslide-warning-service/forecastid/"
    else "https://www.varsom.no/flom-og-jordskred/varsling/varselid/"
  }

  /** The forecast page of one warning. */
  function DeepLink(lang: string, key: string): (url: string)
    ensures |url| == |DeepLinkPrefix(lang)| + |key|
    ensures url[..|DeepLinkPrefix(lang)|] == DeepLinkPrefix(lang)
    ensures url[|DeepLinkPrefix(lang)|..] == key
  {
    DeepLinkPrefix(lang) + key
  }

  /** Different warnings get different deep links: the key can be read back from the link. */
  lemma DeepLinkInjective(lang: string, k1: string, k2: string)
    requires DeepLink(lang, k1) == DeepLink(lang, k2)
    ensures k1 == k2
  {
    assert k1 == DeepLink(lang, k1)[|DeepLinkPrefix(lang)|..];
  }

  /**
   * The CAP record's `url`: the bulletin page when the record is treated as
   * an avalanche warning, otherwise the deep link on `MasterId`, else `Id`,
   * falling back to the site's front page when both are empty.
   */
  function CapUrl(w: Warning, avalanche: bool, lang: string): (url: string)
    ensures avalanche ==> url == AvalanchePage(lang)
    ensures !avalanche && Truthy(UrlKey(w)) ==> url == DeepLink(lang, UrlKey(w).value)
    ensures !avalanche && !Truthy(UrlKey(w)) ==> url == VarsomHome
  {
    if avalanche then AvalanchePage(lang)
    else if Truthy(UrlKey(w)) then DeepLink(lang, UrlKey(w).value)
    else VarsomHome
  }

  /** Every CAP record links somewhere: the URL is never empty. */
  lemma CapUrlNonEmpty(w: Warning, avalanche: bool, lang: string)
    ensures CapUrl(w, avalanche, lang) != ""
  {
    if !avalanche && Truthy(UrlKey(w)) {
      assert |CapUrl(w, avalanche, lang)| >= |DeepLinkPrefix(lang)| > 0;
    }
  }

  // ------------------------------------------------------------------ record

  /** The avalanche extension keys (`region_id`, `region_name`). */
  datatype RegionExtras = RegionExtras(regionId: Option<int>, regionName: Option<string>)

  /** `alert.get("_region_id", ...)` and `alert.get("_region_name", ...)`: set on records of the avalanche client, absent otherwise. */
  function RegionOf(w: Warning): RegionExtras {
    if w.avalanche.Some? then RegionExtras(w.avalanche.value.regionId, w.avalanche.value.regionName)
    else RegionExtras(None, None)
  }

  /** The CAP-shaped record, restricted to the keys the sensor and its card read. */
  datatype CapAlert = CapAlert(
    id: Option<string>,
    title: string,
    starttime: Option<string>,
    endtime: Option<string>,
    event: string,
    eventType: string,
    eventAwarenessName: string,
    dangerType: string,
    area: string,
    areas: seq<string>,
    municipalities: seq<string>,
    description: string,
    instruction: string,
    consequences: string,
    mainText: string,
    level: int,
    levelName: string,
    awarenessLevel: string,
    awarenessNumeric: string,
    awarenessColor: string,
    awarenessName: string,
    awarenessType: string,
    severity: string,
    certainty: string,
    url: string,
    resourceUrl: string,
    web: string,
    resources: seq<Resource>,
    contact: string,
    county: seq<string>,
    geographicDomain: string,
    riskMatrixColor: string,
    masterId: string,
    warningType: string,
    entityPicture: Option<string>,
    region: Option<RegionExtras>)

  /** `[MunicipalityList[0].CountyName]` when there are municipalities, else []. */
  function FirstCounty(w: Warning): (r: seq<string>)
    ensures |r| <= 1
    ensures |r| == 1 <==> |w.municipalities| > 0
    ensures |r| == 1 ==> r[0] == w.municipalities[0].countyName
  {
    if |w.municipalities| > 0 then [w.municipalities[0].countyName] else []
  }

  /**
   * The conversion, with the avalanche test already decided: `avalanche`
   * selects the bulletin URL and adds the region keys.  `int(ActivityLevel)`
   * raising is the error case.
   */
  function CapRecord(w: Warning, warningType: string, lang: string, names: map<string, string>,
                     picture: Option<string>, avalanche: bool): (r: Result<CapAlert, string>)
    ensures r.Ok? <==> ParseInt(ActivityLevelOf(w)).Some?
    ensures r.Ok? ==> r.value.level == ParseInt(ActivityLevelOf(w)).value
    ensures r.Ok? ==> r.value.url == CapUrl(w, avalanche, lang)
    ensures r.Ok? ==> r.value.region.Some? == avalanche
  {
    var level := ActivityLevelOf(w);
    match ParseInt(level)
    case None => Err("ValueError: invalid literal for int(): " + level)
    case Some(n) =>
      var color := Get(names, level, "green");
      var munis := MunicipalityNames(w);
      var event := EventName(warningType);
      var url := CapUrl(w, avalanche, lang);
      var extras := if avalanche then Some(RegionOf(w)) else None;
      Ok(CapAlert(
        ForecastId(w), w.mainText, w.validFrom, w.validTo,
        event, warningType, color + "; " + Lower(event), w.dangerTypeName.GetOr(event),
        Join(munis, ", "), munis, munis,
        w.warningText, w.adviceText, w.consequenceText, w.mainText,
        n, color, level + "; " + color + "; " + AwarenessName(level),
        level, color, AwarenessName(level), level + "; " + warningType,
        Severity(level), "Likely",
        url, url, VarsomHome, [Resource(UriText(url), Some("text/html"))],
        "Norwegian Water Resources and Energy Directorate", FirstCounty(w), "land", color,
        w.masterId, warningType, picture, extras))
  }

  /** `convert_nve_to_cap` as written: a record counts as an avalanche warning only when its type is exactly "avalanche". */
  function ConvertNveToCapAsWritten(w: Warning, warningType: string, lang: string,
                                    names: map<string, string>, picture: Option<string>): (r: Result<CapAlert, string>)
    ensures r.Ok? <==> ParseInt(ActivityLevelOf(w)).Some?
    ensures r.Ok? && warningType == "avalanche" ==> r.value.url == AvalanchePage(lang)
    ensures r.Ok? && warningType != "avalanche" && Truthy(UrlKey(w)) ==> r.value.url == DeepLink(lang, UrlKey(w).value)
    ensures r.Ok? ==> r.value.region.Some? == (warningType == "avalanche")
  {
    CapRecord(w, warningType, lang, names, picture, warningType == "avalanche")
  }

  /** The avalanche type as either client tags it: "avalanche" (legacy) or "avalanches" (current). */
  predicate IsAvalancheTag(warningType: string) {
    warningType == "avalanche" || warningType == "avalanches"
  }

  /**
   * `convert_nve_to_cap` with the avalanche test accepting both tags, so the
   * current client's "avalanches" records get the bulletin page the branch
   * was written for.
   */
  function ConvertNveToCap(w: Warning, warningType: string, lang: string,
                           names: map<string, string>, picture: Option<string>): (r: Result<CapAlert, string>)
    ensures r.Ok? <==> ParseInt(ActivityLevelOf(w)).Some?
    ensures r.Ok? ==> r.value.level == ParseInt(ActivityLevelOf(w)).value
    ensures r.Ok? && IsAvalancheTag(warningType) ==> r.value.url == AvalanchePage(lang) && r.value.region.Some?
    ensures r.Ok? && !IsAvalancheTag(warningType) && Truthy(UrlKey(w)) ==>
      r.value.url == DeepLink(lang, UrlKey(w).value)
    ensures r.Ok? && !IsAvalancheTag(warningType) && !Truthy(UrlKey(w)) ==> r.value.url == VarsomHome
  {
    CapRecord(w, warningType, lang, names, picture, IsAvalancheTag(warningType))
  }

  // ------------------------------------------------------------------ lemmas

  /**
   * The level fields: `level` is the integer of `ActivityLevel`, the
   * severity and awareness name come from the fixed tables, the colour from
   * the names map (green when missing), and `awareness_level` is the three
   * parts joined by "; ".
   */
  lemma CapLevelFields(w: Warning, warningType: string, lang: string, names: map<string, string>, picture: Option<string>)
    requires ConvertNveToCap(w, warningType, lang, names, picture).Ok?
    ensures
      var c := ConvertNveToCap(w, warningType, lang, names, picture).value;
      var level := ActivityLevelOf(w);
      && c.awarenessNumeric == level
      && c.severity == Severity(level)
      && c.awarenessName == AwarenessName(level)
      && c.levelName == c.awarenessColor == c.riskMatrixColor == Get(names, level, "green")
      && c.awarenessLevel == c.awarenessNumeric + "; " + c.awarenessColor + "; " + c.awarenessName
  {
  }

  /** The area fields: the municipality names in order, joined by ", " for `area`; the county of the first one. */
  lemma CapAreaFields(w: Warning, warningType: string, lang: string, names: map<string, string>, picture: Option<string>)
    requires ConvertNveToCap(w, warningType, lang, names, picture).Ok?
    ensures
      var c := ConvertNveToCap(w, warningType, lang, names, picture).value;
      && |c.areas| == |w.municipalities|
      && (forall i :: 0 <= i < |c.areas| ==> c.areas[i] == w.municipalities[i].name)
      && c.municipalities == c.areas
      && c.area == Join(c.areas, ", ")
      && (w.municipalities == [] ==> c.area == "" && c.county == [])
      && (w.municipalities != [] ==> c.county == [w.municipalities[0].countyName])
  {
  }

  /** `resources` is exactly the one HTML link to `url`, which is also `resource_url`. */
  lemma CapResources(w: Warning, warningType: string, lang: string, names: map<string, string>, picture: Option<string>)
    requires ConvertNveToCap(w, warningType, lang, names, picture).Ok?
    ensures
      var c := ConvertNveToCap(w, warningType, lang, names, picture).value;
      && c.url != ""
      && c.resources == [Resource(UriText(c.url), Some("text/html"))]
      && c.resourceUrl == c.url
      && MetAlerts.ResourceUrl(c.resources) == Some(c.url)
  {
    CapUrlNonEmpty(w, IsAvalancheTag(warningType), lang);
  }

  /**
   * A CAP record made from an NVE warning has the same `awareness_level`
   * layout as a Met.no alert: the Met.no parser reads it back into its
   * level, colour and name.
   */
  lemma CapAwarenessParses(w: Warning, warningType: string, lang: string, names: map<string, string>, picture: Option<string>)
    requires ConvertNveToCap(w, warningType, lang, names, picture).Ok?
    requires !Contains(ActivityLevelOf(w), "; ")
    requires !Contains(Get(names, ActivityLevelOf(w), "green"), "; ")
    ensures
      var c := ConvertNveToCap(w, warningType, lang, names, picture).value;
      MetAlerts.ParseAwareness(c.awarenessLevel) == MetAlerts.Awareness(c.awarenessNumeric, c.awarenessColor, c.awarenessName)
  {
    var level := ActivityLevelOf(w);
    AwarenessNameHasNoSeparator(level);
    CapLevelFields(w, warningType, lang, names, picture);
    MetAlerts.ParseAwarenessOfParts(level, Get(names, level, "green"), AwarenessName(level));
  }

  lemma AwarenessNameHasNoSeparator(level: string)
    ensures !Contains(AwarenessName(level), "; ")
  {
    AbsentFirstChar(AwarenessName(level), "; ");
  }

  /** The conversion fails exactly when `ActivityLevel` is no integer, whatever the type and language. */
  lemma CapFailsOnlyOnLevel(w: Warning, t1: string, t2: string, lang1: string, lang2: string,
                            names: map<string, string>, picture: Option<string>)
    ensures ConvertNveToCap(w, t1, lang1, names, picture).Ok? == ConvertNveToCap(w, t2, lang2, names, picture).Ok?
  {
  }

  /** A forecast deep link is never the bulletin page: it is longer. */
  lemma DeepLinkIsNotBulletin(lang: string, key: string)
    ensures DeepLink(lang, key) != AvalanchePage(lang)
  {
    assert |AvalanchePage(lang)| < |DeepLinkPrefix(lang)|;
  }

  /**
   * The current avalanche client tags its records "avalanches", so as
   * written the avalanche branch never fires for them: they link to a
   * flood-and-landslide forecast page on the region id instead of the
   * bulletin page, and lose their region keys.  The corrected conversion
   * gives the bulletin page and the region.
   */
  lemma AvalancheTagMismatch(w: Warning, lang: string, names: map<string, string>, picture: Option<string>)
    requires ParseInt(ActivityLevelOf(w)).Some? && Truthy(UrlKey(w))
    ensures
      var asWritten := ConvertNveToCapAsWritten(w, "avalanches", lang, names, picture);
      && asWritten.Ok?
      && asWritten.value.url == DeepLink(lang, UrlKey(w).value)
      && asWritten.value.url != AvalanchePage(lang)
      && asWritten.value.region.None?
    ensures
      var corrected := ConvertNveToCap(w, "avalanches", lang, names, picture);
      && corrected.Ok?
      && corrected.value.url == AvalanchePage(lang)
      && corrected.value.region.Some?
  {
    DeepLinkIsNotBulletin(lang, UrlKey(w).value);
  }
}
