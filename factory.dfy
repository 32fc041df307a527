/**
 * `WarningAPIFactory`: which client a warning type selects, with what
 * configuration, in both generations of the integration.  A client is its
 * configuration; what it fetches is modelled in `CountyApi`, `Avalanche` and
 * `MetAlerts`.
 */
module Factory {
  import opened Common
  import opened MetAlerts

  /** The NVE clients, which share the county-based constructor. */
  datatype NveKind = LandslideKind | FloodKind | AvalancheKind

  /** A constructed client. */
  datatype ApiClient =
    | NveClient(kind: NveKind, countyId: string, countyName: string, lang: string)
    | MetAlertsClient(met: MetClient)

  /** The client's `warning_type` attribute (its `_get_warning_type()`). */
  function ClientType(c: ApiClient): string {
    match c
    case NveClient(LandslideKind, _, _, _) => "landslide"
    case NveClient(FloodKind, _, _, _) => "flood"
    case NveClient(AvalancheKind, _, _, _) => "avalanche"
    case MetAlertsClient(_) => "metalerts"
  }

  /** The client's `lang` attribute. */
  function ClientLang(c: ApiClient): string {
    match c
    case NveClient(_, _, _, lang) => lang
    case MetAlertsClient(m) => m.lang
  }

  /** The NVE kind a type name selects, if it names one. */
  function NveKindOf(t: string): (k: Option<NveKind>)
    ensures k.Some? <==> t in {"landslide", "flood", "avalanche"}
    ensures k.Some? ==> ClientType(NveClient(k.value, "", "", "")) == t
  {
    if t == "landslide" then Some(LandslideKind)
    else if t == "flood" then Some(FloodKind)
    else if t == "avalanche" then Some(AvalancheKind)
    else None
  }

  function UnknownTypeError(t: string): string {
    "Unknown warning type: " + t
  }

  /** The configuration a current-generation factory is created with. */
  datatype FactoryConfig = FactoryConfig(
    countyId: string,
    countyName: string,
    latitude: Option<string>,
    longitude: Option<string>,
    lang: string,
    testMode: bool)

  /**
   * `WarningAPIFactory.get_api`: an NVE client on the county, or a Met.no
   * client by coordinates when both are set, else by county, else a
   * ValueError; any other type name is a ValueError.
   */
  function GetApi(cfg: FactoryConfig, t: string): (r: Result<ApiClient, string>)
    ensures r.Ok? <==>
      t in {"landslide", "flood", "avalanche"}
      || (t == "metalerts" && ((cfg.latitude.Some? && cfg.longitude.Some?) || cfg.countyId != ""))
    ensures r.Ok? ==> ClientType(r.value) == t && ClientLang(r.value) == cfg.lang
    ensures r.Ok? && r.value.NveClient? ==>
      r.value.countyId == cfg.countyId && r.value.countyName == cfg.countyName
    ensures r.Err? && t != "metalerts" ==> r.error == UnknownTypeError(t)
    ensures r.Err? && t == "metalerts" ==> r.error == NoLocationError
  {
    match NveKindOf(t)
    case Some(k) => Ok(NveClient(k, cfg.countyId, cfg.countyName, cfg.lang))
    case None =>
      if t == "metalerts" then
        if cfg.latitude.Some? && cfg.longitude.Some? then
          Ok(MetAlertsClient(MetClient(cfg.latitude, cfg.longitude, "", "", cfg.lang, cfg.testMode)))
        else if cfg.countyId != "" then
          Ok(MetAlertsClient(MetClient(None, None, cfg.countyId, cfg.countyName, cfg.lang, cfg.testMode)))
        else Err(NoLocationError)
      else Err(UnknownTypeError(t))
  }

  /**
   * A Met.no client the factory hands out can always build its request URL,
   * in the factory's language, by coordinates whenever both are configured.
   */
  lemma GetApiMetEndpoint(cfg: FactoryConfig, base: string)
    requires GetApi(cfg, "metalerts").Ok?
    ensures
      var c := GetApi(cfg, "metalerts").value.met;
      var url := Endpoint(c, base);
      && url.Ok?
      && (!cfg.testMode && cfg.latitude.Some? && cfg.longitude.Some? ==>
            url.value == base + "/current.json?lat=" + cfg.latitude.value + "&lon=" + cfg.longitude.value
                         + "&lang=" + cfg.lang)
      && (!cfg.testMode && !(cfg.latitude.Some? && cfg.longitude.Some?) ==>
            url.value == base + "/current.json?county=" + cfg.countyId + "&lang=" + cfg.lang)
  {
  }

  // ----------------------------------------------------------- create_api

  /**
   * The static `create_api` as written: the Met.no client is built with
   * positional arguments `(latitude, longitude, lang)`, so the language
   * lands in the `county_id` parameter and the client keeps its default
   * language "en".
   */
  function CreateApiAsWritten(t: string, countyId: string, countyName: string,
                              latitude: Option<string>, longitude: Option<string>,
                              lang: string): (r: Result<ApiClient, string>)
    ensures r.Ok? <==> t in {"landslide", "flood", "avalanche"} || (t == "metalerts" && latitude.Some? && longitude.Some?)
    ensures r.Ok? ==> ClientType(r.value) == t
    ensures r.Ok? && t == "metalerts" ==> r.value.met.lang == "en" && r.value.met.countyId == lang
  {
    match NveKindOf(t)
    case Some(k) => Ok(NveClient(k, countyId, countyName, lang))
    case None =>
      if t == "metalerts" then
        if latitude.None? || longitude.None? then Err(MissingCoordinatesError)
        else Ok(MetAlertsClient(MetClient(latitude, longitude, lang, "", "en", false)))
      else Err(UnknownTypeError(t))
  }

  const MissingCoordinatesError := "Latitude and longitude are required for metalerts"

  /** A Norwegian-language request through `create_api` yields a client that asks Met.no for English. */
  lemma CreateApiDropsLanguage(base: string)
    ensures
      var r := CreateApiAsWritten("metalerts", "", "", Some("59.91"), Some("10.75"), "no");
      && r.Ok?
      && ClientLang(r.value) == "en"
      && Endpoint(r.value.met, base).Ok?
      && EndsWith(Endpoint(r.value.met, base).value, "&lang=en")
  {
    var r := CreateApiAsWritten("metalerts", "", "", Some("59.91"), Some("10.75"), "no");
    assert r.value.met.lang == "en";
  }

  predicate EndsWith(s: string, suffix: string) {
    |s| >= |suffix| && s[|s| - |suffix|..] == suffix
  }

  /**
   * `create_api` with the language passed by keyword, as `get_api` does:
   * the same choices and errors, and every client it returns speaks the
   * requested language.
   */
  function CreateApi(t: string, countyId: string, countyName: string,
                     latitude: Option<string>, longitude: Option<string>,
                     lang: string): (r: Result<ApiClient, string>)
    ensures r.Ok? <==> t in {"landslide", "flood", "avalanche"} || (t == "metalerts" && latitude.Some? && longitude.Some?)
    ensures r.Ok? ==> ClientType(r.value) == t && ClientLang(r.value) == lang
    ensures r.Err? && t == "metalerts" ==> r.error == MissingCoordinatesError
    ensures r.Err? && t != "metalerts" ==> r.error == UnknownTypeError(t)
  {
    match NveKindOf(t)
    case Some(k) => Ok(NveClient(k, countyId, countyName, lang))
    case None =>
      if t == "metalerts" then
        if latitude.None? || longitude.None? then Err(MissingCoordinatesError)
        else Ok(MetAlertsClient(MetClient(latitude, longitude, "", "", lang, false)))
      else Err(UnknownTypeError(t))
  }

  /**
   * The corrected `create_api` agrees with `get_api` on a factory with the
   * same coordinates and no county, and differs from the code as written
   * only in the Met.no client.
   */
  lemma CreateApiMatchesGetApi(t: string, countyName: string, latitude: Option<string>,
                               longitude: Option<string>, lang: string)
    requires t != "metalerts" || (latitude.Some? && longitude.Some?)
    ensures CreateApi(t, "", countyName, latitude, longitude, lang)
         == GetApi(FactoryConfig("", countyName, latitude, longitude, lang, false), t)
  {
  }

  lemma CreateApiAsWrittenDiffersOnlyForMet(t: string, countyId: string, countyName: string,
                                            latitude: Option<string>, longitude: Option<string>,
                                            lang: string)
    requires t != "metalerts"
    ensures CreateApiAsWritten(t, countyId, countyName, latitude, longitude, lang)
         == CreateApi(t, countyId, countyName, latitude, longitude, lang)
  {
  }

  // ---------------------------------------------------------- legacy factory

  /** The legacy `get_api` / `create_api`: the three NVE clients, anything else a ValueError. */
  function LegacyGetApi(countyId: string, countyName: string, lang: string, t: string): (r: Result<ApiClient, string>)
    ensures r.Ok? <==> t in {"landslide", "flood", "avalanche"}
    ensures r.Ok? ==> r.value.NveClient? && ClientType(r.value) == t
    ensures r.Ok? ==> r.value.countyId == countyId && r.value.countyName == countyName && r.value.lang == lang
    ensures r.Err? ==> r.error == UnknownTypeError(t)
  {
    match NveKindOf(t)
    case Some(k) => Ok(NveClient(k, countyId, countyName, lang))
    case None => Err(UnknownTypeError(t))
  }

  /** The current factory extends the legacy one: on NVE types both build the same client. */
  lemma GetApiExtendsLegacy(cfg: FactoryConfig, t: string)
    requires t != "metalerts"
    ensures GetApi(cfg, t) == LegacyGetApi(cfg.countyId, cfg.countyName, cfg.lang, t)
  {
  }
}
