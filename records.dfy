/**
 * The warning records the coordinators pass to the sensors (the dicts of the
 * Python code), restricted to the keys the modelled logic reads.  JSON scalars
 * are kept as the text `str()` gives them; where the code tests or keys on the
 * raw value (`MasterId` and `Id` in `UrlKey`), an integer and its text are
 * therefore not told apart.
 */
module Records {
  import opened Common
  import opened Text

  /** A `MunicipalityList` entry: `Name` (or ""), `str(CountyId)` ("None" when absent), `CountyName` (or ""). */
  datatype Municipality = Municipality(name: string, countyId: string, countyName: string)

  /** A `CountyList` entry: `str(Id)` ("None" when absent) and `Name` (or ""). */
  datatype County = County(id: string, name: string)

  /** A resource's `uri`: absent, JSON null, or a text. */
  datatype Uri = UriAbsent | UriNull | UriText(text: string)

  /** A CAP resource: its `uri` and its `mimeType` (None when absent or null). */
  datatype Resource = Resource(uri: Uri, mimeType: Option<string>)

  /** `resource.get("uri")`: None for an absent or null `uri`. */
  function UriGet(u: Uri): (r: Option<string>)
    ensures r.Some? <==> u.UriText?
    ensures u.UriText? ==> r == Some(u.text)
  {
    match u
    case UriText(t) => Some(t)
    case _ => None
  }

  /** The `Id` key of a record: absent, JSON null, or a value whose `str()` is the text. */
  datatype JsonId = IdAbsent | IdNull | IdText(text: string)

  /** The keys a Met.no feature conversion adds next to the common ones. */
  datatype MetFields = MetFields(
    title: string,
    starttime: Option<string>,
    endtime: Option<string>,
    event: string,
    area: string,
    description: string,
    awarenessLevel: string,
    awarenessNumeric: string,
    awarenessColor: string,
    awarenessName: string,
    resources: seq<Resource>,
    resourceUrl: Option<string>,     // None stands for Python's None
    mapUrl: Option<string>)

  /** The keys an avalanche conversion adds: region and the flattened mountain weather. */
  datatype AvalancheFields = AvalancheFields(
    regionId: Option<int>,
    regionName: Option<string>,
    windSpeed: string,
    windDirection: string,
    temperature: string,
    precipitation: string)

  /** One warning as the coordinator hands it to the sensors and to change detection. */
  datatype Warning = Warning(
    id: JsonId,
    masterId: string,                 // `MasterId`, "" when absent
    activityLevel: Option<string>,    // `ActivityLevel`, None when absent
    warningType: Option<string>,      // `_warning_type`, None when absent
    dangerTypeName: Option<string>,
    mainText: string,                 // `MainText`, "" when absent
    regionName: string,               // `RegionName`, "" when absent or null
    municipalityName: Option<string>,
    validFrom: Option<string>,        // `ValidFrom`, Some("") when absent, None when null
    validTo: Option<string>,
    municipalities: seq<Municipality>,
    counties: seq<County>,
    warningText: string,
    adviceText: string,
    consequenceText: string,
    met: Option<MetFields>,           // present exactly for converted Met.no features
    avalanche: Option<AvalancheFields>)

  /** A record with only an `Id`, everything else absent. */
  function Bare(id: JsonId): Warning {
    Warning(id, "", None, None, None, "", "", None, None, None, [], [], "", "", "", None, None)
  }

  /** `alert.get("ActivityLevel", "1")` */
  function ActivityLevelOf(w: Warning): string {
    w.activityLevel.GetOr("1")
  }

  /** Levels "0" (unknown) and "1" (green) are not active warnings. */
  predicate IsActive(w: Warning) {
    var level := ActivityLevelOf(w);
    level != "0" && level != "1"
  }

  /** `alert.get("Id", "")`; None stands for Python's None. */
  function ForecastId(w: Warning): Option<string> {
    match w.id
    case IdAbsent => Some("")
    case IdNull => None
    case IdText(t) => Some(t)
  }

  /** Python truthiness of a string-or-None. */
  predicate Truthy(k: Option<string>) {
    k.Some? && k.value != ""
  }

  /** `MasterId if MasterId else Id`: the key alerts are de-duplicated on and linked by. */
  function UrlKey(w: Warning): (k: Option<string>)
    ensures w.masterId != "" ==> k == Some(w.masterId)
    ensures w.masterId == "" ==> k == ForecastId(w)
  {
    if w.masterId != "" then Some(w.masterId) else ForecastId(w)
  }

  /** `[m.get("Name", "") for m in alert.get("MunicipalityList", [])]` */
  function MunicipalityNames(w: Warning): (r: seq<string>)
    ensures |r| == |w.municipalities|
    ensures forall i :: 0 <= i < |r| ==> r[i] == w.municipalities[i].name
  {
    seq(|w.municipalities|, i requires 0 <= i < |w.municipalities| => w.municipalities[i].name)
  }

  /** `str(alert.get("Id", "unknown"))`: the key change detection tracks alerts by. */
  function NotificationKey(w: Warning): string {
    match w.id
    case IdAbsent => "unknown"
    case IdNull => "None"
    case IdText(t) => t
  }
}
