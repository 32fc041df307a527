/**
 * The entries of the sensors' `alerts` attribute: a CAP record (current
 * sensor, CAP mode, NVE warnings), a native record (current sensor, Met.no
 * alerts and non-CAP mode) or a legacy record.  What de-duplication and
 * sorting read of an entry is its `municipalities` key, which a Met.no entry
 * does not have, and its sort key.
 */
module Entries {
  import opened Common
  import opened Cap
  import opened Sorting
  import opened Records

  /** The keys every native entry has. */
  datatype NativeBase = NativeBase(
    id: Option<string>,
    level: int,
    levelName: string,
    dangerType: string,
    warningType: string,
    mainText: string,
    entityPicture: Option<string>)

  /** `_add_metalert_attributes`. */
  datatype MetAttrs = MetAttrs(
    title: string,
    event: string,
    eventType: string,
    area: string,
    areas: seq<string>,
    description: string,
    awarenessLevel: string,
    awarenessNumeric: string,
    awarenessColor: string,
    awarenessName: string,
    starttime: Option<string>,
    endtime: Option<string>,
    resources: seq<Resource>,
    mapUrl: Option<string>,
    resourceUrl: Option<string>,
    url: string)

  /** The NVE keys both `_add_avalanche_attributes` and `_add_nve_generic_attributes` set. */
  datatype NveCommon = NveCommon(masterId: string, municipalities: seq<string>, url: Option<string>)

  datatype NativeExtra =
    | MetExtra(met: MetAttrs)
    | AvalancheExtra(nve: NveCommon, region: RegionExtras, windSpeed: string, windDirection: string,
                     temperature: string, precipitation: string)
    | NveExtra(nve: NveCommon, warningText: string, adviceText: string, consequenceText: string)

  /** An entry of the legacy sensor. */
  datatype LegacyAlert = LegacyAlert(
    id: Option<string>,
    masterId: string,
    level: int,
    levelName: string,
    dangerType: string,
    warningType: string,
    municipalities: seq<string>,
    validFrom: Option<string>,
    validTo: Option<string>,
    mainText: string,
    warningText: string,
    adviceText: string,
    consequenceText: string,
    url: Option<string>)

  datatype AlertEntry =
    | CapEntry(cap: CapAlert)
    | NativeEntry(base: NativeBase, extra: NativeExtra)
    | LegacyEntry(legacy: LegacyAlert)

  /** The entry's `municipalities` key, None when it has none (a Met.no entry). */
  function Municipalities(e: AlertEntry): Option<seq<string>> {
    match e
    case CapEntry(c) => Some(c.municipalities)
    case NativeEntry(_, MetExtra(_)) => None
    case NativeEntry(_, AvalancheExtra(nve, _, _, _, _, _)) => Some(nve.municipalities)
    case NativeEntry(_, NveExtra(nve, _, _, _)) => Some(nve.municipalities)
    case LegacyEntry(l) => Some(l.municipalities)
  }

  /** `entry["municipalities"] = ms` on an entry that has the key; nothing else changes. */
  function WithMunicipalities(e: AlertEntry, ms: seq<string>): (r: AlertEntry)
    requires Municipalities(e).Some?
    ensures Municipalities(r) == Some(ms)
    ensures Level(r) == Level(e) && TimeKey(r) == TimeKey(e)
    ensures r.CapEntry? == e.CapEntry? && r.LegacyEntry? == e.LegacyEntry?
    ensures r.NativeEntry? ==> e.NativeEntry? && r.base == e.base && r.extra.AvalancheExtra? == e.extra.AvalancheExtra?
  {
    match e
    case CapEntry(c) => CapEntry(c.(municipalities := ms))
    case NativeEntry(b, AvalancheExtra(nve, reg, ws, wd, t, p)) =>
      NativeEntry(b, AvalancheExtra(nve.(municipalities := ms), reg, ws, wd, t, p))
    case NativeEntry(b, NveExtra(nve, wt, at, ct)) => NativeEntry(b, NveExtra(nve.(municipalities := ms), wt, at, ct))
    case LegacyEntry(l) => LegacyEntry(l.(municipalities := ms))
  }

  /** Putting the old list back gives the entry back: only the list changed. */
  lemma WithMunicipalitiesRestore(e: AlertEntry, ms: seq<string>)
    requires Municipalities(e).Some?
    ensures WithMunicipalities(WithMunicipalities(e, ms), Municipalities(e).value) == e
  {
  }

  /** Setting the list twice keeps the second. */
  lemma WithMunicipalitiesTwice(e: AlertEntry, ms1: seq<string>, ms2: seq<string>)
    requires Municipalities(e).Some?
    ensures WithMunicipalities(WithMunicipalities(e, ms1), ms2) == WithMunicipalities(e, ms2)
  {
  }

  /** The entry's `level`. */
  function Level(e: AlertEntry): int {
    match e
    case CapEntry(c) => c.level
    case NativeEntry(b, _) => b.level
    case LegacyEntry(l) => l.level
  }

  /**
   * The second half of the sort key: `x.get("starttime", "")` in the current
   * sensor (CAP and Met.no entries have the key, other native entries do
   * not), `x.get("valid_from", "")` in the legacy one.
   */
  function TimeKey(e: AlertEntry): Option<string> {
    match e
    case CapEntry(c) => c.starttime
    case NativeEntry(_, MetExtra(m)) => m.starttime
    case NativeEntry(_, _) => Some("")
    case LegacyEntry(l) => l.validFrom
  }

  function SortKeyOf(e: AlertEntry): SortKey {
    SortKey(Level(e), TimeKey(e))
  }
}
