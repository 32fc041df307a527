/**
 * The avalanche client: it scans the region summary for regions with an
 * active warning, fetches each region's detail records and keeps the
 * positive-danger records relevant to the configured county, converting each
 * into the common warning shape.  Three copies of this code exist: the current
 * client, the legacy client and the legacy coordinator (which has no
 * relevance filter and leaves tagging to its caller); `Generation` selects
 * between them.
 */
module Avalanche {
  import opened Common
  import opened Text
  import opened Records

  // ------------------------------------------------------------ danger levels

  /** The `DangerLevel` value of a record: absent, a JSON number, or a JSON string. */
  datatype DangerLevel = DangerAbsent | DangerNumber(n: int) | DangerString(s: string)

  /** `warning.get("DangerLevel", 0)`, with a string read by `int()` only when it `isdigit()`, else 0. */
  function ParsedDanger(d: DangerLevel): int {
    match d
    case DangerAbsent => 0
    case DangerNumber(n) => n
    case DangerString(s) => if IsDigits(s) then DigitsValue(s) else 0
  }

  /** An absent level counts as 0, a number as itself, a digit string as `int()` reads it, any other string as 0. */
  lemma ParsedDangerMeaning(d: DangerLevel)
    ensures d.DangerAbsent? ==> ParsedDanger(d) == 0
    ensures d.DangerNumber? ==> ParsedDanger(d) == d.n
    ensures d.DangerString? ==>
      (IsDigits(d.s) ==> ParseInt(d.s) == Some(ParsedDanger(d))) && (!IsDigits(d.s) ==> ParsedDanger(d) == 0)
  {
    if d.DangerString? && IsDigits(d.s) {
      ParseDigits(d.s);
    }
  }

  /** `str(warning.get("DangerLevel", 1))`, the `ActivityLevel` of a converted record. */
  function DangerText(d: DangerLevel): string {
    match d
    case DangerAbsent => "1"
    case DangerNumber(n) => IntToString(n)
    case DangerString(s) => s
  }

  /** A record with positive danger gets an `ActivityLevel` that `int()` reads back as that danger. */
  lemma DangerTextParses(d: DangerLevel)
    requires ParsedDanger(d) > 0
    ensures ParseInt(DangerText(d)) == Some(ParsedDanger(d))
  {
    match d
    case DangerNumber(n) => IntToStringRoundTrip(n);
    case DangerString(s) => ParseDigits(s);
  }

  // ----------------------------------------------------------- region summary

  datatype SummaryWarning = SummaryWarning(regionId: Option<int>, danger: DangerLevel)

  /** A summary entry; `warnings` is its `AvalancheWarningList`, empty when absent. */
  datatype SummaryRegion = SummaryRegion(warnings: seq<SummaryWarning>)

  predicate IsActiveWarning(w: SummaryWarning) {
    ParsedDanger(w.danger) > 0
  }

  /** Index of the first warning with positive danger, where the scan of a region stops. */
  function FirstActiveIndex(ws: seq<SummaryWarning>): (r: Option<nat>)
    ensures r.Some? ==> r.value < |ws| && IsActiveWarning(ws[r.value])
    ensures r.Some? ==> forall k :: 0 <= k < r.value ==> !IsActiveWarning(ws[k])
    ensures r.None? ==> forall k :: 0 <= k < |ws| ==> !IsActiveWarning(ws[k])
  {
    if ws == [] then None
    else if IsActiveWarning(ws[0]) then Some(0)
    else match FirstActiveIndex(ws[1..])
      case None => None
      case Some(j) => Some(j + 1)
  }

  predicate RegionIsActive(r: SummaryRegion) {
    FirstActiveIndex(r.warnings).Some?
  }

  /** What one summary region adds to `active_regions`. */
  function RegionContribution(r: SummaryRegion): seq<Option<int>> {
    match FirstActiveIndex(r.warnings)
    case None => []
    case Some(j) => [r.warnings[j].regionId]
  }

  /** The `active_regions` list of a summary. */
  function ActiveRegionsSpec(summary: seq<SummaryRegion>): seq<Option<int>> {
    if summary == [] then []
    else ActiveRegionsSpec(summary[..|summary| - 1]) + RegionContribution(summary[|summary| - 1])
  }

  /** The scan of the region summary, stopping at each region's first positive-danger warning. */
  method ActiveRegions(summary: seq<SummaryRegion>) returns (active: seq<Option<int>>)
    ensures active == ActiveRegionsSpec(summary)
  {
    active := [];
    for i := 0 to |summary|
      invariant active == ActiveRegionsSpec(summary[..i])
    {
      var ws := summary[i].warnings;
      var first := ScanRegion(ws);
      if first.Some? {
        active := active + [ws[first.value].regionId];
      }
      assert active == ActiveRegionsSpec(summary[..i + 1]) by {
        assert summary[..i + 1][..i] == summary[..i];
      }
    }
    assert summary[..|summary|] == summary;
  }

  /** The inner scan of one region, stopping at its first positive-danger warning. */
  method ScanRegion(ws: seq<SummaryWarning>) returns (first: Option<nat>)
    ensures first == FirstActiveIndex(ws)
  {
    var j := 0;
    while j < |ws| && ParsedDanger(ws[j].danger) <= 0
      invariant 0 <= j <= |ws|
      invariant forall k :: 0 <= k < j ==> !IsActiveWarning(ws[k])
    {
      j := j + 1;
    }
    first := if j < |ws| then Some(j) else None;
  }

  /** The positions of the active regions of a summary, in order. */
  function ActiveIndices(summary: seq<SummaryRegion>): (idx: seq<nat>)
    ensures forall k :: 0 <= k < |idx| ==> idx[k] < |summary| && RegionIsActive(summary[idx[k]])
    ensures forall k, l :: 0 <= k < l < |idx| ==> idx[k] < idx[l]
    ensures forall i :: 0 <= i < |summary| && RegionIsActive(summary[i]) ==> i in idx
  {
    if summary == [] then []
    else
      var n := |summary| - 1;
      var prefix := ActiveIndices(summary[..n]);
      if RegionIsActive(summary[n]) then prefix + [n] else prefix
  }

  /** The regions' first active warning, by position. */
  function FirstActiveRegionId(r: SummaryRegion): Option<int>
    requires RegionIsActive(r)
  {
    r.warnings[FirstActiveIndex(r.warnings).value].regionId
  }

  /**
   * `active_regions` holds exactly one entry per active summary region, in
   * summary order, and that entry is the `RegionId` of the region's first
   * positive-danger warning; hence never more entries than regions.
   */
  lemma {:induction false} ActiveRegionsCharacterised(summary: seq<SummaryRegion>)
    ensures |ActiveRegionsSpec(summary)| == |ActiveIndices(summary)| <= |summary|
    ensures forall k :: 0 <= k < |ActiveIndices(summary)| ==>
      ActiveRegionsSpec(summary)[k] == FirstActiveRegionId(summary[ActiveIndices(summary)[k]])
  {
    if summary != [] {
      ActiveRegionsCharacterised(summary[..|summary| - 1]);
      ActiveRegionsStep(summary);
    }
    assert Characterised(summary);
  }

  /** The characterisation of `ActiveRegionsSpec` by `ActiveIndices`. */
  ghost predicate Characterised(summary: seq<SummaryRegion>) {
    && |ActiveRegionsSpec(summary)| == |ActiveIndices(summary)| <= |summary|
    && forall k :: 0 <= k < |ActiveIndices(summary)| ==>
         ActiveRegionsSpec(summary)[k] == FirstActiveRegionId(summary[ActiveIndices(summary)[k]])
  }

  /** One more region keeps the characterisation of its prefix. */
  lemma ActiveRegionsStep(summary: seq<SummaryRegion>)
    requires summary != [] && Characterised(summary[..|summary| - 1])
    ensures Characterised(summary)
  {
    if RegionIsActive(summary[|summary| - 1]) {
      ActiveLastStep(summary);
    } else {
      InactiveLastStep(summary);
    }
  }

  lemma ActiveLastStep(summary: seq<SummaryRegion>)
    requires summary != [] && Characterised(summary[..|summary| - 1])
    requires RegionIsActive(summary[|summary| - 1])
    ensures Characterised(summary)
  {
    var n := |summary| - 1;
    var prefix := summary[..n];
    var idx := ActiveIndices(prefix);
    var spec := ActiveRegionsSpec(prefix);
    var id := FirstActiveRegionId(summary[n]);
    assert ActiveRegionsSpec(summary) == spec + [id] by {
      assert RegionContribution(summary[n]) == [id];
    }
    assert ActiveIndices(summary) == idx + [n];
    forall k | 0 <= k < |idx| + 1
      ensures (spec + [id])[k] == FirstActiveRegionId(summary[(idx + [n])[k]])
    {
      if k < |idx| {
        assert prefix[idx[k]] == summary[idx[k]];
      }
    }
  }

  lemma InactiveLastStep(summary: seq<SummaryRegion>)
    requires summary != [] && Characterised(summary[..|summary| - 1])
    requires !RegionIsActive(summary[|summary| - 1])
    ensures Characterised(summary)
  {
    var n := |summary| - 1;
    var prefix := summary[..n];
    var idx := ActiveIndices(prefix);
    var spec := ActiveRegionsSpec(prefix);
    assert ActiveRegionsSpec(summary) == spec by {
      assert RegionContribution(summary[n]) == [];
    }
    assert ActiveIndices(summary) == idx;
    forall k | 0 <= k < |idx| ensures spec[k] == FirstActiveRegionId(summary[idx[k]]) {
      assert prefix[idx[k]] == summary[idx[k]];
    }
  }

  // ----------------------------------------------------------- mountain weather

  /** An element of `MeasurementTypes`: an object with a string `Name`, or anything else. */
  datatype Measurement = Measurement(name: string, fields: map<string, string>) | BadMeasurement

  /** `MountainWeather`: absent, not shaped as expected, or its list of measurement types. */
  datatype MountainWeather = WeatherAbsent | WeatherMalformed | Weather(types: seq<Measurement>)

  predicate IsMatch(m: Measurement, measurementType: string) {
    m.Measurement? && Lower(m.name) == Lower(measurementType)
  }

  /** `str(measurement.get(field, ""))` */
  function FieldText(m: Measurement, field: string): string
    requires m.Measurement?
  {
    if field in m.fields then m.fields[field] else ""
  }

  /** Where the scan of the measurement types stops: the first match, or the first element it cannot read. */
  function StopIndex(ts: seq<Measurement>, measurementType: string): (r: Option<nat>)
    ensures r.Some? ==> r.value < |ts| && (ts[r.value].BadMeasurement? || IsMatch(ts[r.value], measurementType))
    ensures r.Some? ==> forall k :: 0 <= k < r.value ==> ts[k].Measurement? && !IsMatch(ts[k], measurementType)
    ensures r.None? ==> forall k :: 0 <= k < |ts| ==> ts[k].Measurement? && !IsMatch(ts[k], measurementType)
  {
    if ts == [] then None
    else if ts[0].BadMeasurement? || IsMatch(ts[0], measurementType) then Some(0)
    else match StopIndex(ts[1..], measurementType)
      case None => None
      case Some(j) => Some(j + 1)
  }

  /** `_extract_weather_value`: the field of the first measurement type named (case-insensitively) as asked, else "". */
  function ExtractWeatherValue(w: MountainWeather, measurementType: string, field: string): (r: string)
    ensures !w.Weather? ==> r == ""
    ensures w.Weather? ==>
      (forall j :: 0 <= j < |w.types| && IsMatch(w.types[j], measurementType)
        && (forall k :: 0 <= k < j ==> w.types[k].Measurement? && !IsMatch(w.types[k], measurementType))
        ==> r == FieldText(w.types[j], field))
    ensures w.Weather? && (forall k :: 0 <= k < |w.types| ==> !IsMatch(w.types[k], measurementType)) ==> r == ""
    ensures (w.Weather? && StopIndex(w.types, measurementType).Some?
             && w.types[StopIndex(w.types, measurementType).value].BadMeasurement?) ==> r == ""
  {
    match w
    case Weather(ts) =>
      (match StopIndex(ts, measurementType)
       case None => ""
       case Some(j) => if ts[j].BadMeasurement? then "" else FieldText(ts[j], field))
    case _ => ""
  }

  // --------------------------------------------------------------- relevance

  datatype DetailRecord = DetailRecord(
    regionId: Option<int>,
    danger: DangerLevel,
    mainText: Option<string>,
    regionName: Option<string>,
    validFrom: Option<string>,
    validTo: Option<string>,
    counties: seq<County>,
    municipalities: seq<Municipality>,
    weather: MountainWeather)

  /** `[county.get("Name", "") for county in county_list]` */
  function CountyNames(cs: seq<County>): (r: seq<string>)
    ensures |r| == |cs| && forall i :: 0 <= i < |cs| ==> r[i] == cs[i].name
  {
    seq(|cs|, i requires 0 <= i < |cs| => cs[i].name)
  }

  /** How many municipalities name the target county by id. */
  function MatchCount(ms: seq<Municipality>, countyId: string): (c: nat)
    ensures c <= |ms|
  {
    if ms == [] then 0
    else MatchCount(ms[..|ms| - 1], countyId) + (if ms[|ms| - 1].countyId == countyId then 1 else 0)
  }

  /** The running count `target_county_municipalities`. */
  method CountMatching(ms: seq<Municipality>, countyId: string) returns (count: nat)
    ensures count == MatchCount(ms, countyId)
  {
    count := 0;
    for i := 0 to |ms|
      invariant count == MatchCount(ms[..i], countyId)
    {
      if ms[i].countyId == countyId {
        count := count + 1;
      }
      assert ms[..i + 1][..i] == ms[..i];
    }
    assert ms[..|ms|] == ms;
  }

  /** `count / total >= 0.1`, with a zero total scoring 0, in integers. */
  predicate ShareRelevant(count: nat, total: nat) {
    total > 0 && 10 * count >= total
  }

  /** The integer form agrees with the exact ratio the code computes in floating point. */
  lemma ShareRelevantIsRatio(count: nat, total: nat)
    ensures ShareRelevant(count, total) <==> total > 0 && (count as real) / (total as real) >= 0.1
  {
    if total > 0 {
      var t := total as real;
      var q := (count as real) / t;
      assert q * t == count as real;
      if q >= 0.1 {
        assert q * t >= 0.1 * t;
      } else {
        assert q * t < 0.1 * t;
      }
    }
  }

  /** The two-tier rule: the county is named in `CountyList`, else at least a tenth of the municipalities lie in it. */
  predicate IsRelevant(rec: DetailRecord, countyName: string, countyId: string) {
    countyName in CountyNames(rec.counties)
    || ShareRelevant(MatchCount(rec.municipalities, countyId), |rec.municipalities|)
  }

  /** One in ten is enough, one in eleven is not, and two in twenty is. */
  lemma RelevanceBoundaries()
    ensures ShareRelevant(1, 10) && !ShareRelevant(1, 11) && ShareRelevant(2, 20) && !ShareRelevant(0, 0)
  {
  }

  // -------------------------------------------------------------- conversion

  /** Which copy of the avalanche fetch runs. */
  datatype Generation = CurrentApi | LegacyApi | LegacyCoordinator

  /** The `_warning_type` a copy writes into its records (the legacy coordinator tags later). */
  function GenerationTag(gen: Generation): Option<string> {
    match gen
    case CurrentApi => Some("avalanches")
    case LegacyApi => Some("avalanche")
    case LegacyCoordinator => None
  }

  function RegionIdText(id: Option<int>): JsonId {
    match id
    case None => IdNull
    case Some(n) => IdText(IntToString(n))
  }

  /** The common-shape record built from a detail record. */
  function Convert(rec: DetailRecord, gen: Generation): (w: Warning)
    ensures w.id == RegionIdText(rec.regionId)
    ensures w.activityLevel == Some(DangerText(rec.danger))
    ensures w.warningType == GenerationTag(gen)
    ensures w.municipalities == rec.municipalities && w.counties == rec.counties
    ensures w.met.None? && w.avalanche.Some? && w.avalanche.value.regionId == rec.regionId
    ensures w.avalanche.value.regionName == rec.regionName
    ensures w.dangerTypeName == Some("Skredfare") && w.masterId == ""
    ensures w.mainText == rec.mainText.GetOr("Snøskredvarsel")
    ensures w.regionName == rec.regionName.GetOr("Ukjent område")
    ensures w.validFrom == rec.validFrom && w.validTo == rec.validTo
    ensures gen == CurrentApi ==>
      && w.avalanche.value.windSpeed == ExtractWeatherValue(rec.weather, "wind", "Speed")
      && w.avalanche.value.windDirection == ExtractWeatherValue(rec.weather, "wind", "Direction")
      && w.avalanche.value.temperature == ExtractWeatherValue(rec.weather, "temperature", "Value")
      && w.avalanche.value.precipitation == ExtractWeatherValue(rec.weather, "precipitation", "Value")
    ensures gen != CurrentApi ==>
      && w.avalanche.value.windSpeed == "" && w.avalanche.value.windDirection == ""
      && w.avalanche.value.temperature == "" && w.avalanche.value.precipitation == ""
  {
    var weather :=
      if gen == CurrentApi then
        AvalancheFields(rec.regionId, rec.regionName,
          ExtractWeatherValue(rec.weather, "wind", "Speed"),
          ExtractWeatherValue(rec.weather, "wind", "Direction"),
          ExtractWeatherValue(rec.weather, "temperature", "Value"),
          ExtractWeatherValue(rec.weather, "precipitation", "Value"))
      else AvalancheFields(rec.regionId, rec.regionName, "", "", "", "");
    Warning(
      RegionIdText(rec.regionId), "", Some(DangerText(rec.danger)), GenerationTag(gen), Some("Skredfare"),
      rec.mainText.GetOr("Snøskredvarsel"), rec.regionName.GetOr("Ukjent område"), None,
      rec.validFrom, rec.validTo, rec.municipalities, rec.counties, "", "", "", None, Some(weather))
  }

  /** A detail record is emitted when its danger is positive and (for the clients) it is relevant. */
  predicate Emits(rec: DetailRecord, gen: Generation, countyName: string, countyId: string) {
    ParsedDanger(rec.danger) > 0 && (gen == LegacyCoordinator || IsRelevant(rec, countyName, countyId))
  }

  /** The records one region's detail response contributes. */
  function RegionWarnings(recs: seq<DetailRecord>, gen: Generation, countyName: string, countyId: string): seq<Warning> {
    if recs == [] then []
    else
      var last := recs[|recs| - 1];
      RegionWarnings(recs[..|recs| - 1], gen, countyName, countyId)
        + (if Emits(last, gen, countyName, countyId) then [Convert(last, gen)] else [])
  }

  /**
   * The records of all active regions; `details` maps a region id to its
   * detail response, and a region without one (failed request, non-list
   * body) contributes nothing.
   */
  function FetchSpec(active: seq<Option<int>>, details: map<Option<int>, seq<DetailRecord>>,
                     gen: Generation, countyName: string, countyId: string): seq<Warning>
  {
    if active == [] then []
    else
      var rid := active[|active| - 1];
      FetchSpec(active[..|active| - 1], details, gen, countyName, countyId)
        + (if rid in details then RegionWarnings(details[rid], gen, countyName, countyId) else [])
  }

  /** The relevance test as the code runs it: names first, then the running municipality count. */
  method CheckRelevant(rec: DetailRecord, countyName: string, countyId: string) returns (relevant: bool)
    ensures relevant == IsRelevant(rec, countyName, countyId)
  {
    var names := CountyNames(rec.counties);
    relevant := countyName in names;
    if !relevant {
      var count := CountMatching(rec.municipalities, countyId);
      relevant := ShareRelevant(count, |rec.municipalities|);
    }
  }

  /** `fetch_warnings`: scan the summary, then walk every active region's detail records. */
  method FetchWarnings(summary: seq<SummaryRegion>, details: map<Option<int>, seq<DetailRecord>>,
                       gen: Generation, countyName: string, countyId: string)
    returns (warnings: seq<Warning>)
    ensures warnings == FetchSpec(ActiveRegionsSpec(summary), details, gen, countyName, countyId)
  {
    var active := ActiveRegions(summary);
    warnings := FetchActive(active, details, gen, countyName, countyId);
  }

  /** The walk over the active regions, each contributing its detail records. */
  method FetchActive(active: seq<Option<int>>, details: map<Option<int>, seq<DetailRecord>>,
                     gen: Generation, countyName: string, countyId: string)
    returns (warnings: seq<Warning>)
    ensures warnings == FetchSpec(active, details, gen, countyName, countyId)
  {
    warnings := [];
    for i := 0 to |active|
      invariant warnings == FetchSpec(active[..i], details, gen, countyName, countyId)
    {
      var rid := active[i];
      ghost var step := if rid in details then RegionWarnings(details[rid], gen, countyName, countyId) else [];
      assert FetchSpec(active[..i + 1], details, gen, countyName, countyId)
          == FetchSpec(active[..i], details, gen, countyName, countyId) + step by {
        assert active[..i + 1][..i] == active[..i];
      }
      if rid in details {
        var found := FetchRegion(details[rid], gen, countyName, countyId);
        warnings := warnings + found;
      }
    }
    assert active[..|active|] == active;
  }

  /** The walk over one region's detail records. */
  method FetchRegion(recs: seq<DetailRecord>, gen: Generation, countyName: string, countyId: string)
    returns (warnings: seq<Warning>)
    ensures warnings == RegionWarnings(recs, gen, countyName, countyId)
  {
    warnings := [];
    for j := 0 to |recs|
      invariant warnings == RegionWarnings(recs[..j], gen, countyName, countyId)
    {
      var rec := recs[j];
      ghost var step := if Emits(rec, gen, countyName, countyId) then [Convert(rec, gen)] else [];
      assert RegionWarnings(recs[..j + 1], gen, countyName, countyId)
          == RegionWarnings(recs[..j], gen, countyName, countyId) + step by {
        assert recs[..j + 1][..j] == recs[..j];
      }
      var emit := CheckEmits(rec, gen, countyName, countyId);
      if emit {
        warnings := warnings + [Convert(rec, gen)];
      }
    }
    assert recs[..|recs|] == recs;
  }

  /** The loop body's tests: a danger level above zero, then (outside the coordinator) relevance. */
  method CheckEmits(rec: DetailRecord, gen: Generation, countyName: string, countyId: string) returns (emit: bool)
    ensures emit == Emits(rec, gen, countyName, countyId)
  {
    emit := false;
    if ParsedDanger(rec.danger) > 0 {
      var relevant := true;
      if gen != LegacyCoordinator {
        relevant := CheckRelevant(rec, countyName, countyId);
      }
      emit := relevant;
    }
  }

  // ------------------------------------------------------------- properties

  /** The warning came from an emitted detail record of one of the listed regions. */
  predicate FromEmittedRecord(w: Warning, active: seq<Option<int>>, details: map<Option<int>, seq<DetailRecord>>,
                              gen: Generation, countyName: string, countyId: string)
  {
    exists i, j :: 0 <= i < |active| && active[i] in details && 0 <= j < |details[active[i]]|
      && Emits(details[active[i]][j], gen, countyName, countyId) && w == Convert(details[active[i]][j], gen)
  }

  lemma {:induction false} RegionWarningsOrigin(recs: seq<DetailRecord>, gen: Generation, countyName: string, countyId: string)
    ensures forall w :: w in RegionWarnings(recs, gen, countyName, countyId) ==>
      exists j :: 0 <= j < |recs| && Emits(recs[j], gen, countyName, countyId) && w == Convert(recs[j], gen)
  {
    if recs != [] {
      var n := |recs| - 1;
      RegionWarningsOrigin(recs[..n], gen, countyName, countyId);
      forall w | w in RegionWarnings(recs, gen, countyName, countyId)
        ensures exists j :: 0 <= j < |recs| && Emits(recs[j], gen, countyName, countyId) && w == Convert(recs[j], gen)
      {
        if w in RegionWarnings(recs[..n], gen, countyName, countyId) {
          var j :| 0 <= j < n && Emits(recs[..n][j], gen, countyName, countyId) && w == Convert(recs[..n][j], gen);
          assert recs[..n][j] == recs[j];
        } else {
          assert Emits(recs[n], gen, countyName, countyId) && w == Convert(recs[n], gen);
        }
      }
    }
  }

  /** Every fetched warning is the conversion of a positive-danger (and, for the clients, relevant) record of a listed region. */
  lemma {:induction false} FetchOrigin(active: seq<Option<int>>, details: map<Option<int>, seq<DetailRecord>>,
                                       gen: Generation, countyName: string, countyId: string)
    ensures forall w :: w in FetchSpec(active, details, gen, countyName, countyId) ==>
      FromEmittedRecord(w, active, details, gen, countyName, countyId)
  {
    if active != [] {
      var n := |active| - 1;
      FetchOrigin(active[..n], details, gen, countyName, countyId);
      forall w | w in FetchSpec(active, details, gen, countyName, countyId)
        ensures FromEmittedRecord(w, active, details, gen, countyName, countyId)
      {
        if w in FetchSpec(active[..n], details, gen, countyName, countyId) {
          var i, j :| 0 <= i < n && active[..n][i] in details && 0 <= j < |details[active[..n][i]]|
            && Emits(details[active[..n][i]][j], gen, countyName, countyId) && w == Convert(details[active[..n][i]][j], gen);
          assert active[..n][i] == active[i];
        } else {
          var rid := active[n];
          RegionWarningsOrigin(details[rid], gen, countyName, countyId);
          var j :| 0 <= j < |details[rid]| && Emits(details[rid][j], gen, countyName, countyId) && w == Convert(details[rid][j], gen);
          assert 0 <= n < |active| && active[n] in details;
        }
      }
    }
  }

  /**
   * What every record the client returns satisfies: its `ActivityLevel`
   * reads back as a positive integer, its `Id` is its `RegionId`, its
   * `_warning_type` is the copy's tag, and the clients only return records
   * relevant to the county.
   */
  lemma FetchedWarningsWellFormed(summary: seq<SummaryRegion>, details: map<Option<int>, seq<DetailRecord>>,
                                  gen: Generation, countyName: string, countyId: string, w: Warning)
    requires w in FetchSpec(ActiveRegionsSpec(summary), details, gen, countyName, countyId)
    ensures ParseInt(ActivityLevelOf(w)).Some? && ParseInt(ActivityLevelOf(w)).value > 0
    ensures w.warningType == GenerationTag(gen)
    ensures w.avalanche.Some? && w.id == RegionIdText(w.avalanche.value.regionId)
    ensures exists rec: DetailRecord ::
      (ParsedDanger(rec.danger) > 0 && w == Convert(rec, gen)
       && (gen != LegacyCoordinator ==> IsRelevant(rec, countyName, countyId)))
  {
    var active := ActiveRegionsSpec(summary);
    FetchOrigin(active, details, gen, countyName, countyId);
    var i, j :| 0 <= i < |active| && active[i] in details && 0 <= j < |details[active[i]]|
      && Emits(details[active[i]][j], gen, countyName, countyId) && w == Convert(details[active[i]][j], gen);
    var rec := details[active[i]][j];
    DangerTextParses(rec.danger);
  }

  /** The current client's fetch, tagging records "avalanches". */
  method FetchWarningsCurrent(summary: seq<SummaryRegion>, details: map<Option<int>, seq<DetailRecord>>,
                              countyName: string, countyId: string)
    returns (warnings: seq<Warning>)
    ensures warnings == FetchSpec(ActiveRegionsSpec(summary), details, CurrentApi, countyName, countyId)
    ensures forall w :: w in warnings ==> w.warningType == Some("avalanches")
  {
    warnings := FetchWarnings(summary, details, CurrentApi, countyName, countyId);
    forall w | w in warnings ensures w.warningType == Some("avalanches") {
      FetchedWarningsWellFormed(summary, details, CurrentApi, countyName, countyId, w);
    }
  }

  /** The legacy client's fetch, tagging records "avalanche" and without the weather fields. */
  method FetchWarningsLegacy(summary: seq<SummaryRegion>, details: map<Option<int>, seq<DetailRecord>>,
                             countyName: string, countyId: string)
    returns (warnings: seq<Warning>)
    ensures warnings == FetchSpec(ActiveRegionsSpec(summary), details, LegacyApi, countyName, countyId)
    ensures forall w :: w in warnings ==> w.warningType == Some("avalanche")
  {
    warnings := FetchWarnings(summary, details, LegacyApi, countyName, countyId);
    forall w | w in warnings ensures w.warningType == Some("avalanche") {
      FetchedWarningsWellFormed(summary, details, LegacyApi, countyName, countyId, w);
    }
  }

  /** The legacy coordinator's own fetch: every positive-danger record, untagged and unfiltered. */
  method FetchWarningsLegacyCoordinator(summary: seq<SummaryRegion>, details: map<Option<int>, seq<DetailRecord>>)
    returns (warnings: seq<Warning>)
    ensures warnings == FetchSpec(ActiveRegionsSpec(summary), details, LegacyCoordinator, "", "")
    ensures forall w :: w in warnings ==> w.warningType.None?
  {
    warnings := FetchWarnings(summary, details, LegacyCoordinator, "", "");
    forall w | w in warnings ensures w.warningType.None? {
      FetchedWarningsWellFormed(summary, details, LegacyCoordinator, "", "", w);
    }
  }
}
