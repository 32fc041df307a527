/**
 * `VarsomAlertsCoordinator._async_update_data` of the legacy integration:
 * the optional test alert, then the landslide, flood and avalanche feeds the
 * configured warning type selects, each tagged with its type; the avalanche
 * records are kept only when one of their counties is the configured one.
 */
module LegacyCoordinator {
  import opened Common
  import opened Records
  import opened CountyApi
  import opened Avalanche

  /** The configured `warning_type`: the five settings the coordinator tests for, or any other value. */
  datatype WarningSetting = LandslideOnly | FloodOnly | Both | AvalancheOnly | AllTypes | OtherSetting(name: string)

  /** `warning_type in [landslide, both, all]` */
  predicate FetchesLandslide(s: WarningSetting) {
    s == LandslideOnly || s == Both || s == AllTypes
  }

  /** `warning_type in [flood, both, all]` */
  predicate FetchesFlood(s: WarningSetting) {
    s == FloodOnly || s == Both || s == AllTypes
  }

  /** `warning_type in [avalanche, all]` */
  predicate FetchesAvalanche(s: WarningSetting) {
    s == AvalancheOnly || s == AllTypes
  }

  /** Each known setting fetches at least one feed, "both" exactly the two county feeds, "all" every feed. */
  lemma FeedSelection(s: WarningSetting)
    ensures !s.OtherSetting? <==> FetchesLandslide(s) || FetchesFlood(s) || FetchesAvalanche(s)
    ensures s == Both <==> FetchesLandslide(s) && FetchesFlood(s) && !FetchesAvalanche(s)
    ensures s == AllTypes <==> FetchesLandslide(s) && FetchesFlood(s) && FetchesAvalanche(s)
  {
  }

  /** The fake orange landslide alert of test mode. */
  const TestAlert := Warning(
    IdText("999999"), "", Some("3"), Some("landslide"), Some("Jordskred"),
    "Test Alert - Orange Landslide Warning for Testville", "", None,
    Some("2025-12-16T00:00:00"), Some("2025-12-17T23:59:59"),
    [Municipality("Testville", "46", "Vestland")], [],
    "Det er moderat fare for jordskred i Testville kommune. Væte og temperaturendringer kan utløse skred i bratte skråninger.",
    "Unngå opphold under bratte fjellsider og i skredfarlige områder. Vær særlig oppmerksom ved ferdsel i terrenget.",
    "Jordskred kan medføre skade på infrastruktur og fare for liv og helse. Mindre veier kan bli stengt.",
    None, None)

  // ------------------------------------------------------------ county filter

  /** `str(county.get("Id")) == str(self.county_id)` for some county of the warning. */
  predicate InCounty(w: Warning, countyId: string) {
    exists i :: 0 <= i < |w.counties| && w.counties[i].id == countyId
  }

  /** The avalanche warnings of the county, in order. */
  function CountyFiltered(ws: seq<Warning>, countyId: string): seq<Warning> {
    if ws == [] then []
    else
      var last := ws[|ws| - 1];
      CountyFiltered(ws[..|ws| - 1], countyId) + (if InCounty(last, countyId) then [last] else [])
  }

  /** A warning is kept iff one of its counties is the configured one; the kept list is no longer than the input. */
  lemma {:induction false} CountyFilteredMembers(ws: seq<Warning>, countyId: string)
    ensures |CountyFiltered(ws, countyId)| <= |ws|
    ensures forall w :: w in CountyFiltered(ws, countyId) <==> w in ws && InCounty(w, countyId)
  {
    if ws != [] {
      var init := ws[..|ws| - 1];
      CountyFilteredMembers(init, countyId);
      assert ws == init + [ws[|ws| - 1]];
    }
  }

  /** The inner loop over `CountyList`, which stops at the first matching county. */
  method CountyMatch(counties: seq<County>, countyId: string) returns (found: bool)
    ensures found <==> exists i :: 0 <= i < |counties| && counties[i].id == countyId
  {
    found := false;
    var i := 0;
    while i < |counties|
      invariant 0 <= i <= |counties|
      invariant forall j :: 0 <= j < i ==> counties[j].id != countyId
    {
      if counties[i].id == countyId {
        return true;
      }
      i := i + 1;
    }
  }

  /** The avalanche loop: tag every warning, keep the county's ones. */
  method FilterAvalanche(raw: seq<Warning>, countyId: string) returns (kept: seq<Warning>)
    ensures kept == CountyFiltered(Tagged(raw, "avalanche"), countyId)
  {
    var tagged := Tagged(raw, "avalanche");
    kept := [];
    for i := 0 to |raw|
      invariant kept == CountyFiltered(tagged[..i], countyId)
    {
      assert tagged[..i + 1][..i] == tagged[..i];
      var w := raw[i].(warningType := Some("avalanche"));
      assert w == tagged[i];
      var found := CountyMatch(w.counties, countyId);
      if found {
        kept := kept + [w];
      }
    }
    assert tagged[..|raw|] == tagged;
  }

  // ------------------------------------------------------------ the update

  /** The coordinator's configuration. */
  datatype CoordinatorConfig = CoordinatorConfig(countyId: string, setting: WarningSetting, testMode: bool)

  /**
   * The coordinator's data: the test alert, then the selected feeds in the
   * order landslide, flood, avalanche.  `landslide` and `flood` are what the
   * county feeds returned ([] on any failure) and `avalanche` what the
   * coordinator's own avalanche fetch returned.
   */
  function UpdateSpec(cfg: CoordinatorConfig, landslide: seq<Warning>, flood: seq<Warning>, avalanche: seq<Warning>)
    : seq<Warning>
  {
    (if cfg.testMode then [TestAlert] else [])
    + (if FetchesLandslide(cfg.setting) then Tagged(landslide, "landslide") else [])
    + (if FetchesFlood(cfg.setting) then Tagged(flood, "flood") else [])
    + (if FetchesAvalanche(cfg.setting) then CountyFiltered(Tagged(avalanche, "avalanche"), cfg.countyId) else [])
  }

  /** `_async_update_data`, with the avalanche fetch done from the summary and detail responses. */
  method UpdateData(cfg: CoordinatorConfig, landslide: seq<Warning>, flood: seq<Warning>,
                    summary: seq<SummaryRegion>, details: map<Option<int>, seq<DetailRecord>>)
    returns (all: seq<Warning>)
    ensures all == UpdateSpec(cfg, landslide, flood, FetchSpec(ActiveRegionsSpec(summary), details, LegacyCoordinator, "", ""))
  {
    var test: seq<Warning> := [];
    if cfg.testMode {
      test := [TestAlert];
    }
    var landslides: seq<Warning> := [];
    if FetchesLandslide(cfg.setting) {
      landslides := Tagged(landslide, "landslide");
    }
    var floods: seq<Warning> := [];
    if FetchesFlood(cfg.setting) {
      floods := Tagged(flood, "flood");
    }
    var avalanches: seq<Warning> := [];
    if FetchesAvalanche(cfg.setting) {
      var raw := FetchWarningsLegacyCoordinator(summary, details);
      avalanches := FilterAvalanche(raw, cfg.countyId);
    }
    all := test + landslides + floods + avalanches;
  }

  // ------------------------------------------------------------ properties

  /** How many records the coordinator returns. */
  lemma UpdateLength(cfg: CoordinatorConfig, landslide: seq<Warning>, flood: seq<Warning>, avalanche: seq<Warning>)
    ensures |UpdateSpec(cfg, landslide, flood, avalanche)|
         == (if cfg.testMode then 1 else 0)
          + (if FetchesLandslide(cfg.setting) then |landslide| else 0)
          + (if FetchesFlood(cfg.setting) then |flood| else 0)
          + (if FetchesAvalanche(cfg.setting) then |CountyFiltered(Tagged(avalanche, "avalanche"), cfg.countyId)| else 0)
  {
  }

  /** In test mode the first record is the test alert, an active level-"3" landslide alert. */
  lemma TestAlertFirst(cfg: CoordinatorConfig, landslide: seq<Warning>, flood: seq<Warning>, avalanche: seq<Warning>)
    requires cfg.testMode
    ensures UpdateSpec(cfg, landslide, flood, avalanche)[0] == TestAlert
    ensures ActivityLevelOf(TestAlert) == "3" && IsActive(TestAlert) && TestAlert.warningType == Some("landslide")
  {
  }

  /**
   * Every record carries the tag of the feed it came from: a flood record
   * exists only when floods are fetched, an avalanche record only when
   * avalanches are and then it lies in the county, and a landslide record
   * is the test alert or comes from a fetched landslide feed.
   */
  lemma UpdateTags(cfg: CoordinatorConfig, landslide: seq<Warning>, flood: seq<Warning>, avalanche: seq<Warning>)
    ensures forall w :: w in UpdateSpec(cfg, landslide, flood, avalanche) ==>
      w.warningType in {Some("landslide"), Some("flood"), Some("avalanche")}
    ensures forall w :: w in UpdateSpec(cfg, landslide, flood, avalanche) && w.warningType == Some("flood") ==>
      FetchesFlood(cfg.setting)
    ensures forall w :: w in UpdateSpec(cfg, landslide, flood, avalanche) && w.warningType == Some("avalanche") ==>
      FetchesAvalanche(cfg.setting) && InCounty(w, cfg.countyId)
    ensures forall w :: w in UpdateSpec(cfg, landslide, flood, avalanche) && w.warningType == Some("landslide") ==>
      (cfg.testMode && w == TestAlert) || FetchesLandslide(cfg.setting)
  {
    forall w | w in UpdateSpec(cfg, landslide, flood, avalanche)
      ensures w.warningType in {Some("landslide"), Some("flood"), Some("avalanche")}
      ensures w.warningType == Some("flood") ==> FetchesFlood(cfg.setting)
      ensures w.warningType == Some("avalanche") ==> FetchesAvalanche(cfg.setting) && InCounty(w, cfg.countyId)
      ensures w.warningType == Some("landslide") ==> (cfg.testMode && w == TestAlert) || FetchesLandslide(cfg.setting)
    {
      UpdateOrigin(cfg, landslide, flood, avalanche, w);
      if FetchesAvalanche(cfg.setting) && w in CountyFiltered(Tagged(avalanche, "avalanche"), cfg.countyId) {
        CountyFilteredMembers(Tagged(avalanche, "avalanche"), cfg.countyId);
      }
    }
  }

  /** Every record is the test alert or comes from a feed the setting selects. */
  lemma UpdateOrigin(cfg: CoordinatorConfig, landslide: seq<Warning>, flood: seq<Warning>, avalanche: seq<Warning>,
                     w: Warning)
    requires w in UpdateSpec(cfg, landslide, flood, avalanche)
    ensures || (cfg.testMode && w == TestAlert)
            || (FetchesLandslide(cfg.setting) && w in Tagged(landslide, "landslide"))
            || (FetchesFlood(cfg.setting) && w in Tagged(flood, "flood"))
            || (FetchesAvalanche(cfg.setting) && w in CountyFiltered(Tagged(avalanche, "avalanche"), cfg.countyId))
  {
  }
}
