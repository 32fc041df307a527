/**
 * The Met.no weather-alert client: the endpoint chosen by mode, the start and
 * end times pulled out of an alert title, the `"N; color; Name"` awareness
 * split with its fallback, the resource and map links, the event-to-icon
 * names, and the conversion of each feature into the common warning shape.
 */
module MetAlerts {
  import opened Common
  import opened Text
  import opened Records

  // ------------------------------------------------------------- title times

  /** The character the timestamp pattern `dddd-dd-ddTdd:dd:dd+dd:dd` expects at position `i`. */
  predicate PatternChar(i: int, c: char) {
    if i == 4 || i == 7 then c == '-'
    else if i == 10 then c == 'T'
    else if i == 13 || i == 16 || i == 22 then c == ':'
    else if i == 19 then c == '+'
    else IsDigitChar(c)
  }

  const TimestampLength := 25

  predicate IsTimestamp(t: string) {
    |t| == TimestampLength && forall i :: 0 <= i < TimestampLength ==> PatternChar(i, t[i])
  }

  predicate MatchAt(s: string, i: int) {
    0 <= i && i + TimestampLength <= |s| && IsTimestamp(s[i..i + TimestampLength])
  }

  /** The start positions `re.findall` reports: leftmost matches, scanning on after each one. */
  function FindAll(s: string, from: nat): (ps: seq<nat>)
    ensures forall k :: 0 <= k < |ps| ==> from <= ps[k] && MatchAt(s, ps[k])
    ensures forall k, l :: 0 <= k < l < |ps| ==> ps[k] + TimestampLength <= ps[l]
    ensures |ps| > 0 ==> forall j :: from <= j < ps[0] ==> !MatchAt(s, j)
    ensures |ps| == 0 ==> forall j :: from <= j ==> !MatchAt(s, j)
    decreases |s| - from
  {
    if from + TimestampLength > |s| then []
    else if MatchAt(s, from) then [from] + FindAll(s, from + TimestampLength)
    else FindAll(s, from + 1)
  }

  /** The matched texts, in order. */
  function Timestamps(s: string): (ts: seq<string>)
    ensures |ts| == |FindAll(s, 0)|
    ensures forall k :: 0 <= k < |ts| ==> IsTimestamp(ts[k])
    ensures forall k :: 0 <= k < |ts| ==> ts[k] == s[FindAll(s, 0)[k]..FindAll(s, 0)[k] + TimestampLength]
  {
    var ps := FindAll(s, 0);
    seq(|ps|, k requires 0 <= k < |ps| => s[ps[k]..ps[k] + TimestampLength])
  }

  /** A match at or after `from` means the scan reports one no later than it. */
  lemma {:induction false} FindAllReaches(s: string, from: nat, q: nat)
    requires from <= q && MatchAt(s, q)
    ensures |FindAll(s, from)| > 0 && FindAll(s, from)[0] <= q
    decreases |s| - from
  {
    if !MatchAt(s, from) {
      FindAllReaches(s, from + 1, q);
    }
  }

  /** The scan finds two timestamps exactly when the title holds two that do not overlap. */
  lemma TwoTimestampsIff(s: string)
    ensures |FindAll(s, 0)| >= 2 <==> exists p, q :: MatchAt(s, p) && MatchAt(s, q) && p + TimestampLength <= q
  {
    var ps := FindAll(s, 0);
    if |ps| >= 2 {
      assert MatchAt(s, ps[0]) && MatchAt(s, ps[1]) && ps[0] + TimestampLength <= ps[1];
    }
    if exists p, q :: MatchAt(s, p) && MatchAt(s, q) && p + TimestampLength <= q {
      var p, q :| MatchAt(s, p) && MatchAt(s, q) && p + TimestampLength <= q;
      FindAllReaches(s, 0, p);
      var p0 := ps[0];
      assert MatchAt(s, p0);
      if !(p0 + TimestampLength > |s|) && MatchAt(s, 0) {
        assert ps == [0] + FindAll(s, TimestampLength);
      }
      TailAfterFirst(s, 0);
      FindAllReaches(s, p0 + TimestampLength, q);
    }
  }

  /** After the first reported match, the scan carries on just past it. */
  lemma {:induction false} TailAfterFirst(s: string, from: nat)
    requires |FindAll(s, from)| > 0
    ensures FindAll(s, from)[1..] == FindAll(s, FindAll(s, from)[0] + TimestampLength)
    decreases |s| - from
  {
    if !MatchAt(s, from) {
      TailAfterFirst(s, from + 1);
    }
  }

  /** `_extract_times_from_title`: cleaned title, start and end. */
  datatype TitleTimes = TitleTimes(title: string, start: Option<string>, end: Option<string>)

  const CommaSpace: set<char> := {',', ' '}

  /**
   * With two or more timestamps, the first two are start and end, both are
   * removed from the title (every occurrence) and the title is stripped of
   * ',', ' ' and then whitespace; otherwise the title is returned as it is.
   */
  function ExtractTimesFromTitle(title: string): (r: TitleTimes)
    ensures r.start.Some? <==> r.end.Some?
    ensures r.start.Some? <==> |FindAll(title, 0)| >= 2
    ensures r.start.None? ==> r.title == title
    ensures r.start.Some? ==> r.start.value == Timestamps(title)[0] && r.end.value == Timestamps(title)[1]
  {
    var ts := Timestamps(title);
    if |ts| >= 2 then
      var removed := RemoveAll(RemoveAll(title, ts[0]), ts[1]);
      TitleTimes(Strip(StripChars(removed, CommaSpace)), Some(ts[0]), Some(ts[1]))
    else TitleTimes(title, None, None)
  }

  /**
   * Start and end are the texts of the first two pattern matches, which by
   * `FindAll` come in order, do not overlap and have no match before them;
   * both have the timestamp shape.
   */
  lemma ExtractedTimes(title: string)
    requires |FindAll(title, 0)| >= 2
    ensures IsTimestamp(ExtractTimesFromTitle(title).start.value)
    ensures IsTimestamp(ExtractTimesFromTitle(title).end.value)
    ensures ExtractTimesFromTitle(title).start.value
      == title[FindAll(title, 0)[0]..FindAll(title, 0)[0] + TimestampLength]
  {
    var ts := Timestamps(title);
    var r := ExtractTimesFromTitle(title);
    assert r.start.value == ts[0] && r.end.value == ts[1];
  }

  /**
   * The cleaned title is shorter by at least one timestamp and has no
   * surrounding whitespace.
   */
  lemma ExtractedTitle(title: string)
    requires |FindAll(title, 0)| >= 2
    ensures
      var r := ExtractTimesFromTitle(title);
      && |r.title| <= |title| - TimestampLength
      && (r.title == [] || (r.title[0] !in Whitespace && r.title[|r.title| - 1] !in Whitespace))
  {
    var ps := FindAll(title, 0);
    var ts := Timestamps(title);
    var first := title[ps[0]..ps[0] + TimestampLength];
    assert ts[0] == first;
    assert OccursAt(title, first, ps[0]);
    RemovePresent(title, first);
    var once := RemoveAll(title, ts[0]);
    var twice := RemoveAll(once, ts[1]);
    var stripped := StripChars(twice, CommaSpace);
    assert ExtractTimesFromTitle(title).title == StripChars(stripped, Whitespace);
    assert |twice| <= |once| <= |title| - TimestampLength;
  }

  // ---------------------------------------------------------- awareness level

  /** The parts of `awareness_level` and the `ActivityLevel` taken from it. */
  datatype Awareness = Awareness(numeric: string, color: string, name: string)

  const AwarenessFallback := Awareness("1", "yellow", "Minor")

  /** `awareness_level.split("; ")` unpacked into three, or the fallback when the count is not three. */
  function ParseAwareness(a: string): (r: Awareness)
    ensures |Split(a, "; ")| == 3 ==> r.numeric + "; " + r.color + "; " + r.name == a
    ensures |Split(a, "; ")| == 3 ==>
      !Contains(r.numeric, "; ") && !Contains(r.color, "; ") && !Contains(r.name, "; ")
    ensures |Split(a, "; ")| != 3 ==> r == AwarenessFallback
  {
    var parts := Split(a, "; ");
    if |parts| == 3 then
      SplitThree(a);
      Awareness(parts[0], parts[1], parts[2])
    else AwarenessFallback
  }

  /** A three-part split joins back into the text. */
  lemma SplitThree(a: string)
    requires |Split(a, "; ")| == 3
    ensures var parts := Split(a, "; "); parts[0] + "; " + parts[1] + "; " + parts[2] == a
  {
    JoinSplit(a, "; ");
    JoinThree(Split(a, "; "), "; ");
  }

  lemma JoinThree(parts: seq<string>, sep: string)
    requires |parts| == 3
    ensures Join(parts, sep) == parts[0] + sep + parts[1] + sep + parts[2]
  {
    var tail := parts[1..];
    assert tail[1..] == [parts[2]];
    assert Join(tail, sep) == parts[1] + sep + parts[2];
  }

  /** Three parts without "; " joined by it parse back into themselves: the inverse of the split. */
  lemma {:induction false} ParseAwarenessOfParts(numeric: string, color: string, name: string)
    requires !Contains(numeric, "; ") && !Contains(color, "; ") && !Contains(name, "; ")
    ensures ParseAwareness(numeric + "; " + color + "; " + name) == Awareness(numeric, color, name)
  {
    var sep := "; ";
    SplitAbsent(name, sep);
    SplitCons(color, name, sep);
    assert color + sep + name + "" == color + sep + name;
    SplitCons(numeric, color + sep + name, sep);
    assert numeric + sep + (color + sep + name) == numeric + sep + color + sep + name;
    assert Split(numeric + sep + color + sep + name, sep) == [numeric, color, name];
  }

  /** A text without "; " is no three-part awareness level and falls back. */
  lemma AwarenessWithoutSeparator(a: string)
    requires !Contains(a, "; ")
    ensures ParseAwareness(a) == AwarenessFallback
  {
    SplitAbsent(a, "; ");
  }

  // ------------------------------------------------------------- resources

  /** `resources[0].get("uri", "")`, or "" without resources; None stands for a null `uri`. */
  function ResourceUrl(rs: seq<Resource>): (url: Option<string>)
    ensures |rs| == 0 ==> url == Some("")
    ensures |rs| > 0 && rs[0].uri.UriAbsent? ==> url == Some("")
    ensures |rs| > 0 && rs[0].uri.UriNull? ==> url.None?
    ensures |rs| > 0 && rs[0].uri.UriText? ==> url == Some(rs[0].uri.text)
  {
    if |rs| > 0 then
      match rs[0].uri
      case UriAbsent => Some("")
      case UriNull => None
      case UriText(t) => Some(t)
    else Some("")
  }

  predicate IsPng(r: Resource) {
    r.mimeType == Some("image/png")
  }

  /** The `uri` of the first `image/png` resource (None when it has none), or None when there is none. */
  function MapUrl(rs: seq<Resource>): (url: Option<string>)
    ensures (forall k :: 0 <= k < |rs| ==> !IsPng(rs[k])) ==> url.None?
    ensures forall j :: 0 <= j < |rs| && IsPng(rs[j]) && (forall k :: 0 <= k < j ==> !IsPng(rs[k])) ==> url == UriGet(rs[j].uri)
  {
    if rs == [] then None
    else if IsPng(rs[0]) then UriGet(rs[0].uri)
    else
      var rest := MapUrl(rs[1..]);
      assert forall j :: 1 <= j < |rs| ==> rs[1..][j - 1] == rs[j];
      rest
  }

  // ------------------------------------------------------------------ icons

  /** The icon name of an event: gale, icing and blowingsnow are renamed, any other event is lowercased. */
  function IconEvent(event: string): (r: string)
    ensures Lower(event) == "gale" ==> r == "wind"
    ensures Lower(event) == "icing" ==> r == "ice"
    ensures Lower(event) == "blowingsnow" ==> r == "snow"
    ensures Lower(event) !in {"gale", "icing", "blowingsnow"} ==> r == Lower(event)
  {
    var e := Lower(event);
    if e == "gale" then "wind"
    else if e == "icing" then "ice"
    else if e == "blowingsnow" then "snow"
    else e
  }

  /** The icon name does not depend on the event's case. */
  lemma IconEventIgnoresCase(event: string)
    ensures IconEvent(Lower(event)) == IconEvent(event)
  {
    LowerIdempotent(event);
  }

  // --------------------------------------------------------------- endpoint

  /** The client's configuration: coordinates (as formatted into the URL), county, language, test mode. */
  datatype MetClient = MetClient(
    latitude: Option<string>,
    longitude: Option<string>,
    countyId: string,
    countyName: string,
    lang: string,
    testMode: bool)

  const NoLocationError := "MetAlerts requires either lat/lon coordinates or county_id"

  /** The request URL: the example feed in test mode, else by coordinates, else by county; neither is a ValueError. */
  function Endpoint(c: MetClient, base: string): (r: Result<string, string>)
    ensures r.Ok? <==> c.testMode || (c.latitude.Some? && c.longitude.Some?) || c.countyId != ""
    ensures r.Err? ==> r.error == NoLocationError
    ensures c.testMode ==> r == Ok(base + "/example.json")
    ensures r.Ok? && !c.testMode ==>
      |r.value| >= |"&lang=" + c.lang| && r.value[|r.value| - |"&lang=" + c.lang|..] == "&lang=" + c.lang
  {
    if c.testMode then Ok(base + "/example.json")
    else if c.latitude.Some? && c.longitude.Some? then
      Ok(base + "/current.json?lat=" + c.latitude.value + "&lon=" + c.longitude.value + "&lang=" + c.lang)
    else if c.countyId != "" then
      Ok(base + "/current.json?county=" + c.countyId + "&lang=" + c.lang)
    else Err(NoLocationError)
  }

  // ---------------------------------------------------------------- features

  /** The `properties` of a feature that the conversion reads (absent strings read as ""). */
  datatype FeatureProps = FeatureProps(
    title: string,
    awarenessLevel: string,
    resources: seq<Resource>,
    event: Option<string>,
    id: string,
    description: string,
    area: string,
    eventEndingTime: string)

  /** A feature in the common warning shape. */
  function ConvertFeature(p: FeatureProps): (w: Warning)
    ensures w.met.Some? && w.avalanche.None?
    ensures w.id == IdText(p.id)
    ensures w.activityLevel == Some(ParseAwareness(p.awarenessLevel).numeric)
    ensures w.warningType == Some(IconEvent(p.event.GetOr("")))
    ensures w.dangerTypeName == Some(p.event.GetOr("Weather warning"))
    ensures w.municipalities == []
  {
    var times := ExtractTimesFromTitle(p.title);
    var aw := ParseAwareness(p.awarenessLevel);
    var event := p.event.GetOr("");
    var fields := MetFields(
      times.title, times.start, times.end, event, p.area, p.description,
      p.awarenessLevel, aw.numeric, aw.color, aw.name,
      p.resources, ResourceUrl(p.resources), MapUrl(p.resources));
    Warning(
      IdText(p.id), "", Some(aw.numeric), Some(IconEvent(event)), Some(p.event.GetOr("Weather warning")),
      p.description, p.area, None,
      Some(times.start.GetOr(p.eventEndingTime)), Some(times.end.GetOr(p.eventEndingTime)),
      [], [], "", "", "", Some(fields), None)
  }

  /**
   * `ValidFrom`/`ValidTo` are the title times when the title has them, and
   * otherwise both fall back to `eventEndingTime`; `starttime` stays None then.
   */
  lemma ConvertFeatureTimes(p: FeatureProps)
    ensures
      var w := ConvertFeature(p);
      var times := ExtractTimesFromTitle(p.title);
      && (times.start.Some? ==> w.validFrom == times.start && w.validTo == times.end)
      && (times.start.None? ==> w.validFrom == Some(p.eventEndingTime) && w.validTo == Some(p.eventEndingTime))
      && w.met.value.starttime == times.start
      && w.met.value.title == times.title
  {
  }

  /** The converted features, in order. */
  function ConvertAll(features: seq<FeatureProps>): (ws: seq<Warning>)
    ensures |ws| == |features|
  {
    if features == [] then []
    else ConvertAll(features[..|features| - 1]) + [ConvertFeature(features[|features| - 1])]
  }

  /** Every feature is converted on its own: the i-th warning is the i-th feature's. */
  lemma {:induction false} ConvertAllAt(features: seq<FeatureProps>, i: nat)
    requires i < |features|
    ensures ConvertAll(features)[i] == ConvertFeature(features[i])
    decreases |features|
  {
    var init := features[..|features| - 1];
    if i < |init| {
      ConvertAllAt(init, i);
      assert features[i] == init[i];
    }
  }

  /** `fetch_warnings` after a successful request: every feature converted, in order. */
  method FetchWarnings(features: seq<FeatureProps>) returns (warnings: seq<Warning>)
    ensures warnings == ConvertAll(features)
  {
    warnings := [];
    for i := 0 to |features|
      invariant warnings == ConvertAll(features[..i])
    {
      assert features[..i + 1][..i] == features[..i];
      warnings := warnings + [ConvertFeature(features[i])];
    }
    assert features[..|features|] == features;
  }
}
