/**
 * The county-based NVE clients (landslide and flood): the request URL with
 * its language key, and the `_warning_type` tag written into every record
 * the feed returns.  The same two steps appear in both generations of the
 * integration and in the legacy coordinator.
 */
module CountyApi {
  import opened Common
  import opened Text
  import opened Records

  /** NVE's language key: "2" for English, "1" for everything else. */
  function LangKey(lang: string): (key: string)
    ensures key == "2" <==> lang == "en"
    ensures key == "1" <==> lang != "en"
  {
    if lang == "en" then "2" else "1"
  }

  /** `{base}/Warning/County/{county_id}/{lang_key}` */
  function CountyUrl(base: string, countyId: string, lang: string): (url: string)
    ensures |url| == |base| + |countyId| + 18
    ensures url[..|base|] == base
    ensures url[|base|..|base| + 16] == "/Warning/County/"
    ensures url[|base| + 16..|url| - 2] == countyId
    ensures url[|url| - 2..] == "/" + LangKey(lang)
  {
    base + "/Warning/County/" + countyId + "/" + LangKey(lang)
  }

  /** The records of a feed after `warning["_warning_type"] = t` on each. */
  function Tagged(ws: seq<Warning>, t: string): (r: seq<Warning>)
    ensures |r| == |ws|
    ensures forall i :: 0 <= i < |r| ==> r[i].warningType == Some(t)
    ensures forall i :: 0 <= i < |r| ==> r[i].(warningType := ws[i].warningType) == ws[i]
  {
    seq(|ws|, i requires 0 <= i < |ws| => ws[i].(warningType := Some(t)))
  }

  /** Tags a fetched feed in place, as the landslide and flood clients do. */
  method TagWarnings(a: array<Warning>, t: string)
    modifies a
    ensures a[..] == Tagged(old(a[..]), t)
  {
    for i := 0 to a.Length
      invariant a[..i] == Tagged(old(a[..i]), t)
      invariant a[i..] == old(a[i..])
    {
      a[i] := a[i].(warningType := Some(t));
    }
  }

  /** Tagging twice with the same type is tagging once. */
  lemma TaggedIdempotent(ws: seq<Warning>, t: string)
    ensures Tagged(Tagged(ws, t), t) == Tagged(ws, t)
  {
  }

  /** The county feeds a client fetches from. */
  datatype CountyFeed = LandslideFeed | FloodFeed

  function FeedTag(f: CountyFeed): string {
    match f
    case LandslideFeed => "landslide"
    case FloodFeed => "flood"
  }

  /** `LandslideAPI.fetch_warnings` / `FloodAPI.fetch_warnings`: the fetched list, tagged in place. */
  method FetchCountyWarnings(f: CountyFeed, fetched: array<Warning>)
    modifies fetched
    ensures fetched[..] == Tagged(old(fetched[..]), FeedTag(f))
  {
    TagWarnings(fetched, FeedTag(f));
  }
}
