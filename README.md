# Norway Alerts and Varsom, modelled in Dafny

This project models the core of two Home Assistant integrations that publish Norwegian hazard warnings as sensors:

- **Norway Alerts** (`custom_components/norway_alerts`). It reads NVE's landslide, flood and avalanche warnings and Met.no's weather alerts. Its API layer is `api.py`. Its sensor layer `sensor.py` also converts NVE warnings to a CAP-like record and sends change notifications.
- **Varsom** (`custom_components/varsom`). This is the legacy integration it replaces. Its own `api.py` clients cover the NVE feeds only. The data coordinator in its `sensor.py` fetches and merges the feeds itself.

The modules follow the source:

- `common.dfy`: `Option` and `Result`, plus a total map lookup (`dict.get` with a default).
- `text.dfy`: Python's string operations as the core uses them, with their round trips.
  - `split`/`join`, `strip`, `replace`, `lower`;
  - `str`/`int` on integers;
  - string order and `sorted(set(...))`.
- `encoding.dfy`: UTF-8 encoding and Windows-1252 decoding, used to explain how the notification marks in `sensor.py` are spelled.
- `records.dfy`: the warning record that flows between the fetchers and the sensors.
- `county_api.dfy`: the county-based landslide and flood clients, including the in-place `_warning_type` tagging loop.
- `avalanche.dfy`: the avalanche client.
  - the summary scan for active regions;
  - the per-region detail walk;
  - the county relevance test (county name, then a share of at least 10% of municipalities);
  - the conversion to a warning record.
  - One parameter selects which of the three variants runs: the current client, the legacy client, or the legacy coordinator's own fetch.
- `metalerts.dfy`: the Met.no client.
  - the endpoint choice;
  - the timestamp extraction from titles;
  - the `"n; colour; name"` awareness parsing;
  - the resource and map URLs, and the icon event names;
  - the feature conversion loop.
- `factory.dfy`: `get_api` and `create_api` of both integrations.
- `cap.dfy`: `convert_nve_to_cap`.
- `municipality_filter.dfy`: the "My Area" municipality filter.
- `entries.dfy`, `dedup.dfy`, `sorting.dfy`: the parts of `extra_state_attributes`.
  - the attribute entry per alert;
  - the `alerts_dict` de-duplication by `MasterId` with merged municipality lists;
  - the descending sort by `(level, starttime)`. It is done in place on an array, proved equal to a stable insertion sort.
- `sensor.dfy` (module `CurrentSensor`): the Norway Alerts sensor.
  - `native_value`;
  - `extra_state_attributes`;
  - `entity_picture`.
- `notifications.dfy`: `_send_notifications` of the Norway Alerts coordinator.
  - It is a class whose state is the tracked `previous_alerts` snapshot and the notifications sent so far.
  - Lemmas cover the new, upgraded and resolved cases.
- `legacy_coordinator.dfy`: `_async_update_data` of the Varsom coordinator.
  - the test alert;
  - the feed selection;
  - the county filter on avalanche records.
- `legacy_sensor.dfy`: the Varsom sensor.
  - Its state is the highest level as text.
  - It has its own attribute and picture logic.
  - It is related to the Norway Alerts sensor by lemmas.

HTTP responses are inputs.

- A county feed is the list it returned.
- An avalanche fetch is the summary list plus a map from region id to the region's detail list. A region missing from the map is one whose request failed or did not return a list.
- Met.no's answer is its list of feature properties.

Tables from `const.py` (`ACTIVITY_LEVEL_NAMES`, `ICON_DATA_URLS`) are parameters, because `const.py` is not part of this model.

## Model

| member | source | states |
|---|---|---|
| Text.JoinSplit | custom_components/norway_alerts/sensor.py:731 | Joining the parts of `s.split(sep)` with `sep` gives `s` back, for every text and non-empty separator. |
| Text.Split | custom_components/norway_alerts/api.py:399 | `split` yields at least one part and no part contains the separator. |
| Text.SplitCons | custom_components/norway_alerts/api.py:399 | A text that starts with a separator-free part and the separator splits into that part followed by the split of the rest. |
| Text.StripChars | custom_components/norway_alerts/api.py:336 | `strip(chars)` is no longer than its input and neither starts nor ends with a stripped character. |
| Text.StripNoop | custom_components/varsom/sensor.py:351 | Stripping a text that already has no stripped character at either end changes nothing. |
| Text.RemovePresent | custom_components/norway_alerts/api.py:336 | `replace(t, "")` on a text containing `t` removes at least `|t|` characters. |
| Text.RemoveAbsent | custom_components/norway_alerts/api.py:336 | `replace(t, "")` on a text without `t` returns it unchanged. |
| Text.Lower | custom_components/norway_alerts/sensor.py:827 | `lower()` keeps the length and lowercases each character: A–Z and the Latin-1 capitals À–Þ (except ×), which include Æ, Ø and Å. |
| Text.LowerNorwegian | custom_components/norway_alerts/sensor.py:827 | "ÆØÅ" lowercases to "æøå" and "Ålesund" to "ålesund", as in Python. |
| Text.LowerIdempotent | custom_components/norway_alerts/sensor.py:821 | Lowercasing twice is lowercasing once. |
| Text.IntToStringRoundTrip | custom_components/norway_alerts/sensor.py:1120 | `int(str(n)) == n` for every integer `n`. |
| Text.ParseDigits | custom_components/norway_alerts/api.py:187 | `int()` of an ASCII digit string is its decimal value. |
| Text.NatToStringValue | custom_components/norway_alerts/sensor.py:1120 | `str(n)` of a natural number is a digit string whose decimal value is `n`. |
| Text.StrLessTransitive | custom_components/norway_alerts/sensor.py:1065 | Python's string order is transitive. |
| Text.StrLessTotal | custom_components/norway_alerts/sensor.py:1065 | Two different strings are ordered one way or the other. |
| Text.InsertUnique | custom_components/norway_alerts/sensor.py:1063-1065 | Adding a name to a strictly sorted list keeps it strictly sorted with the name added to its elements. |
| Text.SortedSet | custom_components/norway_alerts/sensor.py:1063-1065 | `sorted(set(xs))` is strictly increasing and has exactly the elements of `xs`. |
| Text.StrictlySortedUnique | custom_components/norway_alerts/sensor.py:1065 | Two strictly sorted lists with the same elements are equal, so `sorted(set(xs))` has exactly one result. |
| Records.UrlKey | custom_components/norway_alerts/sensor.py:1034-1036 | The de-duplication key is `MasterId` when it is non-empty, else the record's `Id`. |
| Records.MunicipalityNames | custom_components/norway_alerts/sensor.py:1058 | One name per `MunicipalityList` entry, in order. |
| CountyApi.LangKey | custom_components/norway_alerts/api.py:69 | The language key is "2" exactly for English and "1" for every other language. |
| CountyApi.CountyUrl | custom_components/norway_alerts/api.py:69-70 | The URL is the base, "/Warning/County/", the county id, "/" and the language key, piece by piece. |
| CountyApi.Tagged | custom_components/norway_alerts/api.py:114-121 | Tagging keeps the length, sets `_warning_type` on every record and changes nothing else. |
| CountyApi.TagWarnings | custom_components/norway_alerts/api.py:117-119 | The in-place loop leaves the array equal to the tagged list of its old contents. |
| CountyApi.TaggedIdempotent | custom_components/varsom/sensor.py:263-274 | Tagging an already tagged list with the same type changes nothing. |
| CountyApi.FetchCountyWarnings | custom_components/norway_alerts/api.py:114-135 | The landslide and flood clients return the fetched list, tagged with their own type. |
| Avalanche.ParsedDangerMeaning | custom_components/norway_alerts/api.py:185-187 | An absent `DangerLevel` counts as 0, a number as itself, a digit string as `int()` reads it and any other string as 0. |
| Avalanche.DangerTextParses | custom_components/norway_alerts/api.py:241 | A positive danger level becomes an `ActivityLevel` text that `int()` reads back as that level. |
| Avalanche.FirstActiveIndex | custom_components/norway_alerts/api.py:184-190 | The scan of a region stops at its first positive-danger warning; none comes before it; no stop means none is positive. |
| Avalanche.ScanRegion | custom_components/norway_alerts/api.py:184-190 | The inner loop, with its `break`, finds exactly `FirstActiveIndex`. |
| Avalanche.ActiveRegions | custom_components/norway_alerts/api.py:181-190 | The outer summary loop builds exactly `ActiveRegionsSpec`. |
| Avalanche.ActiveIndices | custom_components/norway_alerts/api.py:182-183 | The active regions' positions are increasing, each names an active region, and every active region is listed. |
| Avalanche.ActiveRegionsCharacterised | custom_components/norway_alerts/api.py:181-190 | `active_regions` has one entry per active region, in summary order, each the `RegionId` of that region's first positive-danger warning. |
| Avalanche.StopIndex | custom_components/norway_alerts/api.py:150-153 | The measurement scan stops at the first matching (or unreadable) entry; every earlier entry is readable and does not match. |
| Avalanche.ExtractWeatherValue | custom_components/norway_alerts/api.py:144-155 | The field of the first measurement type whose name matches case-insensitively, provided no unreadable entry precedes it; "" when none matches, when the weather block is missing or malformed, and when an unreadable entry comes first (Python's `AttributeError` is caught). |
| Avalanche.CountyNames | custom_components/norway_alerts/api.py:217 | One `Name` per `CountyList` entry, in order. |
| Avalanche.CountMatching | custom_components/norway_alerts/api.py:222-228 | The counting loop counts exactly the municipalities whose `CountyId` text equals the county id. |
| Avalanche.ShareRelevantIsRatio | custom_components/norway_alerts/api.py:231-234 | The integer test holds exactly when there are municipalities and the exact ratio count/total is at least 0.1. |
| Avalanche.RelevanceBoundaries | custom_components/norway_alerts/api.py:231-234 | 1 of 10 and 2 of 20 are relevant; 1 of 11 and 0 of 0 are not. |
| Avalanche.CheckRelevant | custom_components/norway_alerts/api.py:216-234 | The relevance test as coded (county name first, then the municipality share) equals `IsRelevant`. |
| Avalanche.Convert | custom_components/norway_alerts/api.py:240-278 | The converted record takes its id, region id and name, validity times and municipality and county lists from the detail record; `ActivityLevel` is `str(DangerLevel)`, `DangerTypeName` is "Skredfare", `MainText` and `RegionName` default to "Snøskredvarsel" and "Ukjent område"; it carries the copy's type tag; the current client flattens wind speed and direction, temperature and precipitation from the mountain weather, the legacy copies leave them empty. |
| Avalanche.CheckEmits | custom_components/norway_alerts/api.py:206-236 | A detail record is emitted exactly when its danger is positive and, for the clients, it is relevant. |
| Avalanche.FetchRegion | custom_components/norway_alerts/api.py:204-280 | The walk over one region's detail list returns exactly `RegionWarnings`. |
| Avalanche.FetchActive | custom_components/norway_alerts/api.py:196-283 | The walk over the active regions returns exactly `FetchSpec`: the regions' contributions in order, nothing for a region without a list of details. |
| Avalanche.FetchWarnings | custom_components/norway_alerts/api.py:157-293 | The whole fetch returns exactly `FetchSpec` of the active regions of the summary. |
| Avalanche.RegionWarningsOrigin | custom_components/norway_alerts/api.py:204-280 | Every record a region contributes is the conversion of one of its emitted detail records. |
| Avalanche.FetchOrigin | custom_components/norway_alerts/api.py:196-283 | Every fetched warning is the conversion of an emitted detail record of a listed region. |
| Avalanche.FetchedWarningsWellFormed | custom_components/norway_alerts/api.py:240-254 | Every fetched warning has a positive integer `ActivityLevel`, the copy's tag and the id of its region. |
| Avalanche.FetchWarningsCurrent | custom_components/norway_alerts/api.py:157-293 | The current client's fetch tags every record "avalanches". |
| Avalanche.FetchWarningsLegacy | custom_components/varsom/api.py:120-250 | The legacy client's fetch tags every record "avalanche". |
| Avalanche.FetchWarningsLegacyCoordinator | custom_components/varsom/sensor.py:136-222 | The legacy coordinator's own avalanche fetch applies no county relevance test and leaves every record untagged (the coordinator tags them later). |
| MetAlerts.FindAll | custom_components/norway_alerts/api.py:330 | `re.findall` positions are matches of the timestamp pattern, do not overlap, and no match is skipped. |
| MetAlerts.Timestamps | custom_components/norway_alerts/api.py:330 | Each reported text is a timestamp, the slice of the title at its match position. |
| MetAlerts.FindAllReaches | custom_components/norway_alerts/api.py:330 | A match at or after the scan start means the scan reports one no later than it. |
| MetAlerts.TwoTimestampsIff | custom_components/norway_alerts/api.py:332 | The scan finds two timestamps exactly when the title holds two non-overlapping ones. |
| MetAlerts.TailAfterFirst | custom_components/norway_alerts/api.py:330 | After its first match the scan resumes right after that match. |
| MetAlerts.ExtractTimesFromTitle | custom_components/norway_alerts/api.py:324-339 | Start and end are both set or both absent; they are set exactly when two timestamps are found, and are the first two; otherwise the title is unchanged. |
| MetAlerts.ExtractedTimes | custom_components/norway_alerts/api.py:332-337 | The extracted start and end are timestamps, the start being the title's first match. |
| MetAlerts.ExtractedTitle | custom_components/norway_alerts/api.py:336 | The cleaned title is shorter by at least one timestamp and has no whitespace at either end. |
| MetAlerts.ParseAwareness | custom_components/norway_alerts/api.py:397-405 | A three-part awareness level joins back to the input from its parts, none of which contains "; "; any other part count gives the fallback ("1", "yellow", "Minor"). |
| MetAlerts.SplitThree | custom_components/norway_alerts/api.py:399 | A three-part split joins back into the text. |
| MetAlerts.ParseAwarenessOfParts | custom_components/norway_alerts/api.py:399-400 | Three parts without "; ", joined by "; ", parse back into themselves. |
| MetAlerts.AwarenessWithoutSeparator | custom_components/norway_alerts/api.py:401-405 | A level without "; " falls back. |
| MetAlerts.ResourceUrl | custom_components/norway_alerts/api.py:409-412 | `resource_url` is the first resource's `uri`: "" when the key is absent, None when it is null; "" when there are no resources. |
| MetAlerts.MapUrl | custom_components/norway_alerts/api.py:410-417 | `map_url` is the `uri` of the first `image/png` resource, or None when there is none. |
| MetAlerts.IconEvent | custom_components/norway_alerts/api.py:421-430 | gale, icing and blowingsnow become wind, ice and snow; any other event is lowercased. |
| MetAlerts.IconEventIgnoresCase | custom_components/norway_alerts/api.py:421 | The icon type does not depend on the event's case. |
| MetAlerts.Endpoint | custom_components/norway_alerts/api.py:347-358 | An endpoint exists exactly in test mode, with both coordinates or with a county (else the ValueError); test mode uses the example feed; every live URL ends in `&lang=` and the language. |
| MetAlerts.ConvertFeature | custom_components/norway_alerts/api.py:432-471 | The record's id, `ActivityLevel` (the awareness numeric part), icon type and danger type come from the feature, and it has no municipalities. |
| MetAlerts.ConvertFeatureTimes | custom_components/norway_alerts/api.py:439-447 | `ValidFrom`/`ValidTo` are the title timestamps when found, else `eventEndingTime`; the cleaned title is kept. |
| MetAlerts.ConvertAllAt | custom_components/norway_alerts/api.py:390-472 | The i-th converted record is the conversion of the i-th feature. |
| MetAlerts.FetchWarnings | custom_components/norway_alerts/api.py:385-474 | The conversion loop returns every feature converted, in order. |
| Factory.NveKindOf | custom_components/norway_alerts/api.py:497-502 | Exactly "landslide", "flood" and "avalanche" name an NVE client, of that type. |
| Factory.GetApi | custom_components/norway_alerts/api.py:495-514 | `get_api` succeeds exactly for the NVE types and for metalerts with coordinates or a county; the client has the requested type and the factory's language; the two errors are kept apart. |
| Factory.GetApiMetEndpoint | custom_components/norway_alerts/api.py:505-512 | A metalerts client from `get_api` requests by coordinates when both are set, else by county, in the factory's language. |
| Factory.CreateApiAsWritten | custom_components/norway_alerts/api.py:517-530 | As written, a metalerts client from `create_api` has language "en" and the requested language as its county id. |
| Factory.CreateApiDropsLanguage | custom_components/norway_alerts/api.py:528 | A Norwegian request through `create_api` builds a URL ending in "&lang=en". |
| Factory.CreateApi | custom_components/norway_alerts/api.py:517-530 | `create_api` (corrected) succeeds for the NVE types and metalerts with coordinates, and its client keeps the requested type and language. |
| Factory.CreateApiMatchesGetApi | custom_components/norway_alerts/api.py:495-530 | With no county id (and coordinates for metalerts) the corrected `create_api` and `get_api` build the same client. |
| Factory.CreateApiAsWrittenDiffersOnlyForMet | custom_components/norway_alerts/api.py:517-530 | The as-written and corrected `create_api` agree on every type but metalerts. |
| Factory.LegacyGetApi | custom_components/varsom/api.py:261-282 | The legacy factory builds the three NVE clients with its county and language; anything else is a ValueError. |
| Factory.GetApiExtendsLegacy | custom_components/norway_alerts/api.py:495-514 | On every type except metalerts, the current `get_api` behaves as the legacy one. |
| Cap.Severity | custom_components/norway_alerts/sensor.py:89-95 | The CAP severity of each level "1" to "5", and "Unknown" for anything else. |
| Cap.AwarenessName | custom_components/norway_alerts/sensor.py:98-104 | The awareness name of each level "1" to "5", and "Unknown" for anything else. |
| Cap.SeverityMatchesAwareness | custom_components/norway_alerts/sensor.py:89-104 | The two tables differ exactly at level "1". |
| Cap.EventName | custom_components/norway_alerts/sensor.py:114-119 | Known types get their event name; any other type is title-cased. |
| Cap.DeepLink | custom_components/norway_alerts/sensor.py:130-132 | A forecast link is the language's prefix followed by the key. |
| Cap.DeepLinkInjective | custom_components/norway_alerts/sensor.py:130-132 | Different keys give different links. |
| Cap.CapUrl | custom_components/norway_alerts/sensor.py:122-132 | An avalanche record links to the bulletin page; other types link to their forecast when they have a key, else to the Varsom home page. |
| Cap.CapUrlNonEmpty | custom_components/norway_alerts/sensor.py:176 | The URL is never empty, so `resources` is never empty. |
| Cap.FirstCounty | custom_components/norway_alerts/sensor.py:180 | `county` is the first municipality's county name, or empty without municipalities. |
| Cap.CapRecord | custom_components/norway_alerts/sensor.py:135-216 | The record exists exactly when `int(ActivityLevel)` succeeds; its level is that integer, and it has the URL and the avalanche extras of its type. |
| Cap.ConvertNveToCapAsWritten | custom_components/norway_alerts/sensor.py:80-218 | As written: only the type "avalanche" gets the bulletin link and the region fields. |
| Cap.ConvertNveToCap | custom_components/norway_alerts/sensor.py:80-218 | Corrected: both "avalanche" and "avalanches" get the bulletin link and the region fields; other types link as `CapUrl`. |
| Cap.CapLevelFields | custom_components/norway_alerts/sensor.py:107-182 | The awareness, severity and colour fields all derive from `ActivityLevel`, and `awareness_level` is "numeric; color; name". |
| Cap.CapAreaFields | custom_components/norway_alerts/sensor.py:110-180 | `areas` and `municipalities` are the municipality names in order, `area` is their ", " join, and `county` is the first one's county. |
| Cap.CapResources | custom_components/norway_alerts/sensor.py:173-176 | `resources` is the single HTML link to `url`, which is also `resource_url`. |
| Cap.CapAwarenessParses | custom_components/norway_alerts/sensor.py:164-167 | The CAP awareness level parses back, by the Met.no parser, into its numeric, colour and name parts. |
| Cap.AwarenessNameHasNoSeparator | custom_components/norway_alerts/sensor.py:98-104 | No awareness name contains "; ". |
| Cap.CapFailsOnlyOnLevel | custom_components/norway_alerts/sensor.py:162 | Whether conversion fails does not depend on the type or the language. |
| Cap.DeepLinkIsNotBulletin | custom_components/norway_alerts/sensor.py:123-132 | A forecast link is never the avalanche bulletin page. |
| Cap.AvalancheTagMismatch | custom_components/norway_alerts/sensor.py:123-199 | A current-client avalanche record ("avalanches") gets a forecast link and no region fields as written, and the bulletin page and region fields once corrected. |
| Entries.WithMunicipalities | custom_components/norway_alerts/sensor.py:1065 | Replacing an entry's municipality list sets it and keeps the level, the start time, the entry's kind and a native entry's base keys. |
| Entries.WithMunicipalitiesRestore | custom_components/norway_alerts/sensor.py:1065 | Putting the old list back gives the entry back, so nothing but the list changed. |
| Entries.WithMunicipalitiesTwice | custom_components/norway_alerts/sensor.py:1063-1065 | Setting the list twice keeps the second. |
| MunicipalityFilter.Terms | custom_components/norway_alerts/sensor.py:821 | One term per comma-separated piece: stripped and lowercased. |
| MunicipalityFilter.LowerNames | custom_components/norway_alerts/sensor.py:826-827 | One lowercased name per municipality. |
| MunicipalityFilter.StoredFilter | custom_components/varsom/sensor.py:351 | The stored filter is stripped: no whitespace at either end. |
| MunicipalityFilter.SearchMatch | custom_components/norway_alerts/sensor.py:832-840 | The nested search with its early exits reports a match exactly when some term occurs in some name. |
| MunicipalityFilter.FilterAlerts | custom_components/norway_alerts/sensor.py:812-848 | The filter loop returns exactly the matching alerts, in order (all of them for an empty filter). |
| MunicipalityFilter.KeepMembers | custom_components/norway_alerts/sensor.py:824-848 | An alert is kept iff it is in the input and matches; nothing is added. |
| MunicipalityFilter.KeepAppend | custom_components/norway_alerts/sensor.py:824-848 | Filtering a concatenation filters each part in turn. |
| MunicipalityFilter.FilteredIdempotent | custom_components/varsom/sensor.py:354-390 | Filtering an already filtered list changes nothing. |
| MunicipalityFilter.NoMunicipalitiesDropped | custom_components/norway_alerts/sensor.py:826-843 | With a non-empty filter an alert without municipalities (every Met.no alert) is dropped. |
| MunicipalityFilter.EmptyTermMatchesAll | custom_components/norway_alerts/sensor.py:821-835 | An empty term matches every alert that has a municipality. |
| MunicipalityFilter.TrailingCommaKeepsAll | custom_components/norway_alerts/sensor.py:821 | The filter "Oslo," keeps every alert that has a municipality. |
| MunicipalityFilter.NorwegianTermMatches | custom_components/norway_alerts/sensor.py:821-831 | The filter "ålesund" keeps an alert for "Ålesund". |
| Sorting.KeyLessTransitive | custom_components/norway_alerts/sensor.py:1116 | The tuple order on (level, start time) is transitive. |
| Sorting.KeyLessTotal | custom_components/norway_alerts/sensor.py:1116 | Two different sort keys are ordered one way or the other. |
| Sorting.NotLessTransitive | custom_components/norway_alerts/sensor.py:1116 | "Not below" is transitive. |
| Sorting.InsertDescPermutes | custom_components/norway_alerts/sensor.py:1116 | An insertion step adds exactly the inserted entry. |
| Sorting.InsertDescSorted | custom_components/norway_alerts/sensor.py:1116 | An insertion step keeps a descending list descending. |
| Sorting.InsertDescWithKey | custom_components/norway_alerts/sensor.py:1116 | An insertion step puts the entry after those with an equal key and leaves the other keys' entries in order. |
| Sorting.SortDescSorted | custom_components/norway_alerts/sensor.py:1116 | The sort leaves the list in descending key order. |
| Sorting.SortDescPermutes | custom_components/norway_alerts/sensor.py:1116 | The sort is a permutation of its input. |
| Sorting.SortDescStable | custom_components/norway_alerts/sensor.py:1116 | The sort is stable: entries with one key keep their input order, as Python's sort with `reverse=True` does. |
| Sorting.InsertDescAt | custom_components/norway_alerts/sensor.py:1116 | Insertion puts the entry just after the last entry not below it. |
| Sorting.ShiftDown | custom_components/norway_alerts/sensor.py:1116 | The shifting loop moves every entry below the new one up by one slot and stops after the first entry that is not below it. |
| Sorting.ShiftOne | custom_components/norway_alerts/sensor.py:1116 | One shift moves the entry before the gap up into it and leaves every other slot unchanged. |
| Sorting.InsertStep | custom_components/norway_alerts/sensor.py:1116 | One step of the in-place insertion sort leaves the prefix equal to the functional insertion. |
| Sorting.SortInPlace | custom_components/norway_alerts/sensor.py:1116 | The in-place sort leaves the array equal to the stable descending sort of its old contents. |
| Dedup.Step | custom_components/norway_alerts/sensor.py:1061-1110 | A merge step keeps the dict well formed and fails exactly when it merges into an entry without `municipalities`. |
| Dedup.Values | custom_components/norway_alerts/sensor.py:1113 | `list(alerts_dict.values())` holds one entry per key, in insertion order. |
| Dedup.BuildTable | custom_components/norway_alerts/sensor.py:1022-1110 | The merge loop over the dict computes exactly `Build`. |
| Dedup.BuildErrStays | custom_components/norway_alerts/sensor.py:1061-1065 | Once a merge fails, the whole loop fails with that error. |
| Dedup.Count | custom_components/norway_alerts/sensor.py:1061 | The number of candidates under a key is zero exactly when no candidate has it. |
| Dedup.FirstIndex | custom_components/norway_alerts/sensor.py:1061-1067 | The position of the first candidate with a key: it has the key and no earlier one does; it decides which entry the dict stores. |
| Dedup.KeysOf | custom_components/norway_alerts/sensor.py:1113 | The dict's keys are distinct, at most one per candidate, and exactly the keys some candidate has. |
| Dedup.NamesWith | custom_components/norway_alerts/sensor.py:1063-1065 | The names merged under a key: none for a missing key, the candidate's own for a single one. |
| Dedup.SortedSetAgain | custom_components/norway_alerts/sensor.py:1063-1065 | Re-merging into an already merged list equals merging all names at once. |
| Dedup.MergeSafeStep | custom_components/norway_alerts/sensor.py:1061-1065 | Adding a candidate keeps the merge safe exactly when the prefix is safe and the key's first entry has `municipalities`. |
| Dedup.BuildClosedForm | custom_components/norway_alerts/sensor.py:1019-1113 | The loop succeeds exactly when no repeated key starts with an entry lacking `municipalities`; then the keys are in first-occurrence order, each holding its first entry with the sorted union of all its names. |
| Dedup.NewKeyStep | custom_components/norway_alerts/sensor.py:1067-1110 | A new key's entry is its own. |
| Dedup.ExistingKeyStep | custom_components/norway_alerts/sensor.py:1061-1065 | A repeated key's entry gets the sorted union of its names. |
| CurrentSensor.ActiveMembers | custom_components/norway_alerts/sensor.py:969-972 | The active alerts are exactly those whose level is neither "0" nor "1". |
| CurrentSensor.NativeValueBounds | custom_components/norway_alerts/sensor.py:960-974 | The state is at most the number of alerts, and with the municipality filter on it never exceeds the unfiltered state. |
| CurrentSensor.ActiveKeep | custom_components/norway_alerts/sensor.py:966-972 | Filtering before counting never adds active alerts. |
| CurrentSensor.ActiveAppend | custom_components/norway_alerts/sensor.py:969-972 | The active part of a concatenation is the concatenation of the active parts. |
| CurrentSensor.MaxValue | custom_components/norway_alerts/sensor.py:1015 | The maximum bounds every level; the first unreadable level is the error. |
| CurrentSensor.MaxValueAttained | custom_components/norway_alerts/sensor.py:1015 | The maximum is one of the levels. |
| CurrentSensor.MaxOf | custom_components/norway_alerts/sensor.py:1015 | `max(int(...))` fails exactly when some level is no integer, and otherwise bounds every level. |
| CurrentSensor.MaxLevel | custom_components/norway_alerts/sensor.py:1014-1017 | `max_level` is 1 without active alerts, else the maximum. |
| CurrentSensor.AlertIcon | custom_components/norway_alerts/sensor.py:1069-1079 | No icon without a type or at green; else the type's icon when it is non-empty, else the generic one. |
| CurrentSensor.VarsomUrl | custom_components/norway_alerts/sensor.py:1043-1055 | Avalanche entries link to the bulletin page; others to their forecast, or None without a key. |
| CurrentSensor.MetAttrsOf | custom_components/norway_alerts/sensor.py:723-756 | `areas` is the area split on ", " (empty for an empty area); `event_type` is the event lowercased with spaces turned into underscores, character by character; `resource_url` is passed through, and `url` is it when truthy, else the Met.no warnings page. |
| CurrentSensor.MetAreasJoin | custom_components/norway_alerts/sensor.py:731 | The `areas` list joins back to `area`. |
| CurrentSensor.NativeRecord | custom_components/norway_alerts/sensor.py:1092-1108 | A native entry gets the Met.no fields for a Met.no alert, the avalanche fields for an avalanche alert, and otherwise the generic NVE fields with its municipality names and URL. |
| CurrentSensor.EntryAsWritten | custom_components/norway_alerts/sensor.py:1038-1110 | As written: an entry exists exactly when the level is an integer, and the avalanche fields go only to records tagged exactly "avalanche". |
| CurrentSensor.Entry | custom_components/norway_alerts/sensor.py:1038-1110 | Corrected: the same, but records tagged "avalanches" also get the avalanche fields; Met.no entries have no `municipalities`. |
| CurrentSensor.AvalancheEntryMismatch | custom_components/norway_alerts/sensor.py:1043-1105 | A current-client avalanche record gets the generic NVE fields and a forecast URL as written, and the avalanche fields and the bulletin page once corrected. |
| CurrentSensor.Candidates | custom_components/norway_alerts/sensor.py:1022-1058 | One candidate per active alert, with its key and its entry; names agree with entries. |
| CurrentSensor.KeyedEntries | custom_components/norway_alerts/sensor.py:1116 | Each entry is paired with its (level, start time) key. |
| CurrentSensor.Items | custom_components/norway_alerts/sensor.py:1113-1116 | Stripping the keys gives back the entries in order. |
| CurrentSensor.ExtraStateAttributes | custom_components/norway_alerts/sensor.py:977-1141 | The filter loop, the merge loop and the in-place sort compute exactly `AttributesSpec`. |
| CurrentSensor.SortedEntries | custom_components/norway_alerts/sensor.py:1116 | After sorting, entries stay with their own keys, in descending order, as a permutation. |
| CurrentSensor.ItemsInsert | custom_components/norway_alerts/sensor.py:1116 | An insertion step adds exactly one entry. |
| CurrentSensor.ItemsSort | custom_components/norway_alerts/sensor.py:1116 | Sorting keeps every entry, as often as it occurs. |
| CurrentSensor.AttributesCount | custom_components/norway_alerts/sensor.py:1119 | `active_alerts` is the length of `alerts` and is at most the state. |
| CurrentSensor.AttributesOrder | custom_components/norway_alerts/sensor.py:1116 | The published alerts are in descending (level, start time) order. |
| CurrentSensor.MergedEntries | custom_components/norway_alerts/sensor.py:1061-1110 | One merged entry per key, in first-occurrence order. |
| CurrentSensor.MergedAndSorted | custom_components/norway_alerts/sensor.py:1019-1116 | The published alerts are a permutation of the merged entries. |
| CurrentSensor.MergedLevels | custom_components/norway_alerts/sensor.py:1015-1094 | No merged entry is above a bound on every active level. |
| CurrentSensor.MergedBelow | custom_components/norway_alerts/sensor.py:1061-1110 | Merging keeps each key's first level, so a bound on every candidate bounds every merged entry. |
| CurrentSensor.AttributesEntries | custom_components/norway_alerts/sensor.py:1004-1122 | On success every level was readable, no merge failed, `alerts` is a permutation of the merged entries and none is above `highest_level_numeric`. |
| CurrentSensor.FirstType | custom_components/norway_alerts/sensor.py:1149-1155 | The first non-empty type among the alerts; None exactly when every type is empty. |
| CurrentSensor.FindWarningType | custom_components/norway_alerts/sensor.py:1149-1155 | The search loop with its `break` finds exactly `FirstType`. |
| CurrentSensor.Picture | custom_components/norway_alerts/sensor.py:1158-1173 | No picture without a colour, at green or without a type; otherwise the type's icon for the colour when it exists and is non-empty, else the generic icon of the colour, else none. |
| CurrentSensor.EntityPictureAsWritten | custom_components/norway_alerts/sensor.py:1144-1173 | As written the picture is always None: the colour lookup uses the alert count. |
| CurrentSensor.EntityPicture | custom_components/norway_alerts/sensor.py:1144-1173 | Corrected: the picture is `Picture` of the colour of the highest active level and the first warning type; it exists only for a non-green level and a typed alert. |
| CurrentSensor.EntityPictureMissing | custom_components/norway_alerts/sensor.py:1146-1158 | Where the icon for the highest level exists, the sensor as written shows none while the corrected one shows it. |
| LegacySensor.AsCurrent | custom_components/varsom/sensor.py:341-351 | The legacy sensor's filter settings, as the current sensor's. |
| LegacySensor.NativeValueIsMax | custom_components/varsom/sensor.py:393-412 | The state is "1" without data or without active alerts, an error exactly when an active level is no integer, and otherwise the text of the highest active level. |
| LegacySensor.NativeValueIsHighestLevelText | custom_components/varsom/sensor.py:393-412 | The legacy state is the level text the current sensor's picture should have used. |
| LegacySensor.LegacyUrl | custom_components/varsom/sensor.py:465-468 | The forecast page of the language when there is a key, else None, for every warning type. |
| LegacySensor.LegacyRecord | custom_components/varsom/sensor.py:482-499 | A legacy entry has the alert's ids, level, municipality names and URL. |
| LegacySensor.LegacyCandidates | custom_components/varsom/sensor.py:446-500 | One candidate per active alert; every legacy entry has `municipalities`, so the merge is safe. |
| LegacySensor.LegacyExtraStateAttributes | custom_components/varsom/sensor.py:415-516 | The filter loop, the merge loop and the in-place sort compute exactly `LegacyAttributesSpec`. |
| LegacySensor.LegacyAttributesEntries | custom_components/varsom/sensor.py:429-516 | Only the sort can fail; on success `active_alerts` counts the keys, `alerts` is a descending permutation of the merged entries, and the highest level is `max_level`. |
| LegacySensor.LegacyAttributesBounded | custom_components/varsom/sensor.py:438-512 | No published alert is above `highest_level_numeric`. |
| LegacySensor.LegacyLevels | custom_components/varsom/sensor.py:439-485 | No merged legacy entry is above a bound on every active level. |
| LegacySensor.SameMasterIdMerged | custom_components/varsom/sensor.py:474-478 | Two active alerts with one `MasterId` publish one entry, the first, with both municipality names sorted. |
| LegacySensor.BuildSameKeyPair | custom_components/varsom/sensor.py:474-478 | Two candidates under one key leave the first entry with the sorted union of their names. |
| LegacySensor.LegacyEntityPicture | custom_components/varsom/sensor.py:518-540 | The picture exists only for a non-green state level and a typed alert, and is that type's icon. |
| LegacySensor.PicturesAgree | custom_components/varsom/sensor.py:518-540 | Where the type's icon exists, the legacy picture and the corrected current picture agree. |
| LegacyCoordinator.FeedSelection | custom_components/varsom/sensor.py:263-277 | Each known setting fetches some feed; "both" fetches exactly the county feeds; "all" fetches every feed. |
| LegacyCoordinator.CountyFilteredMembers | custom_components/varsom/sensor.py:283-299 | An avalanche record is kept iff one of its counties is the configured one. |
| LegacyCoordinator.CountyMatch | custom_components/varsom/sensor.py:292-299 | The county loop with its `break` finds a match exactly when some county has the configured id. |
| LegacyCoordinator.FilterAvalanche | custom_components/varsom/sensor.py:283-299 | The avalanche loop tags every record and keeps exactly the county's ones, in order. |
| LegacyCoordinator.UpdateData | custom_components/varsom/sensor.py:224-321 | The update returns the test alert, then the selected feeds in the order landslide, flood, avalanche. |
| LegacyCoordinator.UpdateLength | custom_components/varsom/sensor.py:224-321 | The number of records is the sum of the selected parts. |
| LegacyCoordinator.TestAlertFirst | custom_components/varsom/sensor.py:230-259 | In test mode the first record is the test alert, an active level-"3" landslide alert. |
| LegacyCoordinator.UpdateTags | custom_components/varsom/sensor.py:263-310 | Every record carries the tag of its feed; flood and avalanche records only appear when selected, and avalanche records lie in the county. |
| LegacyCoordinator.UpdateOrigin | custom_components/varsom/sensor.py:224-321 | Every record is the test alert or comes from a selected feed. |
| Notifications.ShouldNotifyMeaning | custom_components/norway_alerts/sensor.py:525-541 | A level notifies iff it is an integer at or above the configured floor; an unknown floor never notifies. |
| Notifications.ShouldNotifyMonotone | custom_components/norway_alerts/sensor.py:530-537 | A level that passes a higher floor passes every lower one. |
| Notifications.CurrentStates | custom_components/norway_alerts/sensor.py:468-479 | The snapshot has one key per distinct alert id. |
| Notifications.CurrentStatesLast | custom_components/norway_alerts/sensor.py:474 | A key holds the state of the last alert with that id. |
| Notifications.Shorten | custom_components/norway_alerts/sensor.py:557-558 | Texts over 100 characters become their first 97 and "..."; shorter ones are kept. |
| Notifications.LevelEmoji | custom_components/norway_alerts/sensor.py:548 | The title's mark is a single non-ASCII character, white exactly for a level outside "1"–"5". |
| Notifications.LevelEmojiDistinct | custom_components/norway_alerts/sensor.py:548 | The five levels get five different marks. |
| Notifications.LevelEmojiGarbled | custom_components/norway_alerts/sensor.py:548 | Each mark as the source spells it is the intended emoji's UTF-8 bytes read as Windows-1252, and differs from the emoji. |
| Notifications.ResolvedMarkGarbled | custom_components/norway_alerts/sensor.py:584 | The resolved mark as spelled is the check-mark emoji's UTF-8 bytes read as Windows-1252. |
| Notifications.TypeDisplay | custom_components/norway_alerts/sensor.py:551 | The displayed type has the type's length, a space for each underscore and the type's letters up to case. |
| Notifications.AlertNotification | custom_components/norway_alerts/sensor.py:543-574 | The title starts with the level's mark and a space; the id is `norway_alerts_<county>_<type>_<str(Id)>`. |
| Notifications.AlertNotificationIds | custom_components/norway_alerts/sensor.py:571 | For one type, two alert notifications share an id iff the alerts share `str(Id)`, so an upgrade replaces the alert's first notification. |
| Notifications.ResolvedNotification | custom_components/norway_alerts/sensor.py:579-600 | The title starts with the check mark and " Resolved ", the message is `<region> - Warning no longer active`, the id is `norway_alerts_resolved_<county>_<type>_<region>`. |
| Notifications.ResolvedNotificationIds | custom_components/norway_alerts/sensor.py:594 | For one type, two resolved notifications share an id iff their region names agree, whatever the alerts' ids. |
| Notifications.RenderAll | custom_components/norway_alerts/sensor.py:543-601 | One service call per notification, in order. |
| Notifications.MessageShortened | custom_components/norway_alerts/sensor.py:556-562 | A long main text ends the message as its first 97 characters and "...". |
| Notifications.ClassifyMeaning | custom_components/norway_alerts/sensor.py:490-505 | An alert is New iff it notifies and is untracked, Upgraded iff its level rose above a readable tracked level, and the comparison raises iff the tracked level is unreadable. |
| Notifications.StatesInOrder | custom_components/norway_alerts/sensor.py:484 | One state per key of the snapshot. |
| Notifications.Poll | custom_components/norway_alerts/sensor.py:464-523 | One poll's calls and the snapshot kept afterwards; the snapshot is always well formed. |
| Notifications.CollectStates | custom_components/norway_alerts/sensor.py:468-479 | The loop builds exactly `CurrentStates`. |
| Notifications.NewAndUpgraded | custom_components/norway_alerts/sensor.py:484-505 | The first loop computes `FirstPass`, stopping where a comparison raises. |
| Notifications.FirstPassNext | custom_components/norway_alerts/sensor.py:484-505 | One more iteration adds the alert's notification, stays silent, or raises. |
| Notifications.ClassifyKey | custom_components/norway_alerts/sensor.py:491-505 | The comparison for one key is its verdict. |
| Notifications.ResolvedCalls | custom_components/norway_alerts/sensor.py:508-514 | The second loop computes `Resolved`. |
| Notifications.NorwayAlertsCoordinator.SendNotifications | custom_components/norway_alerts/sensor.py:464-523 | The calls made are exactly those of `Poll`, and `previous_alerts` becomes its snapshot (kept unchanged when a comparison raised). |
| Notifications.RaisedStays | custom_components/norway_alerts/sensor.py:502 | Once the first loop has raised, the call has raised, with the notifications sent up to that point. |
| Notifications.RepeatPollSilent | custom_components/norway_alerts/sensor.py:464-517 | Polling again with the same alerts sends nothing and keeps the snapshot. |
| Notifications.SilentPass | custom_components/norway_alerts/sensor.py:484-505 | Where every verdict is silent the first loop sends nothing. |
| Notifications.FirstPassCalls | custom_components/norway_alerts/sensor.py:484-505 | A completed first loop notifies exactly the alerts whose verdict is New or Upgraded. |
| Notifications.ResolvedCallsExact | custom_components/norway_alerts/sensor.py:508-514 | A tracked alert that is gone is reported resolved, whatever its level; nothing else is. |
| Notifications.FirstPassOne | custom_components/norway_alerts/sensor.py:484-505 | The first loop over a single state. |
| Notifications.FirstSightNew | custom_components/norway_alerts/sensor.py:497-500 | From an empty snapshot, one notifying alert gives exactly one "New" notification. |
| Notifications.EscalationUpgraded | custom_components/norway_alerts/sensor.py:502-505 | The same alert again at a higher level gives exactly one "Upgraded" notification. |
| Notifications.NoEscalationSilent | custom_components/norway_alerts/sensor.py:502 | The same alert again at an equal or lower level sends nothing. |
| Notifications.SameKeysNothingResolved | custom_components/norway_alerts/sensor.py:508-509 | Nothing is resolved while the tracked key is still present. |
| Notifications.DisappearanceResolved | custom_components/norway_alerts/sensor.py:508-517 | An alert disappearing gives exactly one "Resolved" notification and an empty snapshot. |
| Notifications.UnreadableLevelSticks | custom_components/norway_alerts/sensor.py:502-522 | When the tracked level is no integer the comparison raises: nothing is sent and the old snapshot is kept, so the same poll fails the same way again. |
| Text.IndexOf | custom_components/norway_alerts/api.py:399 | The first occurrence of a text at or after a position; none before it; None when there is none. |
| Text.SplitAt | custom_components/norway_alerts/api.py:399 | Splitting at the first occurrence of the separator gives the part before it followed by the split of the rest. |
| Text.TrimLeftShape | custom_components/norway_alerts/api.py:336 | Left stripping removes exactly the leading run of stripped characters. |
| Text.TrimRightShape | custom_components/norway_alerts/api.py:336 | Right stripping removes exactly the trailing run of stripped characters. |
| Text.NatToString | custom_components/norway_alerts/sensor.py:1120 | `str(n)` of a natural number is a non-empty string of ASCII digits. |
| Dedup.Build | custom_components/norway_alerts/sensor.py:1022-1110 | The merge loop's table, when it exists, holds one entry per key in its key list. |
| MetAlerts.ConvertAll | custom_components/norway_alerts/api.py:390-472 | One converted record per feature. |
| MunicipalityFilter.KeepTwice | custom_components/norway_alerts/sensor.py:824-848 | Keeping the matches of already kept alerts changes nothing. |
| Sorting.KeyLessIrreflexive | custom_components/norway_alerts/sensor.py:1116 | No sort key is below itself. |
| Sorting.KeyLessAsymmetric | custom_components/norway_alerts/sensor.py:1116 | Two sort keys are never each below the other. |
| Sorting.WithKeyAppend | custom_components/norway_alerts/sensor.py:1116 | The entries with one key in a concatenation are those of each part in turn. |
| CurrentSensor.LevelValues | custom_components/norway_alerts/sensor.py:1015 | The `int(ActivityLevel)` of each alert, in order. |
| CurrentSensor.ItemsAppend | custom_components/norway_alerts/sensor.py:1113 | Stripping the keys commutes with concatenation. |
| Notifications.Verdicts | custom_components/norway_alerts/sensor.py:484-505 | One verdict per tracked key of the new snapshot. |
| Notifications.RenderAllAppend | custom_components/norway_alerts/sensor.py:543-601 | Rendering the calls of two passes renders each in turn. |
| Notifications.ClassifyTracked | custom_components/norway_alerts/sensor.py:502 | An alert unchanged since the last poll is silent. |
| Notifications.SameNothingResolved | custom_components/norway_alerts/sensor.py:508-514 | Nothing is resolved when the snapshot has not changed. |
| Notifications.FirstPassComplete | custom_components/norway_alerts/sensor.py:484-505 | Every alert with a New or Upgraded verdict is notified by a completed first loop. |
| Notifications.FirstPassSound | custom_components/norway_alerts/sensor.py:484-505 | Every call of the first loop is the notification of an alert with a New or Upgraded verdict. |
| Notifications.SingleState | custom_components/norway_alerts/sensor.py:468-479 | The snapshot of one alert tracks exactly its id, with its state. |
| Notifications.NorwayAlertsCoordinator.constructor | custom_components/norway_alerts/sensor.py:464-523 | A coordinator starts with no tracked alerts and nothing sent. |
| LegacySensor.ActiveBoth | custom_components/varsom/sensor.py:402-405 | Two active alerts both stay in the active list. |

## Left out

- HTTP, `async`, timeouts, headers and the User-Agent, JSON decoding and logging are not modelled. A response is an input (see above).
- Status codes other than 200, and the outer `except` clauses that return `[]`, are not modelled. A failed fetch is simply an empty input list.
- The start and end dates that the avalanche client puts into its URLs come from the clock. They are not modelled.
- A detail record whose shape makes Python raise part-way through a region is not modelled. The model either has a region's whole detail list or skips the region.
- The Norway Alerts coordinator's `_async_update_data` is left out. It only calls `get_api`, the client's `fetch_warnings` and `_send_notifications`, each of which is modelled.
- The Home Assistant plumbing is left out: config flow, `device_info`, entity naming and unique ids, platform setup, the service calls themselves and the entity registry.
- `_generate_formatted_content` (a text template for dashboards) and the `formatted_content` attribute are left out.
- The location attributes (`county_name`, `county_id`, `municipality_filter`, `latitude`, `longitude`) are kept only as a `Location` value with no properties proved about it.
- `const.py` is not part of this model. `ACTIVITY_LEVEL_NAMES`, `ICON_DATA_URLS` and the icon keys are map parameters; the warning-type settings are a datatype. The model assumes `ACTIVITY_LEVEL_NAMES` is keyed by level texts only, as every other lookup of it in both sensors uses it; `CurrentSensor.LevelNameOfCount` (an integer lookup that finds nothing) and the `entity_picture` finding rest on that assumption.
- Text.Lower: `lower()`, `upper()` and `title()` map the ASCII letters and the Latin-1 letters À–Þ/à–þ (which covers Æ, Ø and Å). Letters outside Latin-1, and ß and ÿ, keep their case.
- Records.UrlKey: `MasterId` and `Id` are kept as their `str()` text, while both sensors test them for truthiness and use them as dict keys raw. An integer `MasterId` of 0 is falsy in Python and falls back to `Id`, but the model keeps "0". An integer id 5 and a text id "5" are two entries in Python and one merged entry in the model. The model agrees with Python when no `MasterId` is the integer 0 and the ids of one data set share one JSON type.
- `isdigit()` (`Text.IsDigits`) accepts ASCII digits only: no sign, no spaces. `int()` (`Text.ParseInt`) strips surrounding whitespace (every character `str.isspace()` accepts, as argument-less `strip()` does: `Text.IsSpace`) and accepts an optional `+` or `-` before ASCII digits. Neither accepts underscores or non-ASCII digits. The `\d` of the title-timestamp pattern (`MetAlerts.FindAll`) matches ASCII digits only.
- The avalanche client's `DangerLevel` is absent, a number or a text; other JSON types are not modelled.
- JSON `null` and a missing key are kept apart for `Id`, `ValidFrom`/`ValidTo` (absent gives "", null gives None) and a resource's `uri`. Every other field of `Records.Warning` cannot hold a null: the model assumes the feeds never send one there, and reads a null as if the key were absent. Python differs on a null in these fields:
- `ActivityLevel` null: `alert.get("ActivityLevel", "1")` gives None, which passes the `not in ("0", "1")` test, so Python counts the alert as active and then `int(None)` raises `TypeError` in `native_value` and `extra_state_attributes` (custom_components/norway_alerts/sensor.py:1015, custom_components/varsom/sensor.py:411 and :439). The model reads level "1": the alert is not active.
- `MainText` null: `len(None)` in `_send_alert_notification` raises inside its own `try`, so Python sends no notification for that alert (custom_components/norway_alerts/sensor.py:557). The model sends one with an empty main text. In the legacy coordinator, `warning.get("MainText", "")[:50]` raises on a null and the whole update fails (custom_components/varsom/sensor.py:305-308); the model keeps the warning.
- `MainText` and `RegionName` of an avalanche detail record: the model gives a null its default text ("Snøskredvarsel", "Ukjent område"), where Python copies None into the converted record.
- `MunicipalityName` null: the notification's region name becomes None in Python ("None - …" in the message); the model uses "Unknown area".
- `MasterId`, `_warning_type`, `DangerTypeName`, `WarningText`, `AdviceText` and `ConsequenceText` null: Python copies None into the entry's keys where the model has the default text. `_warning_type` is set by the coordinators themselves and is never null.
- `DangerLevel` null in an avalanche detail record: `None > 0` raises `TypeError` in Python; the model has no null level (see the `DangerLevel` line above).
- The avalanche relevance ratio is computed in floating point in the source. It is modelled with integers, and `Avalanche.ShareRelevantIsRatio` proves the two tests agree on every input.
- CurrentSensor.ExtraStateAttributes: the sort's `TypeError` is over-approximated. The model reports `SortError` whenever two entries of one level mix a `None` and a text start time; Python raises only if its sort happens to compare such a pair. The same holds for `LegacySensor.LegacyExtraStateAttributes`.
- Dedup.Step: Python raises `KeyError` when it merges into a Met.no entry, which has no `municipalities`. This is modelled as an `Err` result of the whole attribute computation, since the property getter raises.
- Notifications.NorwayAlertsCoordinator.SendNotifications: the service calls become `Notification` values appended to `sent`. The exception caught at the end of `_send_notifications` keeps the calls already made and leaves `previous_alerts` unchanged, which is what the `Err` outcome of `Notifications.Poll` records.
- Notifications.AlertNotification: the title's mark and the id are stated, and `Notifications.MessageShortened` states the shortened message; the rest of the title (status and displayed type) is computed but not stated.
- MetAlerts.ConvertAll: its own contract gives only the length. `MetAlerts.ConvertAllAt` states the pointwise fact.
- Dedup.Build: its own contract gives only well-formedness. `Dedup.BuildClosedForm` states what the table holds.
- Notifications.Poll: its own contract gives only well-formedness of the snapshot. The lemmas after it (`Notifications.FirstSightNew`, `Notifications.EscalationUpgraded`, `Notifications.DisappearanceResolved` and others) state its outcomes.
- Cap.CapRecord: keys that only copy an input value or a constant are not in the record type, and no contract speaks of them: `trigger_level`, `ceiling`, `map_url` (all None), `danger_increases`, `danger_decreases`, `emergency_warning`, `entity_picture`, and for avalanches `avalanche_danger`, `avalanche_problems`, `avalanche_advices`, `snow_surface`, `current_weaklayers`, `latest_avalanche_activity`, `latest_observations`, `forecaster`, `danger_level_name`, `exposed_height` and `utm_*` (custom_components/norway_alerts/sensor.py:135-216).
- CurrentSensor.NativeRecord: keys that only copy an input value are not in the entry type, and no contract speaks of them: `danger_increases` and `danger_decreases` of every NVE entry; the avalanche entry's `utm_*`, `avalanche_*`, `emergency_warning`, `snow_surface`, `current_weaklayers`, `latest_*`, `forecaster`, `danger_level_name`, `mountain_weather` and `exposed_height` with its `ExposedHeight1`, then `ExposedHeightFill`, then 0 fallback; the Met.no entry's `instruction`, `consequences`, `certainty`, `severity`, `contact`, `county` and the other copied property keys (sensor.py:723-803).
- LegacySensor.LegacyRecord: `danger_increases` and `danger_decreases`, which only copy input values, are not in the entry type (custom_components/varsom/sensor.py:482-499).
- Avalanche.Convert: keys that only copy input values are not in the record type: `DangerLevel` ("Level n"), `PublishTime`, `_region_id`, the UTM coordinates, the avalanche text and list fields, `ExposedHeight*` and the raw `MountainWeather` (custom_components/norway_alerts/api.py:240-276 and its Varsom copies).
- The test alert's extra keys that no modelled operation reads are not in the record type: the emergency and next-warning fields and the fixed publication times.
- `varsom/api.py`'s county clients are the same code as the Norway Alerts ones. `CountyApi` models both.

## Findings

| source | as written | input that shows it | evidently intended | confidence | as-written member | corrected member |
|---|---|---|---|---|---|---|
| custom_components/norway_alerts/api.py:517-530 | `create_api` calls `MetAlertsAPI(latitude, longitude, lang)`, so `lang` fills the `county_id` slot and the client keeps its default language "en" | `create_api("metalerts", "", "", "59.91", "10.75", "no")` requests `...&lang=en` | pass `lang=lang`, so the client keeps the requested language | not executed | Factory.CreateApiAsWritten (exhibited by Factory.CreateApiDropsLanguage) | Factory.CreateApi |
| custom_components/norway_alerts/sensor.py:123 | `convert_nve_to_cap` tests `warning_type == "avalanche"`, but the current avalanche client tags its records "avalanches" (api.py:254) | a current-client avalanche record with a `MasterId`, in CAP mode | the record links to the avalanche bulletin and carries the region fields | not executed | Cap.ConvertNveToCapAsWritten (exhibited by Cap.AvalancheTagMismatch) | Cap.ConvertNveToCap |
| custom_components/norway_alerts/sensor.py:1043 | `extra_state_attributes` tests `warning_type == "avalanche"` for the URL (line 1043) and the avalanche fields (line 1105) | a current-client avalanche record with a `MasterId`, in native mode | the entry gets the avalanche fields and the bulletin URL | not executed | CurrentSensor.EntryAsWritten (exhibited by CurrentSensor.AvalancheEntryMismatch) | CurrentSensor.Entry |
| custom_components/norway_alerts/sensor.py:548 | the colour marks at line 548 and the check mark at line 584 are spelled as the emoji's UTF-8 bytes read as Windows-1252, e.g. "ðŸŸ¢" for 🟢 | any new alert at level "1" to "5", or any resolved alert: its title starts with the garbled text | titles start with 🟢, 🟡, 🟠, 🔴, ⚫, ⚪ and ✅ | not executed | Notifications.LevelEmojiAsWritten (exhibited by Notifications.LevelEmojiGarbled and Notifications.ResolvedMarkGarbled) | Notifications.LevelEmoji |
| custom_components/norway_alerts/sensor.py:1158 | `entity_picture` looks up `ACTIVITY_LEVEL_NAMES` with `native_value`, the integer count of active alerts, but the table's keys are level texts | any data with an active typed alert whose icon exists | look the colour up under the highest active level, as the Varsom sensor does | not executed | CurrentSensor.EntityPictureAsWritten (exhibited by CurrentSensor.EntityPictureMissing) | CurrentSensor.EntityPicture |
