# BearTrap intrusion-detection dashboard: a Dafny model

BearTrap is a small intrusion-detection dashboard. A Node server reads Suricata EVE
records. It normalises each recognised record into a canonical event, and keeps running
statistics: event and attack counters, byte counters, a 60-second window of recent
attacks, per-address counts, protocol and port tallies, and a geolocation cache. It
serves these over HTTP. When no log file is present it probes user-submitted URLs
instead. Each probe is classified by a fixed list of heuristics and adjusted by how many
security headers the response carries. A visitor beacon reports page visits, which are
classified by three suspicious-pattern tests. A React dashboard receives events over a
WebSocket. It keeps the newest 500 distinct events and filters them with six conjunctive
filters. It draws one map marker per source address, a severity bar chart, an
event-type pie chart, and the first five high and medium alerts.

The model has one Dafny module per concern:

- `Common`: options, results, severities, geolocation records, and the list operations
  the source uses (`filter`, `slice`, `new Set`, a stable sort by a numeric key).
- `Suricata`: the raw EVE record and `Normalize`.
- `Probe`: the probe classifier and the synthetic probe events.
- `Beacon`: the visitor classification.
- `UrlList`: class `UrlRegistry`, the submitted-URL list.
- `Stats`: class `Aggregator`, the server's mutable state. It holds every handler that
  reads or writes that state.
- `Feed`: the event as the dashboard receives it.
- `Dashboard`, `MapView`, `Charts` and `Alerts`: the four client components.

The server's state changes in place, so it is modelled as classes with `modifies`
clauses. Each state-changing method states its whole new state through its `ensures`,
the per-event ones through a `twostate` predicate, and keeps the `Aggregator.Valid` invariant:

- the address order lists each `topIps` key exactly once;
- `active_attacks` is the length of the window;
- the window is never longer than the attack total, which never exceeds the event total.

The client components compute values from their props, so they are functions. The filter
effect and the marker memo are loops in the source, so they are methods proved against
those functions.

Inputs the model takes as parameters:

- the current time;
- the random choices;
- URL-parsing verdicts;
- the outcomes of HTTP requests, DNS lookups and geolocation lookups;
- the result of the probe's regular-expression scan of a response body;
- serialised sizes.

## Model

| member | source | states |
|---|---|---|
| Suricata.Normalize | server/index.js:101-147 | Unknown kinds yield nothing, every recognised kind an event of that kind. Alert severity 1 is high, 2 medium, anything else low. HTTP, DNS and TLS records are info; flow records and alerts without an alert object are low. An HTTP record with host and path gets the URL `https://` on port 443 and `http://` otherwise. Byte counters come from the flow object whatever the kind. The time falls back to now; the source, destination and protocol to "unknown"; an HTTP record's method to "GET". The port is the record's, and the alert message is the signature exactly when an alert object is present. |
| Suricata.AlertSeverity | server/index.js:138-139 | High exactly for severity 1, medium exactly for 2, never info. |
| Suricata.AttackIffAlert | server/index.js:155 | For a normalised record, "alert or high or medium" holds exactly when the record is an alert. |
| Suricata.HostnameSources | server/index.js:115-134 | DNS takes its hostname from `rrname` and TLS from `sni`; flow and alert records carry no URL and no hostname. |
| Stats.Prune | server/index.js:165-168 | The pruned window holds exactly the entries younger than 60 000 ms at `now`, drawn from the window. |
| Stats.PruneLater | server/index.js:165-168 | Pruning at an earlier time, then at a later one, equals pruning once at the later time. |
| Stats.WindowBoundary | server/index.js:167 | An entry exactly 60 000 ms old is outside the window; of entries at 0, 30 s and 61 s pruned at 61 s, two remain. |
| Stats.Incr | server/index.js:179-180 | A missing key starts at 1, a present one is raised by one, and every other key is unchanged. |
| Stats.Touch | server/index.js:172-176 | The address entry is created when absent, its count raised by one and `last` overwritten, not maximised; other entries are unchanged. |
| Stats.TopIps | server/index.js:241-245 | At most 50 rows, sorted by count with the largest first, drawn from the entries; any row left out has a count no larger than the last row listed. |
| Stats.TopIpsTiesInInsertionOrder | server/index.js:242-243 | Rows with equal counts keep the order of the address list, which is the map's insertion order for keys that are not integer-like. |
| Stats.TopIpsFacts | server/index.js:241-245 | Rows are genuine map entries and name distinct addresses; an address left out has a count no larger than the 50th row's. |
| Stats.AvgBytesPerAttack | server/index.js:216 | Zero when there are no attacks, otherwise bytes divided by attacks rounded to the nearest integer. |
| Stats.MergeRecent | server/index.js:248-254 | The corrected events endpoint: at most 100 entries, newest first, drawn from the window and the buffer; an entry left out is no newer than the last one listed. |
| Stats.EventsHandlerAsWritten | server/index.js:248-254 | The handler fails, with an internal server error, exactly when `allEvents` is undeclared; with a declared buffer it answers `MergeRecent` of the window and that buffer, at most 100 entries newest first. |
| Stats.EventsAlwaysFail | server/index.js:250 | With the server's declarations, every request to the events endpoint ends in an internal server error. |
| Stats.CachedAfter | server/index.js:575-605 | A cache hit or a failed lookup leaves the cache unchanged; a successful lookup of an uncached address adds it. |
| Stats.Aggregator.constructor | server/index.js:25-40 | Monitoring starts on; every counter is zero and every map and list empty. |
| Stats.Aggregator.TouchIp | server/index.js:172-176 | The address entry is touched, and a new address joins the insertion order. |
| Stats.Aggregator.PushAttack | server/index.js:156-168 | One more attack; the entry is appended and the window pruned at `now`; `active_attacks` is then the window's length. |
| Stats.Aggregator.CountEvent | server/index.js:149-152 | One more event, and both bandwidth counters and the byte total raised. |
| Stats.Aggregator.Tally | server/index.js:148-180 | The whole bookkeeping of one counted event: counters, attack window when it is an attack, address entry, protocol and port. |
| Stats.Aggregator.TallyAndLocate | server/index.js:148-183 | The tally, then a geolocation lookup that updates the cache as `CachedAfter` says; the monitoring flag is unchanged. |
| Stats.Aggregator.Record | server/index.js:101-183 | While monitoring is off, or for an unrecognised kind, nothing changes. Otherwise the normalised event is counted under its source, as an attack exactly when it is one, and its source is looked up. |
| Stats.Aggregator.ReadStats | server/index.js:213-239 | The window is pruned and `active_attacks` refreshed before the report. Every reported field equals the corresponding state, uptime is in milliseconds and rounded seconds, and the unique-address count is the number of map entries. |
| Stats.Aggregator.TopIpList | server/index.js:241-245 | Exactly `TopIps` over the server's own map and address order, so ties keep that order, with every property of `TopIpsFacts`. |
| Stats.Aggregator.RecentEvents | server/index.js:248-254 | The corrected handler, `MergeRecent` over the window and the buffer: at most 100 entries, newest first, drawn from both; any entry left out is no newer than the 100th listed, which exists. |
| Stats.Aggregator.GeoProxy | server/index.js:256-297 | A cached address answers from the cache. Otherwise a successful lookup is cached and returned, and a failed one answers the geo-failed error for that address without caching; the cache then is as `CachedAfter` says. |
| Stats.Aggregator.MonitoringStatus | server/index.js:364-366 | Reports the monitoring flag. |
| Stats.Aggregator.ClearData | server/index.js:385-403 | Every counter is zero and every tally, the window and the cache are empty; the monitoring flag is kept. |
| Stats.ClearThenRead | server/index.js:385-403 | A stats read right after clearing reports every counter as zero and empty tallies. |
| Stats.Aggregator.StartMonitoring | server/index.js:369-374 | Monitoring is on. |
| Stats.Aggregator.StopMonitoring | server/index.js:377-382 | Monitoring is off. |
| Stats.Aggregator.GeoLookup | server/index.js:575-605 | A cached address answers from the cache. Otherwise a successful lookup is cached and returned, and a failure returns the unknown record without caching it. |
| Stats.Aggregator.ExpireGeo | server/index.js:596 | The hourly timer drops exactly that address from the cache. |
| Stats.Aggregator.TrackVisitor | server/index.js:406-480 | The visit is classified by its URL. It is counted under the client address with protocol HTTPS on port 443. The payload length goes into the byte total only. A suspicious visit is a high attack in the window. The client address is looked up. |
| Stats.Aggregator.ProbeAnswered | server/index.js:761-830 | The synthetic event is returned. It is counted under the resolved address, as an attack exactly when its severity is not info, and the destination is looked up. |
| Stats.Aggregator.CountProbe | server/index.js:795-830 | The state after counting a probe event, given the attack rule of line 817. |
| Stats.Aggregator.ProbeFailed | server/index.js:838-873 | The failure event is returned with one more event and one more attack, and a high entry from "0.0.0.0" in the window. There is no address, protocol, port or byte tally, and no lookup. |
| Stats.Aggregator.ProbeTick | server/index.js:633-877 | With monitoring off, with a log file present, or with no submitted URLs, nothing happens. Otherwise the picked URL is probed, and an answer or a failure is counted as the two methods above state. |
| Stats.UniqueKeysCount | server/index.js:215 | With distinct insertion-order keys, the number of unique addresses equals the number of map entries. |
| Probe.MissingCount | server/index.js:670-679 | The number of the five security headers that are absent: at most 5, zero exactly when all are present, five exactly when none is. |
| Probe.Triage | server/index.js:706-743 | The type is alert exactly when the body is suspicious, the status is at least 400 or the response exceeds 1 000 000 bytes. Severity is info exactly when there is no message. |
| Probe.TriageOrder | server/index.js:724-743 | First match wins: suspicious is high, 4xx medium, 5xx high, large medium, slow low, otherwise info. |
| Probe.Downgrade | server/index.js:748-750 | Exactly one level down. |
| Probe.ExcellentHeadersDowngrade | server/index.js:746-754 | With all five headers, a non-info verdict drops exactly one level and its message is annotated; an info verdict is kept. |
| Probe.PoorHeadersUpgrade | server/index.js:755-759 | With four or five headers missing, an info verdict becomes low with a missing-headers message; others are kept. |
| Probe.MiddlingHeadersNeutral | server/index.js:745-759 | With one to three missing headers, the verdict is the heuristics' own. |
| Probe.InfoExactly | server/index.js:706-759 | The final severity is info exactly when nothing triggered and under four headers are missing, or when only the slow-response rule fired and all headers are present. |
| Probe.TargetPort | server/index.js:646 | The text of the explicit port when the URL names one; otherwise the number 443 for HTTPS and 80 for HTTP. |
| Probe.Synthesize | server/index.js:761-792 | Severity, alert type and message are the final verdict of the classifier on the response. The type is attack exactly when the severity is not info. The port is `TargetPort`, the byte counters are the request and response sizes, and time, URL, source equal to destination equal to the resolved address, the missing-header count, the SSL flag and the protocol are set as the code sets them. |
| Probe.FailureEvent | server/index.js:843-859 | A high alert typed attack whose message reports the connection error. |
| Probe.LowProbesCountAsAttacks | server/index.js:817 | A probe event counts as an attack exactly when its severity is not info, so low probes count too. |
| Beacon.ClassifyVisit | server/index.js:434-446 | Suspicious exactly when a pattern matches. A suspicious visit is a high alert with the fixed message; otherwise it is info HTTP traffic. |
| Beacon.CaseInsensitive | server/index.js:434-438 | Classification ignores ASCII case. |
| Beacon.AbsentUrlIsClean | server/index.js:434-446 | A visit without a URL, tested as "undefined", is never suspicious. |
| Beacon.AngleBracketIsSuspicious | server/index.js:438 | Any `<` in the URL makes the visit suspicious. |
| UrlList.FindIndex | server/index.js:336 | No index exactly when no entry has the id; otherwise the first entry with that id. |
| UrlList.RecentFirst | server/index.js:329-331 | The last 20 entries, newest first. |
| UrlList.UrlRegistry.constructor | server/index.js:37 | The list starts empty. |
| UrlList.UrlRegistry.Submit | server/index.js:300-326 | A missing, non-string or empty URL is rejected as invalid, and an unparsable one as badly formed; the list is then unchanged. Otherwise the entry is appended and returned. |
| UrlList.UrlRegistry.Recent | server/index.js:329-331 | The last 20 entries, newest first. |
| UrlList.UrlRegistry.Remove | server/index.js:334-361 | Fails with not-found exactly when no entry has the id, leaving the list unchanged. Otherwise it returns the first matching entry and removes exactly that one. |
| UrlList.RemovalKeepsOthers | server/index.js:342 | Removal drops one entry and keeps the others in order. |
| Dashboard.OnMessage | src/components/Dashboard.jsx:61-69 | Other message types and duplicates (same time, source and URL) leave the list unchanged. A new event goes to the front, and the list is capped at 500. |
| Dashboard.OnMessageBounded | src/components/Dashboard.jsx:68 | The updater keeps the list within 500. |
| Dashboard.OnMessageUnduplicated | src/components/Dashboard.jsx:64-67 | The updater never admits a second copy of an event. |
| Dashboard.ReplayInvariant | src/components/Dashboard.jsx:57-72 | After any run of messages from an empty list, the list is within 500 and duplicate-free. |
| Dashboard.ClearFilters | src/components/Dashboard.jsx:135-137 | Every filter is "all". |
| Dashboard.ParseInt | src/components/Dashboard.jsx:103 | NaN exactly when no digits follow the optional sign. |
| Dashboard.ParseNumberString | src/components/Dashboard.jsx:103 | Parsing a port's option value gives the port back. |
| Dashboard.NarrowBy | src/components/Dashboard.jsx:99-126 | Applying one active filter to the list that passed the earlier ones gives the list that passes them too. |
| Dashboard.ApplyFilters | src/components/Dashboard.jsx:96-129 | The filtered list is exactly the events passing every active filter, in order. |
| Dashboard.ClearedFiltersKeepAll | src/components/Dashboard.jsx:135-137 | With the filters cleared, every event is shown. |
| Dashboard.PortFilterSelectsPort | src/components/Dashboard.jsx:102-104 | A port filter set to the option value of a port number keeps exactly the events whose port is that number. |
| Dashboard.TextPortNeverSelected | src/components/Dashboard.jsx:102-104 | An event whose port arrived as text fails every active port filter, so it is hidden whenever a port is chosen. |
| Dashboard.SslFiltersComplementary | src/components/Dashboard.jsx:111-117 | Each event passes exactly one of the secure and insecure filters. |
| Dashboard.ScoreBuckets | src/components/Dashboard.jsx:118-126 | Excellent means zero missing headers, good one or two, poor three or more. |
| Dashboard.UniqueStrings | src/components/Dashboard.jsx:313 | Each non-empty value exactly once, and nothing else. |
| Dashboard.UniquePorts | src/components/Dashboard.jsx:314 | Ascending by port number, each value once, a number appearing twice only as a number and as its text; exactly the truthy ports of the events. |
| Dashboard.TruthyPorts | src/components/Dashboard.jsx:314 | Before sorting: each truthy port (any text, or a non-zero number) exactly once, and nothing else. |
| Dashboard.PortOfferedTwice | src/components/Dashboard.jsx:314 | When a non-zero port occurs both as a number and as text, the port options list it twice. |
| MapView.Markers | src/components/MapView.jsx:6-20 | The loop computes `MarkerList`. |
| MapView.MarkersFacts | src/components/MapView.jsx:6-20 | At most 100 markers, for distinct addresses. They cover the first 100 placeable addresses in order of first appearance, and each is the latest placeable event of its address. |
| MapView.KeptIsLatest | src/components/MapView.jsx:11-15 | The kept event of an address is placeable and of that address. It is strictly newer than every earlier one of that address, and no older than every later one. |
| MapView.MarkedIffPlaceable | src/components/MapView.jsx:11 | An address has a marker exactly when one of its events has a position off the zero lines. |
| MapView.OrderIsFirstAppearance | src/components/MapView.jsx:8-19 | The map keeps its keys in order of first appearance. |
| MapView.MarkerColour | src/components/MapView.jsx:29-30 | Red exactly for high, orange exactly for medium, cyan otherwise. |
| MapView.MissingSeverityIsLow | src/components/MapView.jsx:29 | A marker without severity is coloured like a low one. |
| Charts.Tally | src/components/ChartsPanel.jsx:6-10 | The keys are those seen, each with its number of occurrences. |
| Charts.SeverityCountsTotal | src/components/ChartsPanel.jsx:6-10 | Over the distinct severities, the counts add up to the number of events. |
| Charts.SeverityData | src/components/ChartsPanel.jsx:12-17 | At most four bars, none empty. |
| Charts.SeverityDataFacts | src/components/ChartsPanel.jsx:12-17 | Each bar counts its severity, with none counted as info, and the shown bars keep the fixed order. |
| Charts.BarsCoverEvents | src/components/ChartsPanel.jsx:6-17 | With known severities, the bars add up to the number of events. |
| Charts.TypeData | src/components/ChartsPanel.jsx:20-29 | One slice per distinct type key in order of first appearance, named by the upper-cased key, valued by its count. |
| Charts.TypeDataTotal | src/components/ChartsPanel.jsx:20-29 | The slices add up to the number of events. |
| Charts.CaseVariantsShareName | src/components/ChartsPanel.jsx:20-29 | Two distinct type keys differing only in case give two slices of `TypeData` with the same name, each valued by its own key's non-zero count. |
| Charts.HttpCaseVariants | src/components/ChartsPanel.jsx:27 | "http" and "HTTP" are distinct keys with the same upper-cased name. |
| Alerts.HighAlerts | src/components/AlertsPanel.jsx:4 | The first min(5, n) high events, in order. |
| Alerts.MediumAlerts | src/components/AlertsPanel.jsx:5 | The first min(5, n) medium events, in order. |
| Alerts.AlertListsShape | src/components/AlertsPanel.jsx:4-5 | At most five each, of the right severity, drawn from the list. |
| Alerts.AlertListsDisjoint | src/components/AlertsPanel.jsx:4-5 | No event appears in both lists. |
| Alerts.UnlistedHighComesLater | src/components/AlertsPanel.jsx:4 | An unlisted high event implies the high list is full, and returns its index among the high events, which is past the fifth. |
| Alerts.AlertsMatchChart | src/components/AlertsPanel.jsx:4-5 | Each list length is min(5, the severity chart's count for it). |
| Common.SortDescStable | server/index.js:242-243 | The sort keeps the relative order of equal keys. |
| Common.TopN | server/index.js:242-244 | Sorted, at most n, a sub-multiset; any element left out has a key no larger than the last one kept. |

## Left out

- Tailing the Suricata log file, and reading it on start: file I/O. The model receives each decoded record.
- Broadcasting over the WebSocket, the dashboard's reconnect timer and its periodic polling: network I/O and timers.
- The HTTP request, DNS lookup and geolocation service calls: external. Their outcomes are parameters.
- Stats.Aggregator.Record and Stats.Aggregator.ProbeAnswered: the asynchronous geolocation results are applied at once, so a lookup still pending when a later event arrives is not modelled.
- Stats.Aggregator.TrackVisitor: the source looks up the address before counting. The model counts first. The two steps touch disjoint state, so the resulting state is the same.
- Stats.Aggregator.TrackVisitor: the catch path that answers 500 when the handler throws is not modelled.
- Beacon.SuspiciousUrl: the regular expressions become substring tests after ASCII lower-casing; full Unicode case folding is not modelled.
- Probe.Triage: the probe's scan of the body is given as a flag, because the patterns are applied to serialised response data.
- Randomness: the submitted URL picked and the random part of an id are parameters.
- The clock: `Date.now()` is a parameter, and one call uses one value of it throughout.
- URL parsing: `new URL(...)` becomes a validity flag in Submit and a parsed `Probe.Target` in the probe.
- Probe.FailureEvent: the hostname comes from the parsed target. When the URL does not parse, the catch block's own `new URL` would throw; that path is not modelled.
- Alert messages: the texts are kept as the facts they report. The surrounding template strings are not modelled.
- Request and response sizes are the serialised JSON lengths, given as parameters.
- The uptime string is not modelled; the uptime is kept in milliseconds and rounded seconds.
- Client events: an absent string field is "" and an absent port 0. The dashboard's duplicate test therefore treats a null and an undefined url alike.
- Dashboard.ParseInt: leading whitespace and the hexadecimal forms of `parseInt` are not modelled. Option values are decimal strings.
- Charts.Upper: upper-casing is ASCII only.
- Charts.TypeData: keys are listed in first-appearance order. JavaScript lists integer-like object keys first, and that ordering is not modelled.
- UrlList.UrlRegistry.Remove: the id is compared with real equality. The source uses `==`, which also matches a numeric string, and that coercion is not modelled.
- Stats.Aggregator.TrackVisitor, Stats.Aggregator.Record and Stats.Aggregator.GeoLookup: the maps are plain JavaScript objects, and a key naming a member of `Object.prototype` behaves differently there. Such a key can come from the first X-Forwarded-For entry (server/index.js:409) or from a record's address or protocol. With "constructor", `geoCache[ip]` finds the inherited function, which is returned and nothing is cached (server/index.js:577-578), and `topIps[ip] || {count:0, last:0}` keeps that function and sets its `count` to NaN (server/index.js:456-457; likewise at 172-176). With "__proto__", the address never becomes an own key, so `unique_ips` and the top-address list never show it. The model treats every such key as an ordinary one: it looks the address up, caches it, counts it from 1 and lists it.
- UrlList.UrlRegistry.Submit: the id `Date.now() + Math.random()` (server/index.js:315) is a double, which near today's clock resolves steps of only 2^-12 ms. Two submissions in the same millisecond can therefore get equal ids, and `Remove` then takes the earlier one. The model's id is the exact real `now + jitter`, so distinct jitters always give distinct ids.
- Stats.Aggregator.GeoProxy: the address is a parameter; the fallback to the request's own address when `ip` is absent is not modelled. The cached record is reduced to the fields of `Geo`, and the failure's message text is left out.
- Stats.TopIpsTiesInInsertionOrder: JavaScript's `Object.entries` lists integer-like keys first, in ascending numeric order, before the other keys in insertion order (server/index.js:242). An address taken from X-Forwarded-For (server/index.js:409) can be such a key, for example "7"; the model lists every key in insertion order, so its tie order is wrong for such keys.
- Stats.TopIps and Stats.Aggregator.TopIpList: the same integer-like key ordering of `Object.entries` is not modelled.
- Suricata.Normalize: a timestamp that is present but unparsable makes `new Date(x).getTime()` NaN (server/index.js:160, 176, 188); the model's time is always an integer. In the source such an attack still counts in `total_attacks`, sets that address's `last` to NaN, and leaves the window at the next prune because every comparison with NaN is false.
- Probe.TargetPort: the explicit port's text is taken to be the decimal of its number, as the URL parser serialises it, and a URL naming its scheme's default port is parsed as naming none.
- The failure path of the probe never carries the "(Security headers: Excellent)" annotation. That follows the code, whose catch block builds its own event.
- Rendering, styling, the PDF report and the extension popup: presentation only.

## Findings

| source | as written | input that shows it | evidently intended | confidence | as-written member | corrected member |
|---|---|---|---|---|---|---|
| server/index.js:248-254 | GET /api/events sorts and slices `[...recentAttacks, ...allEvents]`, but `allEvents` is declared nowhere, so the handler throws a ReferenceError and Express answers with status 500. | any GET /api/events request | return the window merged with an event buffer: newest first, at most 100 | not executed | Stats.EventsHandlerAsWritten, Stats.EventsAlwaysFail | Stats.MergeRecent |
