/** The server's mutable statistics (server/index.js:25-40) and every handler that
    reads or writes them: `processSuricataEvent`, GET /api/stats, GET /api/top-ips,
    GET /api/events, POST /api/clear-data, the start/stop switches, the visitor
    beacon, the geolocation cache and the probe timer's bookkeeping. `Date.now()` is
    the parameter `now`; each call uses one value of it for every reading it takes. */
module Stats {
  import opened Common
  import opened Suricata
  import Probe
  import Beacon
  import UrlList

  /** Width of the active-attack window, in milliseconds. */
  const WindowMs: int := 60000
  /** Length cap of GET /api/top-ips. */
  const TopIpsLimit: nat := 50
  /** Length cap of GET /api/events. */
  const RecentEventsLimit: nat := 100

  /** The `stats` record. */
  datatype Counters = Counters(
    activeAttacks: nat,
    totalEvents: nat,
    totalAttacks: nat,
    bandwidthIn: int,
    bandwidthOut: int,
    bytesTotal: int)

  const ZeroCounters: Counters := Counters(0, 0, 0, 0, 0, 0)

  /** A `topIps` value: how often the address was seen and when last. */
  datatype TopIp = TopIp(count: nat, last: int)

  /** A `recentAttacks` entry. */
  datatype AttackEntry = AttackEntry(ts: int, src: string, severity: Severity)

  /** One row of GET /api/top-ips. */
  datatype IpRank = IpRank(ip: string, count: nat, last: int)

  /** The body of GET /api/stats. */
  datatype Snapshot = Snapshot(
    uptimeMs: int,
    uptimeSeconds: int,
    activeAttacks: nat,
    totalEvents: nat,
    totalAttacks: nat,
    uniqueIps: nat,
    bandwidthIn: int,
    bandwidthOut: int,
    bytesTotal: int,
    avgBytesPerAttack: int,
    protocolCounts: map<string, nat>,
    portCounts: map<int, nat>,
    isMonitoring: bool)

  /** `now - a.ts < 60000`: the entry is younger than the window. */
  predicate InWindow(a: AttackEntry, now: int)
  {
    now - a.ts < WindowMs
  }

  function WindowAt(now: int): AttackEntry -> bool
  {
    a => InWindow(a, now)
  }

  /** `recentAttacks.filter(a => now - a.ts < 60000)`. */
  function Prune(w: seq<AttackEntry>, now: int): (r: seq<AttackEntry>)
    ensures |r| <= |w|
    ensures forall i :: 0 <= i < |r| ==> InWindow(r[i], now) && r[i] in w
    ensures forall i :: 0 <= i < |w| && InWindow(w[i], now) ==> w[i] in r
  {
    FilterMembers(w, WindowAt(now));
    Filter(w, WindowAt(now))
  }

  /** Pruning lazily is sound: an intermediate prune at an earlier time never changes
      what a later prune leaves. */
  lemma {:induction false} PruneLater(w: seq<AttackEntry>, t1: int, t2: int)
    requires t1 <= t2
    ensures Prune(Prune(w, t1), t2) == Prune(w, t2)
    decreases |w|
  {
    if w != [] {
      var init, last := w[..|w| - 1], w[|w| - 1];
      PruneLater(init, t1, t2);
      var p1 := WindowAt(t1);
      FilterConcat(Filter(init, p1), if p1(last) then [last] else [], WindowAt(t2));
      FilterSingle(last, WindowAt(t2));
      if !p1(last) {
        assert Filter([], WindowAt(t2)) == [];
      }
    }
  }

  /** `m[k] = (m[k] || 0) + 1`. */
  function Incr<K(!new)>(m: map<K, nat>, k: K): (r: map<K, nat>)
    ensures r.Keys == m.Keys + {k}
    ensures r[k] == (if k in m then m[k] else 0) + 1
    ensures forall j :: j in m && j != k ==> r[j] == m[j]
  {
    m[k := if k in m then m[k] + 1 else 1]
  }

  /** Creating the entry when absent, `count += 1` and `last = ts` (server/index.js:172-176):
      `last` is overwritten, not maximised. */
  function Touch(m: map<string, TopIp>, ip: string, ts: int): (r: map<string, TopIp>)
    ensures r.Keys == m.Keys + {ip}
    ensures r[ip] == TopIp((if ip in m then m[ip].count else 0) + 1, ts)
    ensures forall j :: j in m && j != ip ==> r[j] == m[j]
  {
    m[ip := TopIp((if ip in m then m[ip].count else 0) + 1, ts)]
  }

  /** `Object.entries(topIps)` in insertion order, as rows. */
  function RankList(order: seq<string>, m: map<string, TopIp>): (r: seq<IpRank>)
    requires forall i :: 0 <= i < |order| ==> order[i] in m
    ensures |r| == |order|
    ensures forall i :: 0 <= i < |order| ==> r[i] == IpRank(order[i], m[order[i]].count, m[order[i]].last)
  {
    seq(|order|, i requires 0 <= i < |order| => IpRank(order[i], m[order[i]].count, m[order[i]].last))
  }

  function CountOf(e: IpRank): int { e.count }

  /** GET /api/top-ips: sorted by count, largest first, at most 50. */
  function TopIps(order: seq<string>, m: map<string, TopIp>): (r: seq<IpRank>)
    requires forall i :: 0 <= i < |order| ==> order[i] in m
    ensures |r| == Min(TopIpsLimit, |order|)
    ensures SortedDesc(r, CountOf)
    ensures multiset(r) <= multiset(RankList(order, m))
    ensures forall i :: 0 <= i < |order| && RankList(order, m)[i] !in r ==>
              |r| == TopIpsLimit && m[order[i]].count <= r[TopIpsLimit - 1].count
  {
    TopN(RankList(order, m), CountOf, TopIpsLimit)
  }

  /** Equal counts keep the insertion order of the map: the sort has no secondary key. */
  lemma TopIpsTiesInInsertionOrder(order: seq<string>, m: map<string, TopIp>, c: int)
    requires forall i :: 0 <= i < |order| ==> order[i] in m
    ensures Filter(SortDesc(RankList(order, m), CountOf), KeyIs(CountOf, c))
         == Filter(RankList(order, m), KeyIs(CountOf, c))
  {
    SortDescStable(RankList(order, m), CountOf, c);
  }

  /** Over the keys of a map listed once each, the top-IP rows are genuine entries of the
      map, name distinct addresses, and every address left out has a count no larger
      than the last one listed. */
  lemma TopIpsFacts(order: seq<string>, m: map<string, TopIp>)
    requires NoDups(order)
    requires forall i :: 0 <= i < |order| ==> order[i] in m
    requires forall ip :: ip in m ==> ip in order
    ensures var r := TopIps(order, m);
      && (forall i :: 0 <= i < |r| ==> r[i].ip in m && m[r[i].ip] == TopIp(r[i].count, r[i].last))
      && (forall i, j :: 0 <= i < j < |r| ==> r[i].ip != r[j].ip)
      && (forall ip :: ip in m && IpRank(ip, m[ip].count, m[ip].last) !in r ==>
            |r| == TopIpsLimit && m[ip].count <= r[TopIpsLimit - 1].count)
  {
    var r := TopIps(order, m);
    var all := RankList(order, m);
    forall i | 0 <= i < |r|
      ensures r[i].ip in m && m[r[i].ip] == TopIp(r[i].count, r[i].last)
    {
      assert r[i] in multiset(all);
      var k :| 0 <= k < |all| && all[k] == r[i];
    }
    forall i, j | 0 <= i < j < |r| ensures r[i].ip != r[j].ip {
      RankListDistinct(order, m, r, i, j);
    }
    forall ip | ip in m && IpRank(ip, m[ip].count, m[ip].last) !in r
      ensures |r| == TopIpsLimit && m[ip].count <= r[TopIpsLimit - 1].count
    {
      var k :| 0 <= k < |order| && order[k] == ip;
      assert all[k] == IpRank(ip, m[ip].count, m[ip].last);
    }
  }

  /** `stats.total_attacks > 0 ? Math.round(stats.bytes_total / stats.total_attacks) : 0`. */
  function AvgBytesPerAttack(bytesTotal: int, totalAttacks: nat): (r: int)
    ensures totalAttacks == 0 ==> r == 0
    ensures totalAttacks > 0 ==>
      2 * totalAttacks * r - totalAttacks <= 2 * bytesTotal < 2 * totalAttacks * r + totalAttacks
  {
    if totalAttacks > 0 then RoundDiv(bytesTotal, totalAttacks) else 0
  }

  function TsOf(a: AttackEntry): int { a.ts }

  /** What GET /api/events evidently means to return: the window and a general event
      buffer merged, newest first, at most 100. */
  function MergeRecent(window: seq<AttackEntry>, buffer: seq<AttackEntry>): (r: seq<AttackEntry>)
    ensures |r| == Min(RecentEventsLimit, |window| + |buffer|)
    ensures SortedDesc(r, TsOf)
    ensures multiset(r) <= multiset(window + buffer)
    ensures forall i :: 0 <= i < |window + buffer| && (window + buffer)[i] !in r ==>
              |r| == RecentEventsLimit && (window + buffer)[i].ts <= r[RecentEventsLimit - 1].ts
  {
    TopN(window + buffer, TsOf, RecentEventsLimit)
  }

  /** A name the server reads: declared with a value, or never declared. */
  datatype Binding<T> = Undeclared | Declared(value: T)

  datatype HttpError = InternalServerError

  /** server/index.js reads `allEvents` at line 250 but declares it nowhere. */
  const AllEventsBinding: Binding<seq<AttackEntry>> := Undeclared

  /** GET /api/events as written: reading an undeclared name throws, and Express
      answers the request with status 500. */
  function EventsHandlerAsWritten(window: seq<AttackEntry>, allEvents: Binding<seq<AttackEntry>>)
    : (r: Result<seq<AttackEntry>, HttpError>)
    ensures allEvents.Undeclared? <==> r.Failure?
    ensures r.Failure? ==> r.error == InternalServerError
    ensures r.Success? ==> r.value == MergeRecent(window, allEvents.value)
    ensures r.Success? ==> |r.value| == Min(RecentEventsLimit, |window| + |allEvents.value|)
    ensures r.Success? ==> SortedDesc(r.value, TsOf)
  {
    if allEvents.Undeclared? then Failure(InternalServerError)
    else Success(MergeRecent(window, allEvents.value))
  }

  /** With the server's bindings the handler fails on every request, whatever the window. */
  lemma EventsAlwaysFail(window: seq<AttackEntry>)
    ensures EventsHandlerAsWritten(window, AllEventsBinding) == Failure(InternalServerError)
  {
  }

  /** The cache after a `getGeoLocation(ip)` whose external lookup answered `fetched`:
      a hit leaves it alone, a successful lookup adds the address, a failure adds nothing. */
  function CachedAfter(cache: map<string, Geo>, ip: string, fetched: Option<Geo>): (r: map<string, Geo>)
    ensures ip in cache || fetched.None? ==> r == cache
    ensures ip !in cache && fetched.Some? ==> r == cache[ip := fetched.value]
  {
    if ip in cache || fetched.None? then cache else cache[ip := fetched.value]
  }

  /** The error body of GET /api/geo. */
  datatype GeoError = GeoFailed(ip: string)

  /** The outcome of the probe's request, DNS lookup included. */
  datatype ProbeOutcome =
    | Answered(resolved: Option<string>, resp: Probe.Response)
    | RequestFailed(error: string)

  class Aggregator {
    var monitoring: bool
    const startedAt: int
    var stats: Counters
    var topIps: map<string, TopIp>
    /** The keys of `topIps` in insertion order, the order `Object.entries` lists them in. */
    var ipOrder: seq<string>
    var protocolCounts: map<string, nat>
    var portCounts: map<int, nat>
    var recentAttacks: seq<AttackEntry>
    var geoCache: map<string, Geo>

    ghost predicate Valid()
      reads this`ipOrder, this`topIps, this`stats, this`recentAttacks
    {
      && NoDups(ipOrder)
      && (forall i :: 0 <= i < |ipOrder| ==> ipOrder[i] in topIps)
      && (forall ip :: ip in topIps ==> ip in ipOrder)
      && (forall ip :: ip in topIps ==> topIps[ip].count >= 1)
      && stats.activeAttacks == |recentAttacks|
      && |recentAttacks| <= stats.totalAttacks <= stats.totalEvents
    }

    constructor (startedAt: int)
      ensures Valid()
      ensures this.startedAt == startedAt && monitoring
      ensures stats == ZeroCounters && topIps == map[] && ipOrder == []
      ensures protocolCounts == map[] && portCounts == map[] && recentAttacks == [] && geoCache == map[]
    {
      this.startedAt := startedAt;
      monitoring := true;
      stats := ZeroCounters;
      topIps := map[];
      ipOrder := [];
      protocolCounts := map[];
      portCounts := map[];
      recentAttacks := [];
      geoCache := map[];
    }

    method TouchIp(ip: string, ts: int)
      requires Valid()
      modifies this`topIps, this`ipOrder
      ensures Valid()
      ensures topIps == Touch(old(topIps), ip, ts)
      ensures ipOrder == if ip in old(topIps) then old(ipOrder) else old(ipOrder) + [ip]
    {
      if ip !in topIps {
        ipOrder := ipOrder + [ip];
      }
      topIps := Touch(topIps, ip, ts);
    }

    /** Counting an attack: `total_attacks += 1`, push, prune, `active_attacks = length`. */
    method PushAttack(entry: AttackEntry, now: int)
      requires Valid() && stats.totalAttacks < stats.totalEvents
      modifies this`stats, this`recentAttacks
      ensures Valid()
      ensures recentAttacks == Prune(old(recentAttacks) + [entry], now)
      ensures stats == old(stats).(totalAttacks := old(stats).totalAttacks + 1,
                                   activeAttacks := |recentAttacks|)
    {
      stats := stats.(totalAttacks := stats.totalAttacks + 1);
      recentAttacks := Prune(recentAttacks + [entry], now);
      stats := stats.(activeAttacks := |recentAttacks|);
    }

    /** The bookkeeping every counted event shares, as a relation between the state
        before and after: one more event, the byte counters raised, the per-address entry
        touched, the protocol and port tallied and, for an attack, one more attack, the
        entry appended to the window and the window pruned at `now`. */
    twostate predicate Tallied(src: string, ts: int, proto: string, port: int, bandIn: int,
                               bandOut: int, bytes: int, attack: Option<AttackEntry>, now: int)
      reads this`stats, this`recentAttacks, this`topIps, this`ipOrder, this`protocolCounts, this`portCounts
    {
      Counted(bandIn, bandOut, bytes, attack, now) && SourceTallied(src, ts, proto, port)
    }

    /** The counters and the attack window after one event. */
    twostate predicate Counted(bandIn: int, bandOut: int, bytes: int, attack: Option<AttackEntry>, now: int)
      reads this`stats, this`recentAttacks
    {
      && recentAttacks == (if attack.Some? then Prune(old(recentAttacks) + [attack.value], now)
                           else old(recentAttacks))
      && stats == Counters(
           activeAttacks := if attack.Some? then |recentAttacks| else old(stats.activeAttacks),
           totalEvents := old(stats.totalEvents) + 1,
           totalAttacks := old(stats.totalAttacks) + (if attack.Some? then 1 else 0),
           bandwidthIn := old(stats.bandwidthIn) + bandIn,
           bandwidthOut := old(stats.bandwidthOut) + bandOut,
           bytesTotal := old(stats.bytesTotal) + bytes)
    }

    /** The per-address entry, the protocol and the port after one event. */
    twostate predicate SourceTallied(src: string, ts: int, proto: string, port: int)
      reads this`topIps, this`ipOrder, this`protocolCounts, this`portCounts
    {
      && topIps == Touch(old(topIps), src, ts)
      && ipOrder == (if src in old(topIps) then old(ipOrder) else old(ipOrder) + [src])
      && protocolCounts == Incr(old(protocolCounts), proto)
      && portCounts == Incr(old(portCounts), port)
    }

    method Tally(src: string, ts: int, proto: string, port: int, bandIn: int, bandOut: int,
                 bytes: int, attack: Option<AttackEntry>, now: int)
      requires Valid()
      modifies this`stats, this`topIps, this`ipOrder, this`protocolCounts, this`portCounts,
               this`recentAttacks
      ensures Valid()
      ensures Tallied(src, ts, proto, port, bandIn, bandOut, bytes, attack, now)
    {
      CountCounters(bandIn, bandOut, bytes, attack, now);
      TallySource(src, ts, proto, port);
    }

    method CountCounters(bandIn: int, bandOut: int, bytes: int, attack: Option<AttackEntry>, now: int)
      requires Valid()
      modifies this`stats, this`recentAttacks
      ensures Valid()
      ensures Counted(bandIn, bandOut, bytes, attack, now)
    {
      CountEvent(bandIn, bandOut, bytes);
      if attack.Some? {
        PushAttack(attack.value, now);
      }
    }

    method TallySource(src: string, ts: int, proto: string, port: int)
      requires Valid()
      modifies this`topIps, this`ipOrder, this`protocolCounts, this`portCounts
      ensures Valid()
      ensures SourceTallied(src, ts, proto, port)
    {
      TouchIp(src, ts);
      protocolCounts := Incr(protocolCounts, proto);
      portCounts := Incr(portCounts, port);
    }

    /** `total_events += 1` and the byte counters raised. */
    method CountEvent(bandIn: int, bandOut: int, bytes: int)
      requires Valid()
      modifies this`stats
      ensures Valid()
      ensures stats == old(stats).(totalEvents := old(stats.totalEvents) + 1,
                                   bandwidthIn := old(stats.bandwidthIn) + bandIn,
                                   bandwidthOut := old(stats.bandwidthOut) + bandOut,
                                   bytesTotal := old(stats.bytesTotal) + bytes)
    {
      stats := stats.(totalEvents := stats.totalEvents + 1,
                      bandwidthIn := stats.bandwidthIn + bandIn,
                      bandwidthOut := stats.bandwidthOut + bandOut,
                      bytesTotal := stats.bytesTotal + bytes);
    }

    /** The state after a counted event whose geolocation was looked up for `geoIp`:
        the monitoring flag as it was, the cache after the lookup, and the event tallied. */
    twostate predicate Recorded(src: string, ts: int, proto: string, port: int, bandIn: int,
                                bandOut: int, bytes: int, attack: Option<AttackEntry>, now: int,
                                geoIp: string, fetched: Option<Geo>)
      reads this
    {
      && monitoring == old(monitoring)
      && geoCache == CachedAfter(old(geoCache), geoIp, fetched)
      && Tallied(src, ts, proto, port, bandIn, bandOut, bytes, attack, now)
    }

    /** The tally, then the geolocation lookup of `geoIp`. */
    method TallyAndLocate(src: string, ts: int, proto: string, port: int, bandIn: int,
                          bandOut: int, bytes: int, attack: Option<AttackEntry>, now: int,
                          geoIp: string, fetched: Option<Geo>)
      requires Valid()
      modifies this
      ensures Valid()
      ensures Recorded(src, ts, proto, port, bandIn, bandOut, bytes, attack, now, geoIp, fetched)
    {
      Tally(src, ts, proto, port, bandIn, bandOut, bytes, attack, now);
      var _ := GeoLookup(geoIp, fetched);
    }

    /** The state after a normalised Suricata event was counted: tallied under its
        source, as an attack when it is one, and its source looked up. */
    twostate predicate EventCounted(e: Event, now: int, fetched: Option<Geo>)
      reads this
    {
      Recorded(e.src, e.ts, e.proto, e.port, e.bytesIn, e.bytesOut, e.bytesIn + e.bytesOut,
               if IsAttack(e) then Some(AttackEntry(e.ts, e.src, e.severity)) else None, now,
               e.src, fetched)
    }

    /** `processSuricataEvent` (server/index.js:101-180). */
    method Record(raw: RawEvent, now: int, fetched: Option<Geo>)
      requires Valid()
      modifies this
      ensures Valid()
      ensures !old(monitoring) || raw.eventType.Unknown? ==> unchanged(this)
      ensures old(monitoring) && raw.eventType.Known? ==>
        monitoring && EventCounted(Normalize(raw, now).value, now, fetched)
    {
      if !monitoring {
        return;
      }
      var normalized := Normalize(raw, now);
      if normalized.None? {
        return;
      }
      CountNormalized(normalized.value, now, fetched);
    }

    /** Lines 148-183 of server/index.js: the counters, the attack window when the event
        is an attack, and the source's entry, then the source's geolocation. */
    method CountNormalized(e: Event, now: int, fetched: Option<Geo>)
      requires Valid()
      modifies this
      ensures Valid()
      ensures EventCounted(e, now, fetched)
    {
      TallyAndLocate(e.src, e.ts, e.proto, e.port, e.bytesIn, e.bytesOut, e.bytesIn + e.bytesOut,
                     if IsAttack(e) then Some(AttackEntry(e.ts, e.src, e.severity)) else None, now,
                     e.src, fetched);
    }

    /** GET /api/stats (server/index.js:213-239): prunes the window, then reports. */
    method ReadStats(now: int) returns (s: Snapshot)
      requires Valid()
      modifies this`stats, this`recentAttacks
      ensures Valid()
      ensures recentAttacks == Prune(old(recentAttacks), now)
      ensures stats == old(stats).(activeAttacks := |recentAttacks|)
      ensures s.activeAttacks == |recentAttacks|
      ensures forall i :: 0 <= i < |recentAttacks| ==> now - recentAttacks[i].ts < WindowMs
      ensures s.uptimeMs == now - startedAt && s.uptimeSeconds == RoundDiv(now - startedAt, 1000)
      ensures s.totalEvents == stats.totalEvents && s.totalAttacks == stats.totalAttacks
      ensures s.uniqueIps == |topIps|
      ensures s.bandwidthIn == stats.bandwidthIn && s.bandwidthOut == stats.bandwidthOut
      ensures s.bytesTotal == stats.bytesTotal
      ensures s.avgBytesPerAttack == AvgBytesPerAttack(stats.bytesTotal, stats.totalAttacks)
      ensures s.protocolCounts == protocolCounts && s.portCounts == portCounts
      ensures s.isMonitoring == monitoring
    {
      var uptimeMs := now - startedAt;
      var avg := AvgBytesPerAttack(stats.bytesTotal, stats.totalAttacks);
      recentAttacks := Prune(recentAttacks, now);
      stats := stats.(activeAttacks := |recentAttacks|);
      s := Snapshot(
        uptimeMs := uptimeMs,
        uptimeSeconds := RoundDiv(uptimeMs, 1000),
        activeAttacks := stats.activeAttacks,
        totalEvents := stats.totalEvents,
        totalAttacks := stats.totalAttacks,
        uniqueIps := |topIps|,
        bandwidthIn := stats.bandwidthIn,
        bandwidthOut := stats.bandwidthOut,
        bytesTotal := stats.bytesTotal,
        avgBytesPerAttack := avg,
        protocolCounts := protocolCounts,
        portCounts := portCounts,
        isMonitoring := monitoring);
    }

    /** GET /api/top-ips (server/index.js:241-245). */
    method TopIpList() returns (r: seq<IpRank>)
      requires Valid()
      ensures |r| == Min(TopIpsLimit, |topIps|)
      ensures SortedDesc(r, CountOf)
      ensures forall i :: 0 <= i < |r| ==> r[i].ip in topIps && topIps[r[i].ip] == TopIp(r[i].count, r[i].last)
      ensures forall i, j :: 0 <= i < j < |r| ==> r[i].ip != r[j].ip
      ensures forall ip :: ip in topIps && IpRank(ip, topIps[ip].count, topIps[ip].last) !in r ==>
                |r| == TopIpsLimit && topIps[ip].count <= r[TopIpsLimit - 1].count
      ensures r == TopIps(ipOrder, topIps)
    {
      UniqueKeysCount(ipOrder, topIps);
      r := TopIps(ipOrder, topIps);
      TopIpsFacts(ipOrder, topIps);
    }

    /** GET /api/events as the evident intent: the window merged with a general buffer. */
    method RecentEvents(buffer: seq<AttackEntry>) returns (r: seq<AttackEntry>)
      ensures |r| == Min(RecentEventsLimit, |recentAttacks| + |buffer|)
      ensures SortedDesc(r, TsOf)
      ensures multiset(r) <= multiset(recentAttacks + buffer)
      ensures forall i :: 0 <= i < |recentAttacks + buffer| && (recentAttacks + buffer)[i] !in r ==>
                |r| == RecentEventsLimit && (recentAttacks + buffer)[i].ts <= r[RecentEventsLimit - 1].ts
      ensures r == MergeRecent(recentAttacks, buffer)
    {
      r := MergeRecent(recentAttacks, buffer);
    }

    /** POST /api/clear-data (server/index.js:385-403). */
    method ClearData()
      requires Valid()
      modifies this
      ensures Valid()
      ensures stats == ZeroCounters && topIps == map[] && ipOrder == []
      ensures protocolCounts == map[] && portCounts == map[] && recentAttacks == [] && geoCache == map[]
      ensures monitoring == old(monitoring)
    {
      stats := ZeroCounters;
      topIps := map[];
      ipOrder := [];
      protocolCounts := map[];
      portCounts := map[];
      recentAttacks := [];
      geoCache := map[];
    }

    /** POST /api/start-monitoring; following the log file is not modelled. */
    method StartMonitoring()
      modifies this`monitoring
      ensures monitoring
    {
      monitoring := true;
    }

    /** POST /api/stop-monitoring. */
    method StopMonitoring()
      modifies this`monitoring
      ensures !monitoring
    {
      monitoring := false;
    }

    /** `getGeoLocation` (server/index.js:575-605): cache first; otherwise the external
        lookup's answer, `fetched`, is cached on success and the unknown record is
        returned, uncached, on failure. */
    method GeoLookup(ip: string, fetched: Option<Geo>) returns (g: Geo)
      modifies this`geoCache
      ensures ip in old(geoCache) ==> g == old(geoCache)[ip] && geoCache == old(geoCache)
      ensures ip !in old(geoCache) && fetched.Some? ==>
        g == fetched.value && geoCache == old(geoCache)[ip := fetched.value]
      ensures ip !in old(geoCache) && fetched.None? ==> g == UnknownGeo && geoCache == old(geoCache)
      ensures geoCache == CachedAfter(old(geoCache), ip, fetched)
    {
      if ip in geoCache {
        return geoCache[ip];
      }
      if fetched.Some? {
        geoCache := geoCache[ip := fetched.value];
        return fetched.value;
      }
      g := UnknownGeo;
    }

    /** GET /api/geo (server/index.js:256-297), `ip` being `req.query.ip || req.ip`: the
        cache first; otherwise a successful lookup is cached and returned, and a failure
        answers "geo-failed" and caches nothing. The cache is the one `GeoLookup` uses. */
    method GeoProxy(ip: string, fetched: Option<Geo>) returns (r: Result<Geo, GeoError>)
      modifies this`geoCache
      ensures ip in old(geoCache) ==> r == Success(old(geoCache)[ip])
      ensures ip !in old(geoCache) && fetched.Some? ==> r == Success(fetched.value)
      ensures ip !in old(geoCache) && fetched.None? ==> r == Failure(GeoFailed(ip))
      ensures geoCache == CachedAfter(old(geoCache), ip, fetched)
    {
      if ip in geoCache {
        return Success(geoCache[ip]);
      }
      if fetched.Some? {
        geoCache := geoCache[ip := fetched.value];
        return Success(fetched.value);
      }
      r := Failure(GeoFailed(ip));
    }

    /** GET /api/monitoring-status. */
    method MonitoringStatus() returns (on: bool)
      ensures on == monitoring
    {
      on := monitoring;
    }

    /** The one-hour timer that drops a cached entry. */
    method ExpireGeo(ip: string)
      modifies this`geoCache
      ensures geoCache == old(geoCache) - {ip}
    {
      geoCache := geoCache - {ip};
    }

    /** POST /api/track-visitor (server/index.js:406-480); it runs whether or not
        monitoring is on, and counts the payload into `bytes_total` only. */
    method TrackVisitor(clientIp: string, url: Option<string>, payloadLength: nat, now: int,
                        fetched: Option<Geo>)
      returns (v: Beacon.VisitVerdict)
      requires Valid()
      modifies this
      ensures Valid()
      ensures v == Beacon.ClassifyVisit(url)
      ensures Recorded(clientIp, now, "HTTPS", 443, 0, 0, payloadLength,
                       if v.attack then Some(AttackEntry(now, clientIp, High)) else None, now,
                       clientIp, fetched)
    {
      v := Beacon.ClassifyVisit(url);
      TallyAndLocate(clientIp, now, "HTTPS", 443, 0, 0, payloadLength,
                     if v.attack then Some(AttackEntry(now, clientIp, High)) else None, now,
                     clientIp, fetched);
    }

    /** The state after an answered probe was counted: the monitoring flag as it was,
        the destination's geolocation looked up, and the probe tallied under its
        resolved address, as an attack unless its severity is info. Its port is tallied
        under the number it names: a number and its text are the same object key. */
    twostate predicate ProbeCounted(pe: Probe.ProbeEvent, now: int, fetched: Option<Geo>)
      reads this
    {
      Recorded(pe.src, now, pe.proto, pe.port.n, pe.bytesIn, pe.bytesOut, pe.bytesIn + pe.bytesOut,
               if pe.severity != Info then Some(AttackEntry(now, pe.src, pe.severity)) else None, now,
               pe.dst, fetched)
    }

    /** The state after a failed probe was counted: one more event and one more attack,
        the window entry from "0.0.0.0" at `now`, and nothing else changed. */
    twostate predicate FailureCounted(now: int)
      reads this
    {
      && recentAttacks == Prune(old(recentAttacks) + [AttackEntry(now, "0.0.0.0", High)], now)
      && stats == old(stats).(totalEvents := old(stats.totalEvents) + 1,
                              totalAttacks := old(stats.totalAttacks) + 1,
                              activeAttacks := |recentAttacks|)
      && monitoring == old(monitoring) && geoCache == old(geoCache)
      && topIps == old(topIps) && ipOrder == old(ipOrder)
      && protocolCounts == old(protocolCounts) && portCounts == old(portCounts)
    }

    /** The bookkeeping of an answered probe (server/index.js:796-830): the geolocation
        of the resolved address, then the counters; the event counts as an attack unless
        its severity is info. */
    method ProbeAnswered(url: string, target: Probe.Target, resolved: Option<string>,
                         resp: Probe.Response, now: int, fetched: Option<Geo>)
      returns (pe: Probe.ProbeEvent)
      requires Valid()
      modifies this
      ensures Valid()
      ensures pe == Probe.Synthesize(url, target, resolved, resp, now)
      ensures ProbeCounted(pe, now, fetched)
    {
      pe := Probe.Synthesize(url, target, resolved, resp, now);
      Probe.LowProbesCountAsAttacks(url, target, resolved, resp, now);
      CountProbe(pe, now, fetched);
    }

    /** `if (probeEvent.attack || severity is high or medium)` counts the attack; then
        the counters and the geolocation of the destination. */
    method CountProbe(pe: Probe.ProbeEvent, now: int, fetched: Option<Geo>)
      requires Valid()
      requires pe.ts == now && (Probe.CountsAsAttack(pe) <==> pe.severity != Info)
      modifies this
      ensures Valid()
      ensures ProbeCounted(pe, now, fetched)
    {
      var attack := if Probe.CountsAsAttack(pe) then Some(AttackEntry(pe.ts, pe.src, pe.severity)) else None;
      TallyAndLocate(pe.src, pe.ts, pe.proto, pe.port.n, pe.bytesIn, pe.bytesOut, pe.bytesIn + pe.bytesOut,
                     attack, now, pe.dst, fetched);
    }

    /** The bookkeeping of a failed probe (server/index.js:838-873): one more event and one
        more attack, the window entry from "0.0.0.0"; no address, protocol or port tally,
        no byte counters and no geolocation. */
    method ProbeFailed(url: string, target: Probe.Target, error: string, now: int)
      returns (pe: Probe.ProbeEvent)
      requires Valid()
      modifies this`stats, this`recentAttacks
      ensures Valid()
      ensures pe == Probe.FailureEvent(url, target, error, now)
      ensures FailureCounted(now)
    {
      pe := Probe.FailureEvent(url, target, error, now);
      stats := stats.(totalEvents := stats.totalEvents + 1);
      PushAttack(AttackEntry(pe.ts, pe.src, pe.severity), now);
    }

    /** One tick of the probe timer (server/index.js:633-877). `useMockData` is the
        "no log file" flag, `pick` the random index, `target` the parsed URL and
        `outcome` what the request and the DNS lookup returned. */
    method ProbeTick(useMockData: bool, urls: seq<UrlList.SubmittedUrl>, pick: nat,
                     target: Probe.Target, outcome: ProbeOutcome, now: int, fetched: Option<Geo>)
      returns (ev: Option<Probe.ProbeEvent>)
      requires Valid()
      requires |urls| > 0 ==> pick < |urls|
      modifies this
      ensures Valid()
      ensures !old(monitoring) || !useMockData || urls == [] ==> ev.None? && unchanged(this)
      ensures old(monitoring) && useMockData && urls != [] && outcome.Answered? ==>
        var pe := Probe.Synthesize(urls[pick].url, target, outcome.resolved, outcome.resp, now);
        ev == Some(pe) && ProbeCounted(pe, now, fetched)
      ensures old(monitoring) && useMockData && urls != [] && outcome.RequestFailed? ==>
        ev == Some(Probe.FailureEvent(urls[pick].url, target, outcome.error, now)) && FailureCounted(now)
    {
      if !monitoring || !useMockData || |urls| == 0 {
        return None;
      }
      var url := urls[pick].url;
      match outcome
      case Answered(resolved, resp) =>
        var pe := ProbeAnswered(url, target, resolved, resp, now, fetched);
        ev := Some(pe);
      case RequestFailed(error) =>
        var pe := ProbeFailed(url, target, error, now);
        ev := Some(pe);
    }
  }

  /** With distinct insertion-order keys, the map has exactly as many entries. */
  lemma UniqueKeysCount(order: seq<string>, m: map<string, TopIp>)
    requires NoDups(order)
    requires forall i :: 0 <= i < |order| ==> order[i] in m
    requires forall ip :: ip in m ==> ip in order
    ensures |m| == |order|
  {
    var ks := set i | 0 <= i < |order| :: order[i];
    assert ks == m.Keys;
    DistinctSetSize(order);
  }

  lemma {:induction false} DistinctSetSize(s: seq<string>)
    requires NoDups(s)
    ensures |set i | 0 <= i < |s| :: s[i]| == |s|
    decreases |s|
  {
    if s != [] {
      var init := s[..|s| - 1];
      DistinctSetSize(init);
      var a := set i | 0 <= i < |init| :: init[i];
      var b := set i | 0 <= i < |s| :: s[i];
      assert b == a + {s[|s| - 1]};
      assert s[|s| - 1] !in a;
    }
  }

  /** Two rows drawn from the rank list of distinct keys carry distinct addresses. */
  lemma RankListDistinct(order: seq<string>, m: map<string, TopIp>, r: seq<IpRank>, i: int, j: int)
    requires NoDups(order)
    requires forall k :: 0 <= k < |order| ==> order[k] in m
    requires multiset(r) <= multiset(RankList(order, m))
    requires 0 <= i < j < |r|
    ensures r[i].ip != r[j].ip
  {
    var all := RankList(order, m);
    assert r[i] in multiset(r) && r[j] in multiset(r);
    var a :| 0 <= a < |all| && all[a] == r[i];
    var b :| 0 <= b < |all| && all[b] == r[j];
    RankListOnce(order, m, a);
    OnceAtOnePlace(r, i, j);
    assert a != b;
    assert order[a] != order[b];
  }

  lemma RankListOnce(order: seq<string>, m: map<string, TopIp>, a: int)
    requires NoDups(order)
    requires forall k :: 0 <= k < |order| ==> order[k] in m
    requires 0 <= a < |order|
    ensures multiset(RankList(order, m))[RankList(order, m)[a]] == 1
  {
    var all := RankList(order, m);
    assert all == all[..a] + [all[a]] + all[a + 1..];
    assert all[a] !in all[..a] && all[a] !in all[a + 1..] by {
      forall k | 0 <= k < |all| && k != a ensures all[k] != all[a] {
        assert order[k] != order[a];
      }
    }
  }

  /** Clearing and then reading reports every counter at zero (a stats read right after
      POST /api/clear-data). */
  method ClearThenRead(agg: Aggregator, now: int) returns (s: Snapshot)
    requires agg.Valid()
    modifies agg
    ensures s.activeAttacks == 0 && s.totalEvents == 0 && s.totalAttacks == 0 && s.uniqueIps == 0
    ensures s.bandwidthIn == 0 && s.bandwidthOut == 0 && s.bytesTotal == 0 && s.avgBytesPerAttack == 0
    ensures s.protocolCounts == map[] && s.portCounts == map[]
  {
    agg.ClearData();
    s := agg.ReadStats(now);
  }

  /** Attacks at 0 s, 30 s and 61 s, pruned at 61 s: the first has aged out and two
      remain; an entry exactly 60 000 ms old is already outside the window. */
  lemma WindowBoundary()
    ensures |Prune([AttackEntry(0, "a", High), AttackEntry(30000, "a", High), AttackEntry(61000, "a", High)], 61000)| == 2
    ensures !InWindow(AttackEntry(0, "a", High), 60000)
  {
    var w := [AttackEntry(0, "a", High), AttackEntry(30000, "a", High), AttackEntry(61000, "a", High)];
    var p := WindowAt(61000);
    assert w[..2] == w[..|w| - 1];
    assert w[..1] == w[..2][..1];
    FilterSingle(w[0], p);
    assert Filter(w[..1], p) == [];
    assert Filter(w[..2], p) == [w[1]];
  }
}
