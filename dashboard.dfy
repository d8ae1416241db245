/** The dashboard's event list (src/components/Dashboard.jsx): the WebSocket updater
    that deduplicates, prepends and caps the list, the six conjunctive filters, the
    reset of the filters and the option lists derived from the events. */
module Dashboard {
  import opened Common
  import opened Feed

  /** Most events the dashboard keeps. */
  const EventCap: nat := 500

  /** The two message types the dashboard keeps. */
  predicate IsFeedType(data: ClientEvent)
  {
    data.msgType == "attack" || data.msgType == "traffic"
  }

  /** Two events count as the same when their time, source and url agree. */
  predicate SameEvent(a: ClientEvent, b: ClientEvent)
  {
    a.ts == b.ts && a.src == b.src && a.url == b.url
  }

  predicate Duplicated(prev: seq<ClientEvent>, data: ClientEvent)
  {
    exists i :: 0 <= i < |prev| && SameEvent(prev[i], data)
  }

  /** The `setEvents` updater of `onmessage` (src/components/Dashboard.jsx:61-69). */
  function OnMessage(prev: seq<ClientEvent>, data: ClientEvent): (r: seq<ClientEvent>)
    ensures !IsFeedType(data) || Duplicated(prev, data) ==> r == prev
    ensures IsFeedType(data) && !Duplicated(prev, data) ==>
      && |r| == Min(|prev| + 1, EventCap)
      && r[0] == data
      && (forall i :: 1 <= i < |r| ==> r[i] == prev[i - 1])
  {
    if !IsFeedType(data) || Duplicated(prev, data) then prev
    else Take([data] + prev, EventCap)
  }

  /** No two kept events are the same event. */
  ghost predicate Unduplicated(s: seq<ClientEvent>)
  {
    forall i, j :: 0 <= i < j < |s| ==> !SameEvent(s[i], s[j])
  }

  /** The updater keeps the list within the cap. */
  lemma OnMessageBounded(prev: seq<ClientEvent>, data: ClientEvent)
    requires |prev| <= EventCap
    ensures |OnMessage(prev, data)| <= EventCap
  {
  }

  /** The updater never lets the same event in twice. */
  lemma OnMessageUnduplicated(prev: seq<ClientEvent>, data: ClientEvent)
    requires Unduplicated(prev)
    ensures Unduplicated(OnMessage(prev, data))
  {
    var r := OnMessage(prev, data);
    if IsFeedType(data) && !Duplicated(prev, data) {
      forall i, j | 0 <= i < j < |r| ensures !SameEvent(r[i], r[j]) {
        if i == 0 {
          assert !SameEvent(prev[j - 1], data);
        } else {
          assert r[i] == prev[i - 1] && r[j] == prev[j - 1];
        }
      }
    }
  }

  /** The events the dashboard holds after a run of messages, starting from none. */
  function Replay(msgs: seq<ClientEvent>): (r: seq<ClientEvent>)
    decreases |msgs|
  {
    if msgs == [] then [] else OnMessage(Replay(msgs[..|msgs| - 1]), msgs[|msgs| - 1])
  }

  /** Whatever arrives, the list stays within the cap and free of duplicates. */
  lemma {:induction false} ReplayInvariant(msgs: seq<ClientEvent>)
    ensures |Replay(msgs)| <= EventCap && Unduplicated(Replay(msgs))
    decreases |msgs|
  {
    if msgs != [] {
      ReplayInvariant(msgs[..|msgs| - 1]);
      OnMessageBounded(Replay(msgs[..|msgs| - 1]), msgs[|msgs| - 1]);
      OnMessageUnduplicated(Replay(msgs[..|msgs| - 1]), msgs[|msgs| - 1]);
    }
  }

  /** The filter state; "all" switches a filter off. */
  datatype Filters = Filters(
    protocol: string,
    port: string,
    severity: string,
    eventType: string,
    sslStatus: string,
    securityScore: string)

  /** `clearFilters` (src/components/Dashboard.jsx:135-137). */
  function ClearFilters(): (f: Filters)
    ensures f.protocol == f.port == f.severity == f.eventType == f.sslStatus == f.securityScore == "all"
  {
    Filters("all", "all", "all", "all", "all", "all")
  }

  predicate IsDigit(c: char) { '0' <= c <= '9' }

  /** The longest prefix of `s` made of decimal digits. */
  function DigitPrefix(s: string): (r: string)
    ensures |r| <= |s| && r == s[..|r|]
    ensures forall i :: 0 <= i < |r| ==> IsDigit(r[i])
    ensures |r| < |s| ==> !IsDigit(s[|r|])
  {
    if s == [] || !IsDigit(s[0]) then []
    else [s[0]] + DigitPrefix(s[1..])
  }

  /** The number a string of decimal digits denotes. */
  function DigitsValue(ds: string): nat
    requires forall i :: 0 <= i < |ds| ==> IsDigit(ds[i])
    decreases |ds|
  {
    if ds == [] then 0
    else
      var d := ds[|ds| - 1];
      assert IsDigit(d);
      DigitsValue(ds[..|ds| - 1]) * 10 + (d as int - '0' as int)
  }

  /** `parseInt(s)` in base 10: an optional sign, then the longest run of digits;
      `None` stands for NaN, which no port equals. */
  function ParseInt(s: string): (r: Option<int>)
    ensures r.None? <==> DigitPrefix(if |s| > 0 && (s[0] == '-' || s[0] == '+') then s[1..] else s) == []
  {
    var negative := |s| > 0 && s[0] == '-';
    var body := if |s| > 0 && (s[0] == '-' || s[0] == '+') then s[1..] else s;
    var ds := DigitPrefix(body);
    if ds == [] then None
    else Some(if negative then -(DigitsValue(ds) as int) else DigitsValue(ds) as int)
  }

  function DigitChar(d: int): (c: char)
    requires 0 <= d < 10
    ensures IsDigit(c) && c as int - '0' as int == d
  {
    ('0' as int + d) as char
  }

  /** `String(n)` for an integer: how a port goes into the option value of the filter. */
  function NaturalString(n: nat): (r: string)
    ensures |r| > 0
    ensures forall i :: 0 <= i < |r| ==> IsDigit(r[i])
  {
    if n < 10 then [DigitChar(n)] else NaturalString(n / 10) + [DigitChar(n % 10)]
  }

  function NumberString(n: int): (r: string)
  {
    if n < 0 then "-" + NaturalString(-n) else NaturalString(n)
  }

  lemma {:induction false} NaturalStringValue(n: nat)
    ensures DigitsValue(NaturalString(n)) == n
    decreases n
  {
    var s := NaturalString(n);
    if n >= 10 {
      NaturalStringValue(n / 10);
      assert s[..|s| - 1] == NaturalString(n / 10);
    }
  }

  lemma {:induction false} AllDigitsPrefix(s: string)
    requires forall i :: 0 <= i < |s| ==> IsDigit(s[i])
    ensures DigitPrefix(s) == s
    decreases |s|
  {
    if s != [] {
      AllDigitsPrefix(s[1..]);
      assert [s[0]] + s[1..] == s;
    }
  }

  /** Parsing the option value of a port gives the port back. */
  lemma ParseNumberString(n: int)
    ensures ParseInt(NumberString(n)) == Some(n)
  {
    var m := if n < 0 then -n else n;
    var digits := NaturalString(m);
    AllDigitsPrefix(digits);
    NaturalStringValue(m);
    if n < 0 {
      assert NumberString(n)[1..] == digits;
    } else {
      assert NumberString(n)[0] == digits[0];
    }
  }

  /** One test per filter; a filter that is off, or set to a value it does not know,
      keeps every event (src/components/Dashboard.jsx:99-126). */
  predicate ProtocolOk(f: Filters, e: ClientEvent)
  {
    f.protocol != "all" ==> e.proto == f.protocol
  }

  /** `e.port === parseInt(f.port)`: a port that arrived as text never equals a number. */
  predicate PortOk(f: Filters, e: ClientEvent)
  {
    f.port != "all" ==> e.port.NumPort? && ParseInt(f.port) == Some(e.port.n)
  }

  predicate SeverityOk(f: Filters, e: ClientEvent)
  {
    f.severity != "all" ==> e.severity == f.severity
  }

  predicate EventTypeOk(f: Filters, e: ClientEvent)
  {
    f.eventType != "all" ==> e.eventType == f.eventType
  }

  predicate SslOk(f: Filters, e: ClientEvent)
  {
    && (f.sslStatus == "secure" ==> e.sslSecure)
    && (f.sslStatus == "insecure" ==> !e.sslSecure)
  }

  predicate ScoreOk(f: Filters, e: ClientEvent)
  {
    && (f.securityScore == "excellent" ==> e.missingHeaders == Some(0))
    && (f.securityScore == "good" ==> e.missingHeaders in {Some(1), Some(2)})
    && (f.securityScore == "poor" ==> e.missingHeaders.Some? && e.missingHeaders.value >= 3)
  }

  /** The event passes every active filter. */
  predicate Matches(f: Filters, e: ClientEvent)
  {
    ProtocolOk(f, e) && PortOk(f, e) && SeverityOk(f, e) && EventTypeOk(f, e) && SslOk(f, e) && ScoreOk(f, e)
  }

  function MatchesAll(f: Filters): ClientEvent -> bool
  {
    e => Matches(f, e)
  }

  /** The event passes the first `k` filters, in the order the effect applies them. */
  predicate Stage(f: Filters, k: nat, e: ClientEvent)
  {
    && (k >= 1 ==> ProtocolOk(f, e))
    && (k >= 2 ==> PortOk(f, e))
    && (k >= 3 ==> SeverityOk(f, e))
    && (k >= 4 ==> EventTypeOk(f, e))
    && (k >= 5 ==> SslOk(f, e))
    && (k >= 6 ==> ScoreOk(f, e))
  }

  function StageTest(f: Filters, k: nat): ClientEvent -> bool
  {
    e => Stage(f, k, e)
  }

  /** Applying the `k`-th filter as the predicate `q` to the list that passed the first
      `k - 1` gives the list that passes the first `k`. */
  lemma Narrow(events: seq<ClientEvent>, f: Filters, k: nat, q: ClientEvent -> bool)
    requires 1 <= k
    requires forall e :: Stage(f, k, e) == (Stage(f, k - 1, e) && q(e))
    ensures Filter(Filter(events, StageTest(f, k - 1)), q) == Filter(events, StageTest(f, k))
  {
    FilterFilter(events, StageTest(f, k - 1), q, StageTest(f, k));
  }

  /** One active filter step: `filtered = filtered.filter(q)`. */
  method NarrowBy(events: seq<ClientEvent>, f: Filters, k: nat, q: ClientEvent -> bool,
                  filtered: seq<ClientEvent>) returns (r: seq<ClientEvent>)
    requires 1 <= k
    requires forall e :: Stage(f, k, e) == (Stage(f, k - 1, e) && q(e))
    requires filtered == Filter(events, StageTest(f, k - 1))
    ensures r == Filter(events, StageTest(f, k))
  {
    Narrow(events, f, k, q);
    r := Filter(filtered, q);
  }

  /** A filter that is off, or set to a value it does not know, changes nothing. */
  lemma Skip(events: seq<ClientEvent>, f: Filters, k: nat)
    requires 1 <= k
    requires forall e :: Stage(f, k, e) == Stage(f, k - 1, e)
    ensures Filter(events, StageTest(f, k - 1)) == Filter(events, StageTest(f, k))
  {
    FilterSame(events, StageTest(f, k - 1), StageTest(f, k));
  }

  /** The `filtered` effect (src/components/Dashboard.jsx:96-129): each active filter in
      turn narrows the list, and the result is the events passing all of them, in order. */
  method ApplyFilters(events: seq<ClientEvent>, f: Filters) returns (filtered: seq<ClientEvent>)
    ensures filtered == Filter(events, MatchesAll(f))
  {
    FilterAll(events, StageTest(f, 0));
    filtered := FilterProtocol(events, f, events);
    filtered := FilterPort(events, f, filtered);
    filtered := FilterSeverity(events, f, filtered);
    filtered := FilterEventType(events, f, filtered);
    filtered := FilterSsl(events, f, filtered);
    filtered := FilterScore(events, f, filtered);
    FilterSame(events, StageTest(f, 6), MatchesAll(f));
  }

  /** The protocol step of the effect. */
  method FilterProtocol(events: seq<ClientEvent>, f: Filters, filtered: seq<ClientEvent>) returns (r: seq<ClientEvent>)
    requires filtered == Filter(events, StageTest(f, 0))
    ensures r == Filter(events, StageTest(f, 1))
  {
    r := filtered;
    if f.protocol != "all" {
      var q := (e: ClientEvent) => e.proto == f.protocol;
      r := NarrowBy(events, f, 1, q, r);
    } else {
      Skip(events, f, 1);
    }
  }

  /** The port step of the effect: the filter's text goes through `parseInt`. */
  method FilterPort(events: seq<ClientEvent>, f: Filters, filtered: seq<ClientEvent>) returns (r: seq<ClientEvent>)
    requires filtered == Filter(events, StageTest(f, 1))
    ensures r == Filter(events, StageTest(f, 2))
  {
    r := filtered;
    if f.port != "all" {
      var parsed := ParseInt(f.port);
      var q := (e: ClientEvent) => e.port.NumPort? && parsed == Some(e.port.n);
      r := NarrowBy(events, f, 2, q, r);
    } else {
      Skip(events, f, 2);
    }
  }

  /** The severity step of the effect. */
  method FilterSeverity(events: seq<ClientEvent>, f: Filters, filtered: seq<ClientEvent>) returns (r: seq<ClientEvent>)
    requires filtered == Filter(events, StageTest(f, 2))
    ensures r == Filter(events, StageTest(f, 3))
  {
    r := filtered;
    if f.severity != "all" {
      var q := (e: ClientEvent) => e.severity == f.severity;
      r := NarrowBy(events, f, 3, q, r);
    } else {
      Skip(events, f, 3);
    }
  }

  /** The event-type step of the effect. */
  method FilterEventType(events: seq<ClientEvent>, f: Filters, filtered: seq<ClientEvent>) returns (r: seq<ClientEvent>)
    requires filtered == Filter(events, StageTest(f, 3))
    ensures r == Filter(events, StageTest(f, 4))
  {
    r := filtered;
    if f.eventType != "all" {
      var q := (e: ClientEvent) => e.eventType == f.eventType;
      r := NarrowBy(events, f, 4, q, r);
    } else {
      Skip(events, f, 4);
    }
  }

  /** The SSL step of the effect. */
  method FilterSsl(events: seq<ClientEvent>, f: Filters, filtered: seq<ClientEvent>) returns (r: seq<ClientEvent>)
    requires filtered == Filter(events, StageTest(f, 4))
    ensures r == Filter(events, StageTest(f, 5))
  {
    r := filtered;
    if f.sslStatus != "all" {
      if f.sslStatus == "secure" {
        var q := (e: ClientEvent) => e.sslSecure;
        r := NarrowBy(events, f, 5, q, r);
      } else if f.sslStatus == "insecure" {
        var q := (e: ClientEvent) => !e.sslSecure;
        r := NarrowBy(events, f, 5, q, r);
      } else {
        Skip(events, f, 5);
      }
    } else {
      Skip(events, f, 5);
    }
  }

  /** The security-score step of the effect. */
  method FilterScore(events: seq<ClientEvent>, f: Filters, filtered: seq<ClientEvent>) returns (r: seq<ClientEvent>)
    requires filtered == Filter(events, StageTest(f, 5))
    ensures r == Filter(events, StageTest(f, 6))
  {
    r := filtered;
    if f.securityScore != "all" {
      if f.securityScore == "excellent" {
        var q := (e: ClientEvent) => e.missingHeaders == Some(0);
        r := NarrowBy(events, f, 6, q, r);
      } else if f.securityScore == "good" {
        var q := (e: ClientEvent) => e.missingHeaders == Some(1) || e.missingHeaders == Some(2);
        r := NarrowBy(events, f, 6, q, r);
      } else if f.securityScore == "poor" {
        var q := (e: ClientEvent) => e.missingHeaders.Some? && e.missingHeaders.value >= 3;
        r := NarrowBy(events, f, 6, q, r);
      } else {
        Skip(events, f, 6);
      }
    } else {
      Skip(events, f, 6);
    }
  }

  /** With every filter off the list is shown whole. */
  lemma ClearedFiltersKeepAll(events: seq<ClientEvent>)
    ensures Filter(events, MatchesAll(ClearFilters())) == events
  {
    FilterAll(events, MatchesAll(ClearFilters()));
  }

  /** A port filter set to the option value of port `p` keeps exactly the events whose
      port is the number `p`. */
  lemma PortFilterSelectsPort(f: Filters, e: ClientEvent, p: int)
    requires f.port == NumberString(p)
    ensures PortOk(f, e) <==> e.port == NumPort(p)
  {
    ParseNumberString(p);
    if p < 0 {
      assert NumberString(p)[0] == '-';
    } else {
      assert IsDigit(NumberString(p)[0]);
    }
  }

  /** The secure and insecure filters split any list into two complementary parts:
      every event lands in exactly one of them. */
  lemma SslFiltersComplementary(events: seq<ClientEvent>, f: Filters, e: ClientEvent)
    ensures SslOk(f.(sslStatus := "secure"), e) != SslOk(f.(sslStatus := "insecure"), e)
    ensures e in events ==>
      (e in Filter(events, MatchesAll(ClearFilters().(sslStatus := "secure"))) <==>
       e !in Filter(events, MatchesAll(ClearFilters().(sslStatus := "insecure"))))
  {
  }

  /** The three security scores select disjoint groups by the number of missing headers. */
  lemma ScoreBuckets(f: Filters, e: ClientEvent)
    requires e.missingHeaders.Some?
    ensures ScoreOk(f.(securityScore := "excellent"), e) <==> e.missingHeaders.value == 0
    ensures ScoreOk(f.(securityScore := "good"), e) <==> 1 <= e.missingHeaders.value <= 2
    ensures ScoreOk(f.(securityScore := "poor"), e) <==> e.missingHeaders.value >= 3
  {
  }

  /** The value lists behind the filter options (src/components/Dashboard.jsx:313-316):
      the distinct truthy values in order of first appearance; ports sorted ascending. */
  function Protocols(events: seq<ClientEvent>): (r: seq<string>)
    ensures |r| == |events| && forall i :: 0 <= i < |events| ==> r[i] == events[i].proto
  {
    seq(|events|, i requires 0 <= i < |events| => events[i].proto)
  }

  function Severities(events: seq<ClientEvent>): (r: seq<string>)
    ensures |r| == |events| && forall i :: 0 <= i < |events| ==> r[i] == events[i].severity
  {
    seq(|events|, i requires 0 <= i < |events| => events[i].severity)
  }

  function EventTypes(events: seq<ClientEvent>): (r: seq<string>)
    ensures |r| == |events| && forall i :: 0 <= i < |events| ==> r[i] == events[i].eventType
  {
    seq(|events|, i requires 0 <= i < |events| => events[i].eventType)
  }

  function Ports(events: seq<ClientEvent>): (r: seq<Port>)
    ensures |r| == |events| && forall i :: 0 <= i < |events| ==> r[i] == events[i].port
  {
    seq(|events|, i requires 0 <= i < |events| => events[i].port)
  }

  function NonEmpty(s: string): bool { s != "" }

  /** `Boolean(port)`: only the number 0 is falsy; any text, "0" included, is truthy. */
  function Truthy(p: Port): bool { p.StrPort? || p.n != 0 }

  /** `[...new Set(values)].filter(Boolean)` over strings. */
  function UniqueStrings(values: seq<string>): (r: seq<string>)
    ensures NoDups(r)
    ensures forall i :: 0 <= i < |r| ==> r[i] != "" && r[i] in values
    ensures forall i :: 0 <= i < |values| && values[i] != "" ==> values[i] in r
  {
    FilterNoDups(Distinct(values), NonEmpty);
    FilterMembers(Distinct(values), NonEmpty);
    Filter(Distinct(values), NonEmpty)
  }

  function UniqueProtocols(events: seq<ClientEvent>): seq<string> { UniqueStrings(Protocols(events)) }

  function UniqueSeverities(events: seq<ClientEvent>): seq<string> { UniqueStrings(Severities(events)) }

  function UniqueEventTypes(events: seq<ClientEvent>): seq<string> { UniqueStrings(EventTypes(events)) }

  /** The sort key of `(a, b) => a - b`, negated for a descending sort: `-` turns a
      port's text into its number. */
  function NegatedPort(p: Port): int { -p.n }

  /** Sorting distinct ports by the negated key lists them in ascending number, each
      once; two entries share a number only when one is a number and the other text. */
  lemma AscendingDistinct(distinct: seq<Port>)
    requires NoDups(distinct)
    ensures var r := SortDesc(distinct, NegatedPort);
      && (forall i, j :: 0 <= i < j < |r| ==> r[i].n <= r[j].n)
      && NoDups(r)
      && (forall i :: 0 <= i < |r| ==> r[i] in distinct)
      && (forall i :: 0 <= i < |distinct| ==> distinct[i] in r)
  {
    var r := SortDesc(distinct, NegatedPort);
    SortDescSorted(distinct, NegatedPort);
    PermutedNoDups(distinct, r);
    PermutedMembers(distinct, r);
  }

  /** `[...new Set(ports)].filter(Boolean).sort((a, b) => a - b)`: every truthy port
      value once, in ascending number; a number and its text are different values of
      the `Set`, so both are listed for the same port. */
  function UniquePorts(events: seq<ClientEvent>): (r: seq<Port>)
    ensures forall i, j :: 0 <= i < j < |r| ==> r[i].n <= r[j].n
    ensures NoDups(r)
    ensures forall i, j :: 0 <= i < j < |r| && r[i].n == r[j].n ==> r[i].NumPort? != r[j].NumPort?
    ensures forall i :: 0 <= i < |r| ==> Truthy(r[i]) && r[i] in Ports(events)
    ensures forall i :: 0 <= i < |events| && Truthy(events[i].port) ==> events[i].port in r
  {
    var distinct := Filter(Distinct(Ports(events)), Truthy);
    TruthyPorts(events);
    AscendingDistinct(distinct);
    SortDesc(distinct, NegatedPort)
  }

  /** The distinct truthy ports, before sorting: listed once each, and exactly the
      truthy ports of the events. */
  lemma TruthyPorts(events: seq<ClientEvent>)
    ensures var d := Filter(Distinct(Ports(events)), Truthy);
      && NoDups(d)
      && (forall i :: 0 <= i < |d| ==> Truthy(d[i]) && d[i] in Ports(events))
      && (forall i :: 0 <= i < |events| && Truthy(events[i].port) ==> events[i].port in d)
  {
    var ports := Ports(events);
    FilterNoDups(Distinct(ports), Truthy);
    FilterMembers(Distinct(ports), Truthy);
    var d := Filter(Distinct(ports), Truthy);
    forall i | 0 <= i < |events| && Truthy(events[i].port) ensures events[i].port in d {
      assert ports[i] in Distinct(ports);
    }
  }

  /** One port reported as a number by one event and as text by another is offered
      twice in the port options. */
  lemma PortOfferedTwice(events: seq<ClientEvent>, i: int, j: int, p: int)
    requires 0 <= i < |events| && 0 <= j < |events| && p != 0
    requires events[i].port == NumPort(p) && events[j].port == StrPort(p)
    ensures exists a, b ::
      && 0 <= a < |UniquePorts(events)| && 0 <= b < |UniquePorts(events)| && a != b
      && UniquePorts(events)[a] == NumPort(p) && UniquePorts(events)[b] == StrPort(p)
  {
    var r := UniquePorts(events);
    assert Truthy(events[i].port) && Truthy(events[j].port);
    var a :| 0 <= a < |r| && r[a] == NumPort(p);
    var b :| 0 <= b < |r| && r[b] == StrPort(p);
  }

  /** An event whose port arrived as text passes no port filter, so choosing any port
      option leaves it out of the filtered list. */
  lemma TextPortNeverSelected(events: seq<ClientEvent>, f: Filters, k: int)
    requires f.port != "all" && 0 <= k < |events| && events[k].port.StrPort?
    ensures !PortOk(f, events[k])
    ensures events[k] !in Filter(events, MatchesAll(f))
  {
  }
}
