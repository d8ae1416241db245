/** The synthetic-probe classifier of the monitoring timer (server/index.js:633-877).
    The HTTP request, the DNS lookup and the regular-expression scan of the body are
    external: their outcomes arrive as the response headers (lower-case names, as
    axios exposes them), a "body matched a suspicious pattern" flag, the status code,
    the serialised sizes and the elapsed time. Alert messages are kept as the facts
    they report; the template text around them is not modelled. */
module Probe {
  import opened Common

  /** The five recommended security headers (server/index.js:670-676). */
  const SecurityHeaderNames: seq<string> := [
    "content-security-policy", "x-frame-options", "x-content-type-options",
    "strict-transport-security", "x-xss-protection"]

  /** `response.headers[name] || 'Missing'`. */
  function HeaderValue(headers: map<string, string>, name: string): string
  {
    if name in headers && headers[name] != "" then headers[name] else "Missing"
  }

  /** A header counts as present unless its value reads "Missing". */
  predicate HeaderPresent(headers: map<string, string>, name: string)
  {
    HeaderValue(headers, name) != "Missing"
  }

  function SecurityHeaderValues(headers: map<string, string>): (r: seq<string>)
    ensures |r| == 5
    ensures forall i :: 0 <= i < 5 ==> r[i] == HeaderValue(headers, SecurityHeaderNames[i])
  {
    seq(5, i requires 0 <= i < 5 => HeaderValue(headers, SecurityHeaderNames[i]))
  }

  /** `Object.values(securityHeaders).filter(v => v === 'Missing').length`. */
  function MissingCount(headers: map<string, string>): (n: nat)
    ensures n <= 5
    ensures n == 0 <==> forall i :: 0 <= i < 5 ==> HeaderPresent(headers, SecurityHeaderNames[i])
    ensures n == 5 <==> forall i :: 0 <= i < 5 ==> !HeaderPresent(headers, SecurityHeaderNames[i])
    ensures n == |set i | 0 <= i < 5 && !HeaderPresent(headers, SecurityHeaderNames[i])|
  {
    var vs := SecurityHeaderValues(headers);
    CountAll(vs, "Missing");
    CountIndices(vs, "Missing");
    var absent := set i | 0 <= i < 5 && !HeaderPresent(headers, SecurityHeaderNames[i]);
    assert absent == Positions(vs, "Missing");
    Count(vs, "Missing")
  }

  /** The positions of `s` holding `x`. */
  function Positions<T(==)>(s: seq<T>, x: T): set<int>
  {
    set i | 0 <= i < |s| && s[i] == x
  }

  /** The number of occurrences is the number of positions holding the element. */
  lemma {:induction false} CountIndices<T>(s: seq<T>, x: T)
    ensures Count(s, x) == |Positions(s, x)|
    decreases |s|
  {
    if s != [] {
      var init := s[..|s| - 1];
      CountIndices(init, x);
      assert Positions(s, x) == Positions(init, x) + (if s[|s| - 1] == x then {|s| - 1} else {});
      assert |s| - 1 !in Positions(init, x);
    }
  }

  lemma {:induction false} CountAll<T>(s: seq<T>, x: T)
    ensures Count(s, x) == |s| <==> forall i :: 0 <= i < |s| ==> s[i] == x
    decreases |s|
  {
    if s != [] {
      CountAll(s[..|s| - 1], x);
      assert forall i :: 0 <= i < |s| - 1 ==> s[..|s| - 1][i] == s[i];
    }
  }

  /** What an alert message reports. */
  datatype Reason =
    | SuspiciousContent(host: string)
    | ClientError(status: int, host: string)
    | ServerError(status: int, host: string)
    | LargeResponse(kilobytes: int, host: string)
    | SlowResponse(millis: int, host: string)
    | MissingHeaders(missing: nat, host: string)
    | ConnectionFailed(error: string)

  /** A message and whether " (Security headers: Excellent)" was appended to it. */
  datatype Message = Message(reason: Reason, excellent: bool)

  datatype Verdict = Verdict(severity: Severity, eventType: Kind, alertMsg: Option<Message>)

  /** The threat heuristics, first match wins (server/index.js:706-743). */
  function Triage(suspicious: bool, status: int, size: int, time: int, host: string): (v: Verdict)
    ensures v.eventType == Alert || v.eventType == Http
    ensures v.eventType == Alert <==> suspicious || status >= 400 || size > 1000000
    ensures v.severity == Info <==> v.alertMsg.None?
  {
    if suspicious then Verdict(High, Alert, Some(Message(SuspiciousContent(host), false)))
    else if 400 <= status < 500 then Verdict(Medium, Alert, Some(Message(ClientError(status, host), false)))
    else if status >= 500 then Verdict(High, Alert, Some(Message(ServerError(status, host), false)))
    else if size > 1000000 then
      Verdict(Medium, Alert, Some(Message(LargeResponse(RoundDiv(size, 1024), host), false)))
    else if time > 3000 then Verdict(Low, Http, Some(Message(SlowResponse(time, host), false)))
    else Verdict(Info, Http, None)
  }

  /** One level down: high to medium, medium to low, low to info. */
  function Downgrade(s: Severity): (r: Severity)
    requires s != Info
    ensures Rank(r) + 1 == Rank(s)
  {
    match s
    case High => Medium
    case Medium => Low
    case Low => Info
  }

  /** The security-header adjustment (server/index.js:745-759). */
  function AdjustForHeaders(v: Verdict, missing: nat, host: string): Verdict
  {
    if missing == 0 && v.severity != Info then
      Verdict(Downgrade(v.severity), v.eventType,
              if v.alertMsg.Some? then Some(v.alertMsg.value.(excellent := true)) else None)
    else if missing >= 4 && v.severity == Info then
      Verdict(Low, v.eventType, Some(Message(MissingHeaders(missing, host), false)))
    else v
  }

  datatype Classification = Classification(verdict: Verdict, missing: nat)

  /** The whole classification of one answered probe. */
  function Classify(headers: map<string, string>, suspicious: bool, status: int,
                    size: int, time: int, host: string): Classification
  {
    var missing := MissingCount(headers);
    Classification(AdjustForHeaders(Triage(suspicious, status, size, time, host), missing, host), missing)
  }

  /** The order of the heuristics: each rule applies only when every earlier one failed. */
  lemma TriageOrder(suspicious: bool, status: int, size: int, time: int, host: string)
    ensures var v := Triage(suspicious, status, size, time, host);
      && (suspicious ==> v.severity == High && v.eventType == Alert)
      && (!suspicious && 400 <= status < 500 ==> v.severity == Medium && v.eventType == Alert)
      && (!suspicious && status >= 500 ==> v.severity == High && v.eventType == Alert)
      && (!suspicious && status < 400 && size > 1000000 ==> v.severity == Medium && v.eventType == Alert)
      && (!suspicious && status < 400 && size <= 1000000 && time > 3000 ==>
            v.severity == Low && v.eventType == Http)
      && (!suspicious && status < 400 && size <= 1000000 && time <= 3000 ==>
            v.severity == Info && v.eventType == Http && v.alertMsg.None?)
  {
  }

  /** All five headers present: a non-info verdict drops exactly one level, and its
      message, which it always has, is annotated. */
  lemma ExcellentHeadersDowngrade(headers: map<string, string>, suspicious: bool, status: int,
                                  size: int, time: int, host: string)
    requires forall i :: 0 <= i < 5 ==> HeaderPresent(headers, SecurityHeaderNames[i])
    ensures var base := Triage(suspicious, status, size, time, host);
      var c := Classify(headers, suspicious, status, size, time, host);
      && c.missing == 0
      && (base.severity != Info ==>
            Rank(c.verdict.severity) + 1 == Rank(base.severity)
            && c.verdict.alertMsg == Some(base.alertMsg.value.(excellent := true)))
      && (base.severity == Info ==> c.verdict == base)
      && c.verdict.eventType == base.eventType
  {
  }

  /** Four or five headers missing: an info verdict becomes low with a
      missing-headers message; any other verdict is kept. */
  lemma PoorHeadersUpgrade(headers: map<string, string>, suspicious: bool, status: int,
                           size: int, time: int, host: string)
    requires MissingCount(headers) >= 4
    ensures var base := Triage(suspicious, status, size, time, host);
      var c := Classify(headers, suspicious, status, size, time, host);
      && (base.severity == Info ==>
            c.verdict == Verdict(Low, Http, Some(Message(MissingHeaders(c.missing, host), false))))
      && (base.severity != Info ==> c.verdict == base)
  {
  }

  /** One to three headers missing: the verdict is the heuristics' own. */
  lemma MiddlingHeadersNeutral(headers: map<string, string>, suspicious: bool, status: int,
                               size: int, time: int, host: string)
    requires 1 <= MissingCount(headers) <= 3
    ensures Classify(headers, suspicious, status, size, time, host).verdict
         == Triage(suspicious, status, size, time, host)
  {
  }

  /** The final verdict is informational exactly when nothing triggered and at most
      three headers are missing, or only the slow-response rule triggered and all
      headers are present. */
  lemma InfoExactly(headers: map<string, string>, suspicious: bool, status: int,
                    size: int, time: int, host: string)
    ensures var base := Triage(suspicious, status, size, time, host);
      var c := Classify(headers, suspicious, status, size, time, host);
      c.verdict.severity == Info <==>
        (base.severity == Info && c.missing < 4) || (base.severity == Low && c.missing == 0)
  {
  }

  /** The parsed target URL: scheme, hostname and the number of its explicit port (none
      when the URL names no port, or names the scheme's default). */
  datatype Target = Target(https: bool, hostname: string, port: Option<int>)

  /** What the request returned. */
  datatype Response = Response(
    headers: map<string, string>,
    suspiciousBody: bool,
    status: int,
    requestSize: int,
    responseSize: int,
    responseTime: int)

  /** The synthetic event a probe emits. */
  datatype ProbeEvent = ProbeEvent(
    attack: bool,
    eventType: Kind,
    ts: int,
    src: string,
    dst: string,
    port: Port,
    proto: string,
    bytesIn: int,
    bytesOut: int,
    severity: Severity,
    url: string,
    hostname: string,
    status: Option<int>,
    responseTime: Option<int>,
    missingHeaders: Option<nat>,
    sslSecure: bool,
    alertMsg: Option<Message>)

  /** `urlObj.port || (https ? 443 : 80)`: an explicit port stays the text `URL.port`
      gives, the default is a number. */
  function TargetPort(t: Target): (p: Port)
    ensures p.StrPort? <==> t.port.Some?
    ensures t.port.Some? ==> p.n == t.port.value
    ensures t.port.None? ==> p == NumPort(if t.https then 443 else 80)
  {
    if t.port.Some? then StrPort(t.port.value) else NumPort(if t.https then 443 else 80)
  }

  /** The resolved server address, "0.0.0.0" when resolution failed or found nothing. */
  function DestAddress(resolved: Option<string>): string
  {
    if resolved.Some? && resolved.value != "" then resolved.value else "0.0.0.0"
  }

  /** The event of an answered probe (server/index.js:761-792). */
  function Synthesize(url: string, t: Target, resolved: Option<string>, resp: Response, now: int): (ev: ProbeEvent)
    ensures ev.attack <==> ev.severity != Info
    ensures ev.ts == now && ev.url == url
    ensures ev.src == ev.dst == DestAddress(resolved)
    ensures ev.missingHeaders == Some(MissingCount(resp.headers))
    ensures ev.sslSecure <==> t.https
    ensures ev.proto == (if t.https then "HTTPS" else "HTTP")
    ensures ev.port == TargetPort(t)
    ensures var c := Classify(resp.headers, resp.suspiciousBody, resp.status,
                              resp.responseSize, resp.responseTime, t.hostname);
      && ev.severity == c.verdict.severity
      && ev.eventType == c.verdict.eventType
      && ev.alertMsg == c.verdict.alertMsg
    ensures ev.bytesIn == resp.requestSize && ev.bytesOut == resp.responseSize
  {
    var c := Classify(resp.headers, resp.suspiciousBody, resp.status,
                      resp.responseSize, resp.responseTime, t.hostname);
    var dest := DestAddress(resolved);
    ProbeEvent(
      attack := c.verdict.severity != Info,
      eventType := c.verdict.eventType,
      ts := now,
      src := dest,
      dst := dest,
      port := TargetPort(t),
      proto := if t.https then "HTTPS" else "HTTP",
      bytesIn := resp.requestSize,
      bytesOut := resp.responseSize,
      severity := c.verdict.severity,
      url := url,
      hostname := t.hostname,
      status := Some(resp.status),
      responseTime := Some(resp.responseTime),
      missingHeaders := Some(c.missing),
      sslSecure := t.https,
      alertMsg := c.verdict.alertMsg)
  }

  /** The event of a probe whose request failed (server/index.js:843-859). */
  function FailureEvent(url: string, t: Target, error: string, now: int): (ev: ProbeEvent)
    ensures ev.attack && ev.severity == High && ev.eventType == Alert
    ensures ev.alertMsg == Some(Message(ConnectionFailed(error), false))
  {
    ProbeEvent(
      attack := true, eventType := Alert, ts := now, src := "0.0.0.0", dst := "127.0.0.1",
      port := NumPort(0), proto := "HTTP", bytesIn := 0, bytesOut := 0, severity := High,
      url := url, hostname := t.hostname, status := None, responseTime := None,
      missingHeaders := None, sslSecure := false,
      alertMsg := Some(Message(ConnectionFailed(error), false)))
  }

  /** The statistics counted a probe event as an attack when it was typed attack or
      was high or medium (server/index.js:817); for probe events that is the type alone. */
  predicate CountsAsAttack(ev: ProbeEvent)
  {
    ev.attack || ev.severity == High || ev.severity == Medium
  }

  /** A slow response, or missing headers on an otherwise clean one, is low and yet
      counted as an attack. */
  lemma LowProbesCountAsAttacks(url: string, t: Target, resolved: Option<string>, resp: Response, now: int)
    ensures var ev := Synthesize(url, t, resolved, resp, now);
      CountsAsAttack(ev) <==> ev.severity != Info
  {
  }
}
