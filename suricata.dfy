/** The event normaliser of `processSuricataEvent` (server/index.js:101-147): a raw
    EVE record, already decoded from JSON, is mapped to the canonical event that the
    statistics and the broadcast use, or to nothing when its kind is not one the
    pipeline recognises. Absent string fields are written "" (JavaScript treats
    undefined, null and "" alike under `||`), absent numbers 0, and the ISO-8601
    timestamp arrives already converted to epoch milliseconds. */
module Suricata {
  import opened Common

  /** The raw `event_type` tag: one of the recognised kinds, or anything else. */
  datatype RawType = Known(kind: Kind) | Unknown(name: string)

  datatype AlertInfo = AlertInfo(severity: Option<int>, signature: string)
  datatype HttpInfo = HttpInfo(hostname: string, url: string, httpMethod: string)
  datatype FlowInfo = FlowInfo(bytesToServer: int, bytesToClient: int)

  datatype RawEvent = RawEvent(
    eventType: RawType,
    timestamp: Option<int>,
    srcIp: string,
    destIp: string,
    destPort: int,
    proto: string,
    alert: Option<AlertInfo>,
    http: Option<HttpInfo>,
    dnsRrname: Option<string>,
    tlsSni: Option<string>,
    flow: Option<FlowInfo>)

  /** The canonical event. */
  datatype Event = Event(
    kind: Kind,
    ts: int,
    src: string,
    dst: string,
    port: int,
    proto: string,
    bytesIn: int,
    bytesOut: int,
    severity: Severity,
    url: Option<string>,
    hostname: Option<string>,
    httpMethod: Option<string>,
    alertMsg: Option<string>)

  /** JavaScript's `s || d` on strings. */
  function OrDefault(s: string, d: string): string { if s != "" then s else d }

  /** JavaScript's `s || null` on strings. */
  function OrNull(s: string): Option<string> { if s != "" then Some(s) else None }

  /** The timestamp of the record, or the current time when it has none. */
  function EventTime(raw: RawEvent, now: int): int
  {
    if raw.timestamp.Some? then raw.timestamp.value else now
  }

  function AlertSeverity(a: AlertInfo): (s: Severity)
    ensures s == High <==> a.severity == Some(1)
    ensures s == Medium <==> a.severity == Some(2)
    ensures s != Info
  {
    if a.severity == Some(1) then High
    else if a.severity == Some(2) then Medium
    else Low
  }

  /** The severity rule (server/index.js:136-143). */
  function SeverityOf(raw: RawEvent): Severity
  {
    if raw.eventType == Known(Alert) && raw.alert.Some? then AlertSeverity(raw.alert.value)
    else if raw.eventType in {Known(Http), Known(Dns), Known(Tls)} then Info
    else Low
  }

  /** The url, hostname and method for the record's kind (server/index.js:115-134). */
  function Locator(raw: RawEvent, port: int): (Option<string>, Option<string>, Option<string>)
  {
    if raw.eventType == Known(Http) && raw.http.Some? then
      var h := raw.http.value;
      var scheme := if port == 443 then "https://" else "http://";
      var url := if h.hostname != "" && h.url != "" then Some(scheme + h.hostname + h.url)
                 else OrNull(h.url);
      (url, OrNull(h.hostname), Some(OrDefault(h.httpMethod, "GET")))
    else if raw.eventType == Known(Dns) && raw.dnsRrname.Some? then
      (None, OrNull(raw.dnsRrname.value), None)
    else if raw.eventType == Known(Tls) && raw.tlsSni.Some? then
      (None, OrNull(raw.tlsSni.value), None)
    else (None, None, None)
  }

  function Normalize(raw: RawEvent, now: int): (r: Option<Event>)
    ensures r.None? <==> raw.eventType.Unknown?
    ensures r.Some? ==> r.value.kind == raw.eventType.kind
    // severity table
    ensures r.Some? && raw.eventType == Known(Alert) && raw.alert.Some? ==>
      (r.value.severity == High <==> raw.alert.value.severity == Some(1)) &&
      (r.value.severity == Medium <==> raw.alert.value.severity == Some(2)) &&
      (r.value.severity == Low <==> raw.alert.value.severity !in {Some(1), Some(2)})
    ensures r.Some? && raw.eventType in {Known(Http), Known(Dns), Known(Tls)} ==> r.value.severity == Info
    ensures r.Some? && (raw.eventType == Known(Flow) || (raw.eventType == Known(Alert) && raw.alert.None?)) ==>
      r.value.severity == Low
    // url scheme for http records carrying both hostname and url
    ensures r.Some? && raw.eventType == Known(Http) && raw.http.Some? &&
            raw.http.value.hostname != "" && raw.http.value.url != "" ==>
      r.value.url == Some((if raw.destPort == 443 then "https://" else "http://")
                          + raw.http.value.hostname + raw.http.value.url)
    // byte counters come from the flow object, whatever the kind
    ensures r.Some? ==> r.value.bytesIn == (if raw.flow.Some? then raw.flow.value.bytesToServer else 0)
    ensures r.Some? ==> r.value.bytesOut == (if raw.flow.Some? then raw.flow.value.bytesToClient else 0)
    ensures r.Some? ==> r.value.ts == EventTime(raw, now)
    ensures r.Some? ==> r.value.src != "" && r.value.src == OrDefault(raw.srcIp, "unknown")
    // the other defaults: `|| 'unknown'`, `|| 'GET'`, and the signature only with an alert object
    ensures r.Some? ==> r.value.dst != "" && r.value.dst == OrDefault(raw.destIp, "unknown")
    ensures r.Some? ==> r.value.proto != "" && r.value.proto == OrDefault(raw.proto, "unknown")
    ensures r.Some? ==> r.value.port == raw.destPort
    ensures r.Some? ==> (r.value.httpMethod.Some? <==> raw.eventType == Known(Http) && raw.http.Some?)
    ensures r.Some? && r.value.httpMethod.Some? ==>
      r.value.httpMethod.value != "" && r.value.httpMethod.value == OrDefault(raw.http.value.httpMethod, "GET")
    ensures r.Some? ==> (r.value.alertMsg.Some? <==> raw.alert.Some?)
    ensures r.Some? && raw.alert.Some? ==> r.value.alertMsg == Some(raw.alert.value.signature)
  {
    match raw.eventType
    case Unknown(_) => None
    case Known(kind) =>
      var port := raw.destPort;
      var loc := Locator(raw, port);
      Some(Event(
        kind := kind,
        ts := EventTime(raw, now),
        src := OrDefault(raw.srcIp, "unknown"),
        dst := OrDefault(raw.destIp, "unknown"),
        port := port,
        proto := OrDefault(raw.proto, "unknown"),
        bytesIn := if raw.flow.Some? then raw.flow.value.bytesToServer else 0,
        bytesOut := if raw.flow.Some? then raw.flow.value.bytesToClient else 0,
        severity := SeverityOf(raw),
        url := loc.0,
        hostname := loc.1,
        httpMethod := loc.2,
        alertMsg := if raw.alert.Some? then Some(raw.alert.value.signature) else None))
  }

  /** The attack rule of server/index.js:155: an alert, or a high or medium severity. */
  predicate IsAttack(e: Event)
  {
    e.kind == Alert || e.severity == High || e.severity == Medium
  }

  /** Only alerts can be high or medium, so for a normalised record the attack rule
      reduces to "is an alert". */
  lemma AttackIffAlert(raw: RawEvent, now: int)
    requires Normalize(raw, now).Some?
    ensures IsAttack(Normalize(raw, now).value) <==> raw.eventType == Known(Alert)
  {
  }

  /** DNS and TLS records take their hostname from the query name and the SNI value. */
  lemma HostnameSources(raw: RawEvent, now: int)
    requires Normalize(raw, now).Some?
    ensures raw.eventType == Known(Dns) && raw.dnsRrname.Some? ==>
      Normalize(raw, now).value.hostname == OrNull(raw.dnsRrname.value)
    ensures raw.eventType == Known(Tls) && raw.tlsSni.Some? ==>
      Normalize(raw, now).value.hostname == OrNull(raw.tlsSni.value)
    ensures raw.eventType !in {Known(Http), Known(Dns), Known(Tls)} ==>
      Normalize(raw, now).value.url.None? && Normalize(raw, now).value.hostname.None?
  {
  }
}
