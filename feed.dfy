/** The event record as the dashboard receives it over the WebSocket, after parsing.
    A field the server did not send, or sent as null, false, 0 or "", is falsy in the
    client; every consumer below tests those fields only for truthiness or compares them
    with strings, so an absent string is written "" and an absent port the number 0. */
module Feed {
  import opened Common

  datatype ClientEvent = ClientEvent(
    /** `type`: "attack", "traffic", or anything else the server sends. */
    msgType: string,
    /** `event_type`. */
    eventType: string,
    ts: int,
    src: string,
    /** `url`; `None` stands for null and undefined alike. */
    url: Option<string>,
    proto: string,
    /** `port`: a number, or text when a probe of a URL with an explicit port sent it. */
    port: Port,
    severity: string,
    /** `ssl_info && ssl_info.secure`. */
    sslSecure: bool,
    /** `missing_security_headers`, when the event carries it. */
    missingHeaders: Option<int>,
    geo: Option<Geo>)
}
