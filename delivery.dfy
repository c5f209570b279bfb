/** What the exporter decides about sending a batch: which endpoint, which
    headers, what body, and which error (if any) the export call returns for
    each way the HTTP exchange can end. The exchange itself, gzip, TLS and the
    JSON encoder are collaborators: their results come in as values. */
module Delivery {
  import opened Outcomes
  import opened Text
  import opened Data

  /** The exporter's settings that delivery reads. */
  datatype Exporter = Exporter(url: string, apiKey: string)

  /** The request body: raw JSON (legacy endpoint) or gzip-compressed JSON. */
  datatype Body = PlainJson(payload: Payload) | GzipJson(payload: Payload)

  datatype Request = Request(url: string, headers: map<string, string>, body: Body)

  /** How the HTTP collaborator's part of an export ended. */
  datatype Exchange =
    | RequestRejected(err: Error)   // the request could not be built from the URL
    | SendFailed(err: Error)        // http.Post / client.Do returned an error
    | Responded(status: int, readError: Option<Error>, echoError: Option<Error>)
      // a response arrived; reading its body and copying it to the debug
      // file may fail (only the legacy path does either)

  /** What one `ConsumeTraces` / `ConsumeLogs` call did. */
  datatype ExportOutcome =
    | Panic                                      // a type assertion failed while projecting
    | NotSent(err: Error)                        // the records could not be encoded
    | Sent(request: Request, result: Option<Error>)

  /** The `error` the call returns (none for a panic, which unwinds instead). */
  function ReturnedError(o: ExportOutcome): (r: Option<Error>)
    ensures o.NotSent? ==> r == Some(o.err)
    ensures o.Sent? ==> r == o.result
  {
    match o
    case Panic => None
    case NotSent(e) => Some(e)
    case Sent(_, result) => result
  }

  const LegacyMarker := "catalyst"

  /** `strings.Contains(e.url, "catalyst")`: the deprecated endpoint. */
  predicate IsLegacyEndpoint(url: string) {
    Contains(url, LegacyMarker)
  }

  /** `fmt.Fprint(&urlBuf, e.url, "?license.key=", e.apikey)`: all operands
      are strings, so no separators are inserted. */
  function LegacyUrl(url: string, apiKey: string): (r: string)
    ensures |r| >= |url| && r[..|url|] == url
    ensures r[|url|..] == "?license.key=" + apiKey
  {
    url + "?license.key=" + apiKey
  }

  /** The legacy URL is itself recognised as a legacy endpoint. */
  lemma LegacyUrlStaysLegacy(url: string, apiKey: string)
    requires IsLegacyEndpoint(url)
    ensures IsLegacyEndpoint(LegacyUrl(url, apiKey))
  {
    assert LegacyUrl(url, apiKey) == [] + url + ("?license.key=" + apiKey);
    ContainsExtended(url, LegacyMarker, [], "?license.key=" + apiKey);
  }

  /** The header set of the gzip streaming endpoint. */
  function StreamHeaders(apiKey: string, logType: string, userAgent: string, count: nat): (h: map<string, string>)
    ensures h.Keys == {"X-DeviceKey", "Content-Type", "X-LogType", "X-StreamMode", "Log-Size", "Content-Encoding", "User-Agent"}
    ensures h["X-DeviceKey"] == apiKey && h["X-LogType"] == logType && h["User-Agent"] == userAgent
    ensures h["Content-Type"] == "application/json" && h["Content-Encoding"] == "gzip" && h["X-StreamMode"] == "1"
    ensures ParseDecimal(h["Log-Size"]) == count
  {
    ParseItoa(count);
    map[
      "X-DeviceKey" := apiKey,
      "Content-Type" := "application/json",
      "X-LogType" := logType,
      "X-StreamMode" := "1",
      "Log-Size" := Itoa(count),
      "Content-Encoding" := "gzip",
      "User-Agent" := userAgent]
  }

  function TraceHeaders(apiKey: string, count: nat): map<string, string>
  {
    StreamHeaders(apiKey, "s247apmopentelemetrytracing", "site24x7exporter", count)
  }

  function LogHeaders(apiKey: string, count: nat): map<string, string>
  {
    StreamHeaders(apiKey, "otellogs", "AWS-Lambda", count)
  }

  /** The request `ConsumeTraces` sends for a span list. */
  function TraceRequest(e: Exporter, spans: seq<TelemetrySpan>): (r: Request)
    ensures IsLegacyEndpoint(e.url) ==>
      r == Request(LegacyUrl(e.url, e.apiKey), map["Content-Type" := "application/json"], PlainJson(EncodeSpans(spans)))
    ensures !IsLegacyEndpoint(e.url) ==>
      && r.url == e.url
      && r.body == GzipJson(EncodeSpans(spans))
      && r.headers == TraceHeaders(e.apiKey, |spans|)
      && ParseDecimal(r.headers["Log-Size"]) == |r.body.payload.items| == |spans|
  {
    if IsLegacyEndpoint(e.url) then
      Request(LegacyUrl(e.url, e.apiKey), map["Content-Type" := "application/json"], PlainJson(EncodeSpans(spans)))
    else
      Request(e.url, TraceHeaders(e.apiKey, |spans|), GzipJson(EncodeSpans(spans)))
  }

  /** The request `ConsumeLogs` sends: there is no legacy branch. */
  function LogRequest(e: Exporter, logs: seq<TelemetryLog>): (r: Request)
    ensures r.url == e.url
    ensures r.body == GzipJson(EncodeLogs(logs))
    ensures r.headers == LogHeaders(e.apiKey, |logs|)
    ensures r.headers["X-LogType"] == "otellogs" && r.headers["User-Agent"] == "AWS-Lambda"
    ensures ParseDecimal(r.headers["Log-Size"]) == |r.body.payload.items| == |logs|
  {
    Request(e.url, LogHeaders(e.apiKey, |logs|), GzipJson(EncodeLogs(logs)))
  }

  /** `SendCatalyst`: a failed post, a failed read of the response body, or a
      failed copy of it to the debug file is returned; otherwise nil,
      whatever the HTTP status. */
  function LegacyResult(x: Exchange): (r: Option<Error>)
    ensures r.None? <==> x.Responded? && x.readError.None? && x.echoError.None?
    ensures (x.RequestRejected? || x.SendFailed?) ==> r == Some(x.err)
    ensures x.Responded? && x.readError.Some? ==> r == x.readError
    ensures x.Responded? && x.readError.None? ==> r == x.echoError
  {
    match x
    case RequestRejected(e) => Some(e)
    case SendFailed(e) => Some(e)
    case Responded(_, readError, echoError) => if readError.Some? then readError else echoError
  }

  /** `SendAppLogs` and the tail of `ConsumeLogs`: the response body is never
      read, so any response, whatever its status, gives nil. */
  function StreamResult(x: Exchange): (r: Option<Error>)
    ensures r.None? <==> x.Responded?
    ensures !x.Responded? ==> r == Some(x.err)
  {
    match x
    case RequestRejected(e) => Some(e)
    case SendFailed(e) => Some(e)
    case Responded(_, _, _) => None
  }

  function TraceResult(e: Exporter, x: Exchange): Option<Error>
  {
    if IsLegacyEndpoint(e.url) then LegacyResult(x) else StreamResult(x)
  }
}
