/** The flat records the exporter sends (site24x7_data.go) and their JSON
    form. `json.Marshal` itself is not modelled: a record is encoded as the
    list of its exported fields under their `json` tags, and unexported
    (lower-case) fields are carried in the record but never encoded. */
module Data {
  import opened Pdata

  /** The agent uid every span and log record carries. */
  const S247Uid := "otel-s247exporter"

  /** Record timestamps are in milliseconds; pdata's are in nanoseconds. */
  const NanosPerMilli := 1_000_000

  datatype TelemetrySpanEvent = TelemetrySpanEvent(timestamp: Int64, name: string, eventAttributes: Attributes)

  datatype TelemetrySpanLink = TelemetrySpanLink(linkSpanId: string, linkTraceId: string)

  /** One span attribute, a string key with a value of any dynamic type. */
  datatype TelemetryCustomParam = TelemetryCustomParam(key: string, value: AttrValue)

  /** `TelemetrySpan`, with `timestamp`, `s247Uid` and `rootSpanId`, which
      site24x7_traces.go sets. */
  datatype TelemetrySpan = TelemetrySpan(
    timestamp: Int64,
    s247Uid: string,
    traceId: string,
    spanId: string,
    parentSpanId: string,
    rootSpanId: string,
    name: string,
    kind: string,
    startTime: Int64,
    endTime: Int64,
    duration: real,
    serviceName: string,
    exceptionMessage: seq<string>,
    exceptionStackTrace: seq<string>,
    exceptionType: seq<string>,
    instrumentationLibrary: string,
    instrumentationLibraryVersion: string,
    telemetrySdkLanguage: string,
    telemetrySdkName: string,
    hostIp: string,
    hostName: string,
    hostPort: Int64,
    threadId: Int64,
    threadName: string,
    dbSystem: string,
    dbStatement: string,
    dbName: string,
    dbConnStr: string,
    httpUrl: string,
    httpMethod: string,
    httpStatusCode: Int64,
    isRoot: bool,
    hasError: bool,
    customParams: seq<TelemetryCustomParam>,
    // unexported: carried, never encoded
    resourceAttributes: Attributes,
    spanAttributes: Attributes,
    traceState: string,
    spanEvents: seq<TelemetrySpanEvent>,
    spanLinks: seq<TelemetrySpanLink>,
    statusCode: string,
    statusMsg: string,
    droppedAttributesCount: Uint32,
    droppedLinksCount: Uint32,
    droppedEventsCount: Uint32)

  datatype TelemetryLog = TelemetryLog(
    traceId: string,
    spanId: string,
    timestamp: Int64,
    s247Uid: string,
    name: string,
    logLevel: string,
    message: string,
    logAttributes: Attributes,
    resourceAttributes: Attributes,
    droppedAttributesCount: Uint32,
    traceFlag: Uint32)

  /** A JSON value as the encoder would produce it from a field's Go type. */
  datatype WireValue =
    | WireString(s: string)
    | WireInt(i: int)
    | WireNumber(r: real)
    | WireBool(b: bool)
    | WireStrings(strings: seq<string>)
    | WireParams(params: seq<TelemetryCustomParam>)
    | WireAttributes(attributes: Attributes)

  datatype WireField = WireField(key: string, value: WireValue)

  /** A JSON object: its members in declaration order. */
  type WireObject = seq<WireField>

  /** The encoded batch: a JSON array with one object per record. */
  datatype Payload = JsonArray(items: seq<WireObject>)

  const SpanWireKeys: seq<string> := [
    "trace_id", "span_id", "parent_id", "name", "span_kind", "start_time", "end_time", "duration",
    "service_name", "exception_message", "stack_trace", "exception_class",
    "instrumentation_name", "instrumentation_version", "service_type", "log_sub_type",
    "host_ip", "host_name", "host_port", "thread_id", "thread_name",
    "type", "db_statement", "db_name", "connection_string",
    "url", "http_method", "http_status_code", "root", "error", "custom_param"]

  const LogWireKeys: seq<string> := [
    "TraceId", "SpanId", "_zl_timestamp", "s247agentuid", "name", "LogLevel", "Message",
    "attributes", "ResourceAttributes", "DroppedAttributesCount", "TraceFlag"]

  function Keys(o: WireObject): (r: seq<string>)
    ensures |r| == |o|
  {
    seq(|o|, i requires 0 <= i < |o| => o[i].key)
  }

  /** Pairs each key with the value at the same position. */
  function Fields(keys: seq<string>, values: seq<WireValue>): (o: WireObject)
    requires |keys| == |values|
    ensures Keys(o) == keys
    ensures forall i :: 0 <= i < |o| ==> o[i] == WireField(keys[i], values[i])
  {
    seq(|keys|, i requires 0 <= i < |keys| => WireField(keys[i], values[i]))
  }

  /** The JSON object of a span: the exported fields under their tags. */
  function SpanWire(t: TelemetrySpan): (o: WireObject)
    ensures |o| == 31
    ensures Keys(o) == SpanWireKeys
  {
    Fields(SpanWireKeys, [
      WireString(t.traceId), WireString(t.spanId), WireString(t.parentSpanId), WireString(t.name),
      WireString(t.kind), WireInt(t.startTime), WireInt(t.endTime), WireNumber(t.duration),
      WireString(t.serviceName), WireStrings(t.exceptionMessage), WireStrings(t.exceptionStackTrace), WireStrings(t.exceptionType),
      WireString(t.instrumentationLibrary), WireString(t.instrumentationLibraryVersion), WireString(t.telemetrySdkLanguage), WireString(t.telemetrySdkName),
      WireString(t.hostIp), WireString(t.hostName), WireInt(t.hostPort), WireInt(t.threadId),
      WireString(t.threadName), WireString(t.dbSystem), WireString(t.dbStatement), WireString(t.dbName),
      WireString(t.dbConnStr), WireString(t.httpUrl), WireString(t.httpMethod), WireInt(t.httpStatusCode),
      WireBool(t.isRoot), WireBool(t.hasError), WireParams(t.customParams)])
  }

  /** The fields whose tags differ from their names: the database system is
      sent as "type", the SDK language as "service_type", the SDK name as
      "log_sub_type" and the exception types as "exception_class". */
  lemma SpanWireRenamedFields(t: TelemetrySpan)
    ensures SpanWire(t)[21] == WireField("type", WireString(t.dbSystem))
    ensures SpanWire(t)[14] == WireField("service_type", WireString(t.telemetrySdkLanguage))
    ensures SpanWire(t)[15] == WireField("log_sub_type", WireString(t.telemetrySdkName))
    ensures SpanWire(t)[11] == WireField("exception_class", WireStrings(t.exceptionType))
  {
  }

  /** The flags and the duration sit under "root", "error" and "duration". */
  lemma SpanWireFlags(t: TelemetrySpan)
    ensures SpanWire(t)[28] == WireField("root", WireBool(t.isRoot))
    ensures SpanWire(t)[29] == WireField("error", WireBool(t.hasError))
    ensures SpanWire(t)[7] == WireField("duration", WireNumber(t.duration))
  {
  }

  /** The JSON object of a log record: every field is exported. */
  function LogWire(l: TelemetryLog): (o: WireObject)
    ensures |o| == 11
    ensures Keys(o) == LogWireKeys
    ensures o[2] == WireField("_zl_timestamp", WireInt(l.timestamp))
    ensures o[3] == WireField("s247agentuid", WireString(l.s247Uid))
    ensures o[6] == WireField("Message", WireString(l.message))
  {
    [ WireField("TraceId", WireString(l.traceId)),
      WireField("SpanId", WireString(l.spanId)),
      WireField("_zl_timestamp", WireInt(l.timestamp)),
      WireField("s247agentuid", WireString(l.s247Uid)),
      WireField("name", WireString(l.name)),
      WireField("LogLevel", WireString(l.logLevel)),
      WireField("Message", WireString(l.message)),
      WireField("attributes", WireAttributes(l.logAttributes)),
      WireField("ResourceAttributes", WireAttributes(l.resourceAttributes)),
      WireField("DroppedAttributesCount", WireInt(l.droppedAttributesCount)),
      WireField("TraceFlag", WireInt(l.traceFlag)) ]
  }

  /** The unexported fields never reach the wire: two spans that differ only
      in them encode to the same object. */
  lemma SpanWireIgnoresUnexported(t: TelemetrySpan, u: TelemetrySpan)
    requires u == t.(resourceAttributes := u.resourceAttributes, spanAttributes := u.spanAttributes,
                     traceState := u.traceState, spanEvents := u.spanEvents, spanLinks := u.spanLinks,
                     statusCode := u.statusCode, statusMsg := u.statusMsg,
                     droppedAttributesCount := u.droppedAttributesCount,
                     droppedLinksCount := u.droppedLinksCount, droppedEventsCount := u.droppedEventsCount)
    ensures SpanWire(u) == SpanWire(t)
  {
  }

  function EncodeSpans(spans: seq<TelemetrySpan>): (p: Payload)
    ensures |p.items| == |spans|
    ensures forall i :: 0 <= i < |spans| ==> p.items[i] == SpanWire(spans[i])
  {
    JsonArray(seq(|spans|, i requires 0 <= i < |spans| => SpanWire(spans[i])))
  }

  function EncodeLogs(logs: seq<TelemetryLog>): (p: Payload)
    ensures |p.items| == |logs|
    ensures forall i :: 0 <= i < |logs| ==> p.items[i] == LogWire(logs[i])
  {
    JsonArray(seq(|logs|, i requires 0 <= i < |logs| => LogWire(logs[i])))
  }
}
