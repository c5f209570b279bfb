# Site24x7 exporter for OpenTelemetry — a verified model of its core

The Site24x7 exporter is the last stage of an OpenTelemetry Collector
pipeline. It takes decoded batches of traces and logs and flattens each
span or log record into a Site24x7 record. It then posts the batch as JSON
to a Site24x7 endpoint.

The Dafny project models:

- **Span projection.** `CreateTelemetrySpan` covers the kind name, the
  error and root flags, the times, the events with their exception lists,
  the links, the named host/thread/db/http attributes, and the custom
  parameters.
- **The two passes of `ConsumeTraces`.** The first pass resolves each
  trace's root span name. The second pass assembles the records.
- **`CreateLogItem` and the assembly loop of `ConsumeLogs`.**
- **The delivery decisions.** These are the legacy or streaming endpoint,
  the legacy URL, the header set, the request body and the error returned
  for each way the HTTP exchange can end.
- **The record types and their JSON keys.**
- **`Config.Validate`.**

Modules:

| file | module | contents |
|---|---|---|
| outcomes.dfy | `Outcomes` | `Option`, `Error`, and `Projected`: a value, or a Go panic from a failed type assertion |
| pdata.dfy | `Pdata` | the collector's in-memory telemetry, attribute lookups with Go's assertion semantics, and the resource → scope → record traversal |
| text.dfy | `Text` | `strconv.Itoa`, its decimal reading, and `strings.Contains` |
| data.dfy | `Data` | the records of site24x7_data.go and their JSON objects |
| delivery.dfy | `Delivery` | endpoint choice, URL, headers, request, and returned error |
| span_projection.dfy | `SpanProjection` | `CreateTelemetrySpan` |
| traces.dfy | `Traces` | the root-name pass, span assembly, and `ConsumeTraces` |
| logs.dfy | `Logs` | `CreateLogItem`, log assembly, and `ConsumeLogs` |
| config.dfy | `Config` | `Config` and `Validate` |

The source works through loops that append to slices and fill a map in
place. The model keeps those loops as Dafny methods, each proved against a
specification function:

- `CollectEvents` against `HarvestOf` and `ExceptionStrings`.
- `ResolveRootNames` against `RootNames`.
- `AssembleSpans` and `AssembleLogs` against the flattened batch `Sites`.

The source loops over a Go map in no fixed order when it builds
`custom_param`. The model picks the next key nondeterministically. It
states the result as a list that holds every attribute exactly once, and
proves that any two such lists are permutations of each other.

A single-value Go type assertion (`v.(string)`) panics when the value has
another dynamic type. The model returns `Panicked` in that case, and each
operation states exactly which inputs make it panic.

Where the code does not do what one might assume, the model follows the
code:

- A present attribute of the wrong type panics. It is not treated as
  absent.
- A map log body without `"msg"` takes the body's string rendering as its
  message, not the record's name.
- A map body's `"span_id"` / `"trace_id"` entries override the record's ids
  whenever the key is present, even when the value is empty.
- When a trace has several root spans, the last one in traversal order
  names it.

## Model

| member | source | states |
|---|---|---|
| Pdata.LookupStringOr | exporter/site24x7exporter/site24x7_logs.go:47-60 | a present key holding a string yields it, an absent key yields the default, a present non-string panics |
| Pdata.LookupString | exporter/site24x7exporter/site24x7_traces.go:109-150 | a string field reads as the attribute's string when present, "" when absent, and panics on another dynamic type |
| Pdata.LookupInt64 | exporter/site24x7exporter/site24x7_traces.go:115-121 | an int64 field reads as the attribute's integer when present, 0 when absent, and panics on another dynamic type |
| Pdata.SitesCount | exporter/site24x7exporter/site24x7_traces.go:238-241 | the resource → scope → record traversal visits exactly `SpanCount()` / `LogRecordCount()` records |
| Pdata.ScopeSitesCount | exporter/site24x7exporter/site24x7_traces.go:290-312 | the traversal of one resource's scopes visits as many records as those scopes hold |
| Text.ParseItoa | exporter/site24x7exporter/site24x7_traces.go:387 | the decimal text `strconv.Itoa` writes for a count reads back as that count |
| Text.ContainsIffOccurs | exporter/site24x7exporter/site24x7_traces.go:326 | `strings.Contains(url, sub)` holds exactly when `sub` occurs at some position of `url` |
| Data.SpanWire | exporter/site24x7exporter/site24x7_data.go:32-94 | an encoded span has exactly the 31 exported json tags, in declaration order |
| Data.SpanWireRenamedFields | exporter/site24x7exporter/site24x7_data.go:50-74 | the database system is sent under "type", the SDK language under "service_type", the SDK name under "log_sub_type" and the exception types under "exception_class" |
| Data.SpanWireFlags | exporter/site24x7exporter/site24x7_data.go:40-91 | the root and error flags are sent under "root" and "error", and the exact duration under "duration" |
| Data.SpanWireIgnoresUnexported | exporter/site24x7exporter/site24x7_data.go:96-105 | the lower-case fields (attribute maps, trace state, events, links, status, dropped counts) never reach the wire |
| Data.LogWire | exporter/site24x7exporter/site24x7_data.go:108-120 | an encoded log record has the 11 json tags in declaration order, with the timestamp under "_zl_timestamp", the agent uid under "s247agentuid" and the message under "Message" |
| Data.EncodeSpans | exporter/site24x7exporter/site24x7_traces.go:318 | the encoded span list is an array with one object per record, in list order |
| Data.EncodeLogs | exporter/site24x7exporter/site24x7_logs.go:106 | the encoded log list is an array with one object per record, in list order |
| Delivery.LegacyUrl | exporter/site24x7exporter/site24x7_traces.go:344 | the legacy URL is the configured URL followed by "?license.key=" and the API key |
| Delivery.StreamHeaders | exporter/site24x7exporter/site24x7_traces.go:382-390 | the streaming request carries exactly the seven headers X-DeviceKey = API key, Content-Type = application/json, X-LogType, X-StreamMode = 1, Log-Size, Content-Encoding = gzip, User-Agent, and Log-Size reads back as the record count |
| Delivery.TraceRequest | exporter/site24x7exporter/site24x7_traces.go:326-334 | a URL containing "catalyst" gets the legacy URL, a JSON content type and an uncompressed body; any other URL gets the gzip body and the trace headers (X-LogType s247apmopentelemetrytracing, User-Agent site24x7exporter) with Log-Size equal to the number of records sent |
| Delivery.LogRequest | exporter/site24x7exporter/site24x7_logs.go:149-167 | logs always go to the configured URL, gzip-compressed, with X-LogType otellogs, User-Agent AWS-Lambda and Log-Size equal to the number of records |
| Delivery.LegacyResult | exporter/site24x7exporter/site24x7_traces.go:339-363 | the legacy path returns nil exactly when a response arrived and its body was read and copied; otherwise it returns the post error, else the read error, else the error of copying the body to the debug file |
| Delivery.StreamResult | exporter/site24x7exporter/site24x7_traces.go:365-411 | the streaming path returns nil exactly when a response arrived, whatever its status; a request or transport failure is returned |
| SpanProjection.KindName | exporter/site24x7exporter/site24x7_traces.go:92-104 | the five known kinds map to INTERNAL, SERVER, CLIENT, PRODUCER and CONSUMER; exactly the other values map to UNSPECIFIED |
| SpanProjection.ErrorNameOnlyForError | exporter/site24x7exporter/site24x7_traces.go:84-90 | the status code's name is "STATUS_CODE_ERROR" exactly for code 2; unknown codes print as digits |
| SpanProjection.HasError | exporter/site24x7exporter/site24x7_traces.go:84-90 | the error flag holds exactly when the status code is ERROR |
| SpanProjection.ProjectEvent | exporter/site24x7exporter/site24x7_traces.go:53-57 | an event's timestamp becomes whole milliseconds (ns div 1,000,000); its name and attributes are kept |
| SpanProjection.ExceptionStringsBound | exporter/site24x7exporter/site24x7_traces.go:47-73 | an exception list is no longer than the event list |
| SpanProjection.ExceptionStringsMembers | exporter/site24x7exporter/site24x7_traces.go:58-71 | a string is in an exception list exactly when some event carries it under that key |
| SpanProjection.ExceptionStringsAppend | exporter/site24x7exporter/site24x7_traces.go:51-73 | exception lists keep event order: the lists of two runs of events concatenate |
| SpanProjection.AppendException | exporter/site24x7exporter/site24x7_traces.go:60-70 | one exception key of one event: panics exactly when present and not a string, else appends what the event carries |
| SpanProjection.HarvestEvent | exporter/site24x7exporter/site24x7_traces.go:52-72 | one pass of the event loop panics exactly when the event has a non-string exception attribute; otherwise it appends the projected event and extends each exception list by what the event carries |
| SpanProjection.CollectEvents | exporter/site24x7exporter/site24x7_traces.go:46-73 | the event loop panics exactly when some event has a non-string exception attribute; otherwise it yields one projected event per event, in order, and the three in-order exception lists |
| SpanProjection.ProjectLinks | exporter/site24x7exporter/site24x7_traces.go:74-83 | one (span id, trace id) link per input link, in order |
| SpanProjection.CollectCustomParams | exporter/site24x7exporter/site24x7_traces.go:153-160 | the custom parameters list every span attribute exactly once, each paired with its value, in some order |
| SpanProjection.CustomParamCount | exporter/site24x7exporter/site24x7_traces.go:153-160 | there are as many custom parameters as span attributes |
| SpanProjection.ParamKeysDistinct | exporter/site24x7exporter/site24x7_traces.go:153-160 | custom parameters with pairwise distinct keys have as many distinct keys as entries |
| SpanProjection.CustomParamsUpToOrder | exporter/site24x7exporter/site24x7_traces.go:154-160 | any two custom-parameter lists the map iteration may produce are permutations of each other |
| SpanProjection.ExtractNamed | exporter/site24x7exporter/site24x7_traces.go:106-150 | the twelve named fields take their attribute's value when present, "" or 0 when absent; the extraction panics exactly when a present one has the wrong type (int64 for port, thread id and HTTP status, string otherwise) |
| SpanProjection.SpanRecord | exporter/site24x7exporter/site24x7_traces.go:152-224 | the record's root flag holds iff the parent id is empty, its error flag iff the code is ERROR; start and end stay in ns, the timestamp is start div 1,000,000 and the duration is (end − start)/1,000,000 exactly; events and links are one-to-one and in order; exception lists are the in-order harvests; ids, names and context are copied |
| SpanProjection.CreateTelemetrySpan | exporter/site24x7exporter/site24x7_traces.go:34-225 | the projection panics exactly when a present exception or named attribute has the wrong type; otherwise it returns the record `SpanRecord` describes, with a custom-parameter list in some order |
| Traces.RootNamesDomain | exporter/site24x7exporter/site24x7_traces.go:246-268 | after the first pass a trace has a root entry exactly when some span of it has an empty parent id |
| Traces.LastRootNamesTrace | exporter/site24x7exporter/site24x7_traces.go:254-263 | a trace's entry is the name (not the span id) of its last empty-parent span in traversal order |
| Traces.NoRootNoName | exporter/site24x7exporter/site24x7_traces.go:303 | a trace without a root span reads as the empty root name |
| Traces.RootNamesFromAppend | exporter/site24x7exporter/site24x7_traces.go:246-268 | filling the root map over two runs of spans equals filling it over the first run, then the second on top |
| Traces.ResolveScopeRoots | exporter/site24x7exporter/site24x7_traces.go:254-266 | the span loop of one scope updates the root map exactly as `RootNamesFrom` does over that scope's spans |
| Traces.ResolveResourceRoots | exporter/site24x7exporter/site24x7_traces.go:250-267 | the scope loop of one resource updates the root map exactly as `RootNamesFrom` does over that resource's spans |
| Traces.ResolveRootNames | exporter/site24x7exporter/site24x7_traces.go:246-268 | the first pass's triple loop fills the root map with the entries `RootNames` gives for the whole batch |
| Traces.AssembleScope | exporter/site24x7exporter/site24x7_traces.go:296-312 | the span loop of one scope panics exactly when some span does; otherwise one projection per span, in order, each with its resource's names, its scope and its trace's root name |
| Traces.AssembleResource | exporter/site24x7exporter/site24x7_traces.go:273-313 | one resource panics exactly when service.name or telemetry.sdk.* is present and not a string, or a span panics; otherwise its scopes' records, in order |
| Traces.AssembleSpans | exporter/site24x7exporter/site24x7_traces.go:272-314 | the second pass panics exactly when the batch is not well typed; otherwise it yields exactly one projection per span in resource → scope → span order |
| Traces.ConsumeTraces | exporter/site24x7exporter/site24x7_traces.go:227-337 | the whole batch is resolved before any record is built; each record's root name is its trace's entry, or ""; an encoding error is returned before any send; otherwise the request of `TraceRequest` is sent; the returned error is the encoding error when encoding failed, else the endpoint's result |
| Traces.TraceLogSizeIsSpanCount | exporter/site24x7exporter/site24x7_traces.go:387 | on the streaming endpoint, Log-Size reads back as the batch's span count |
| Traces.RootRecordNamesItself | exporter/site24x7exporter/site24x7_traces.go:258-263 | a root span's record is flagged root and, when it is its trace's last root, carries its own name as root name |
| Traces.SingleRootNamesTrace | exporter/site24x7exporter/site24x7_traces.go:303-310 | in a trace with exactly one root span, every record carries that span's name and only the root's record is flagged root |
| Traces.RootlessTraceHasEmptyRootName | exporter/site24x7exporter/site24x7_traces.go:303 | the records of a trace without a root span carry the empty root name |
| Logs.CreateLogItem | exporter/site24x7exporter/site24x7_logs.go:33-76 | a string body is the message; a map body's "msg" is the message, or the body's rendering when absent, and its "span_id"/"trace_id" replace the ids when present; any other body leaves the record's name; it panics exactly when such a map entry is not a string; uid, level, flags, name, attributes and timestamp (ns div 1,000,000) are fixed, and the dropped count is 0 |
| Logs.EmptyIdEntryStillOverrides | exporter/site24x7exporter/site24x7_logs.go:54-56 | a map body's "span_id" entry replaces the record's span id even when it is empty |
| Logs.MapBodyWithoutMsgIsRendered | exporter/site24x7exporter/site24x7_logs.go:47-52 | a map body without "msg" gives the body's rendering as the message, not the record's name |
| Logs.MsgAndTraceIdFromMapBody | exporter/site24x7exporter/site24x7_logs.go:44-60 | the body {"msg":"boom","trace_id":"abc"} on a record with trace id "xyz" gives the message "boom" and the trace id "abc", keeping the span id |
| Logs.AssembleScopeLogs | exporter/site24x7exporter/site24x7_logs.go:96-100 | the record loop of one scope panics exactly when some map body of it is ill typed; otherwise one log item per record, in order, each with its resource's attributes |
| Logs.AssembleResourceLogs | exporter/site24x7exporter/site24x7_logs.go:89-101 | the scope loop of one resource panics exactly when some map body of it is ill typed; otherwise its scopes' log items, in order |
| Logs.AssembleLogs | exporter/site24x7exporter/site24x7_logs.go:87-103 | the nested loops panic exactly when some map body is ill typed; otherwise they yield one record per log entry, in resource → scope → record order |
| Logs.ConsumeLogs | exporter/site24x7exporter/site24x7_logs.go:78-190 | an encoding error is returned before any send; otherwise the log request is sent and nil is returned for any response, whatever its status, and the request or transport error otherwise; the returned error is the encoding error when encoding failed, else that result |
| Logs.LogSizeIsRecordCount | exporter/site24x7exporter/site24x7_logs.go:164 | the Log-Size header of a log request reads back as the batch's record count |
| Config.Validate | exporter/site24x7exporter/config.go:51-64 | an empty URL gives "url must be non-empty" (checked first); otherwise an empty API key gives "API Key must be non-empty"; otherwise nil, whatever the path, timeout, retry and insecure settings |

## Left out

- The HTTP exchange, gzip, and TLS setup (`http.Post`, `client.Do`, reading
  the response, the `x-uploadid` header, `http.DefaultTransport`) are
  foreign I/O. Their results enter as an `Exchange` value. The body is the
  encoded payload tagged as plain or gzip.
- `json.Marshal` is a library call. Its failure enters as a parameter. Its
  output is modelled as one object per record under the json tags. JSON
  text, escaping and number formatting are not modelled.
- `Body().AsString()` of a map body (its JSON rendering) is a function
  parameter `Render`, since pdata's encoder is not modelled. The other pdata
  internals (`AsRaw`, `HexString`, `IsEmpty`) are not modelled either: ids
  are hex strings and an empty id is "".
- The mutex around each `Consume*` call is left out, because concurrency is
  not modelled. Each call is one sequential step.
- The debug writes to the output file and the console prints are left out,
  because they are observational only.
- Duration is an exact real. IEEE-754 rounding of the `float64` division is
  not modelled.
- Timestamps are restricted to 0 .. 2^63−1 ns, the instants at or after
  the Unix epoch. On that range, Go's truncating division and Dafny's
  division agree.
- `TelemetrySpan` in site24x7_data.go lacks `Timestamp`, `S247UID` and
  `RootSpanId`, which site24x7_traces.go sets. The model adds them to the
  record. Their json keys are not declared anywhere, so `Data.SpanWire`
  does not encode them.
- site24x7_file_exporter.go (both copies) is not part of this model. It is
  a superseded variant and file I/O.
- The exporter lifecycle (`Start`, `Shutdown`, `Capabilities`) and metrics
  export are not part of this model.
- `SpanProjection.StatusCodeString` names unknown status codes by their
  decimal value, as the protobuf enum's `String()` does. The protobuf
  library itself is not part of this model.
- Traces.AssembleSpans: the source's nested index loops (both passes of
  `ConsumeTraces`, and the loops of `ConsumeLogs`) are split into one method
  per loop level (`ResolveRootNames` / `ResolveResourceRoots` /
  `ResolveScopeRoots`, `AssembleSpans` / `AssembleResource` /
  `AssembleScope`, `AssembleLogs` / `AssembleResourceLogs` /
  `AssembleScopeLogs`), and the body of the event loop is the method
  `HarvestEvent`. The order, the lookups and the panics are unchanged.
- Traces.ConsumeTraces and Logs.ConsumeLogs also return the assembled
  record list, so that the records can be stated about. The source keeps
  the list local.
