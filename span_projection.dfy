/** `CreateTelemetrySpan` (site24x7_traces.go): one pdata span, with the
    context its resource and instrumentation library give it, becomes one
    flat `TelemetrySpan`. The events, links and custom parameters are
    gathered by loops, as in the source; `SpanRecord` is the record those
    loops must produce. */
module SpanProjection {
  import opened Outcomes
  import opened Pdata
  import Text
  import opened Data

  const ExceptionMessageKey := "exception.message"
  const ExceptionStackTraceKey := "exception.stacktrace"
  const ExceptionTypeKey := "exception.type"

  const NetPeerIpKey := "net.peer.ip"
  const NetPeerNameKey := "net.peer.name"
  const NetPeerPortKey := "net.peer.port"
  const ThreadIdKey := "thread.id"
  const ThreadNameKey := "thread.name"
  const DbSystemKey := "db.system"
  const DbStatementKey := "db.statement"
  const DbNameKey := "db.name"
  const DbConnectionStringKey := "db.connection_string"
  const HttpUrlKey := "http.url"
  const HttpMethodKey := "http.method"
  const HttpStatusCodeKey := "http.status_code"

  /** The display name of each span kind, indexed by the enum value. */
  const KindNames: seq<string> := ["UNSPECIFIED", "INTERNAL", "SERVER", "CLIENT", "PRODUCER", "CONSUMER"]

  /** The `switch span.Kind()`: the five known kinds get their names, every
      other value (unspecified or out of range) gets "UNSPECIFIED". */
  function KindName(kind: Int32): (r: string)
    ensures r == if 0 <= kind < |KindNames| then KindNames[kind] else "UNSPECIFIED"
    ensures r == "UNSPECIFIED" <==> !(SpanKindInternal <= kind <= SpanKindConsumer)
  {
    if kind == SpanKindInternal then "INTERNAL"
    else if kind == SpanKindServer then "SERVER"
    else if kind == SpanKindClient then "CLIENT"
    else if kind == SpanKindProducer then "PRODUCER"
    else if kind == SpanKindConsumer then "CONSUMER"
    else "UNSPECIFIED"
  }

  /** `Status().Code().String()`: the protobuf enum names, and the decimal
      value for a code the enum does not name. */
  function StatusCodeString(code: Int32): string
  {
    if code == StatusCodeUnset then "STATUS_CODE_UNSET"
    else if code == StatusCodeOk then "STATUS_CODE_OK"
    else if code == StatusCodeError then "STATUS_CODE_ERROR"
    else Text.Itoa(code)
  }

  /** Only the ERROR code has the name "STATUS_CODE_ERROR": an unknown code
      is written in digits, which never spell it. */
  lemma ErrorNameOnlyForError(code: Int32)
    ensures StatusCodeString(code) == "STATUS_CODE_ERROR" <==> code == StatusCodeError
  {
    if code !in {StatusCodeUnset, StatusCodeOk, StatusCodeError} {
      var s := Text.Itoa(code);
      assert s[0] != 'S';
    }
  }

  /** `hasError`: the status code's name compared with "STATUS_CODE_ERROR". */
  function HasError(status: Status): (r: bool)
    ensures r <==> status.code == StatusCodeError
  {
    ErrorNameOnlyForError(status.code);
    StatusCodeString(status.code) == "STATUS_CODE_ERROR"
  }

  // ---------------------------------------------------------------- events

  function ProjectEvent(ev: Event): (r: TelemetrySpanEvent)
    ensures r.timestamp * NanosPerMilli <= ev.timestamp < (r.timestamp + 1) * NanosPerMilli
    ensures r.name == ev.name && r.eventAttributes == ev.attributes
  {
    TelemetrySpanEvent(ev.timestamp / NanosPerMilli, ev.name, ev.attributes)
  }

  /** An event whose exception attributes, where present, are strings: the
      only events the loop gets past without a panic. */
  predicate EventWellTyped(ev: Event) {
    && StringTyped(ev.attributes, ExceptionMessageKey)
    && StringTyped(ev.attributes, ExceptionStackTraceKey)
    && StringTyped(ev.attributes, ExceptionTypeKey)
  }

  predicate EventsWellTyped(events: seq<Event>) {
    forall i :: 0 <= i < |events| ==> EventWellTyped(events[i])
  }

  /** What one event contributes to the exception list for `key`. */
  function ExceptionOf(ev: Event, key: string): seq<string> {
    if key in ev.attributes && ev.attributes[key].Str? then [ev.attributes[key].s] else []
  }

  /** The values of `key` over the events that carry it, in event order. */
  function ExceptionStrings(events: seq<Event>, key: string): seq<string>
  {
    if events == [] then []
    else ExceptionStrings(events[..|events| - 1], key) + ExceptionOf(events[|events| - 1], key)
  }

  /** An exception list is no longer than the event list. */
  lemma {:induction false} ExceptionStringsBound(events: seq<Event>, key: string)
    ensures |ExceptionStrings(events, key)| <= |events|
    decreases |events|
  {
    if events != [] {
      ExceptionStringsBound(events[..|events| - 1], key);
    }
  }

  /** A string is in an exception list exactly when some event carries it under the key. */
  lemma {:induction false} ExceptionStringsMembers(events: seq<Event>, key: string, x: string)
    ensures x in ExceptionStrings(events, key) <==>
      exists i :: 0 <= i < |events| && key in events[i].attributes && events[i].attributes[key] == Str(x)
    decreases |events|
  {
    if events != [] {
      var init := events[..|events| - 1];
      ExceptionStringsMembers(init, key, x);
      if x in ExceptionStrings(events, key) && x !in ExceptionStrings(init, key) {
        assert key in events[|events| - 1].attributes && events[|events| - 1].attributes[key] == Str(x);
      }
      if exists i :: 0 <= i < |events| && key in events[i].attributes && events[i].attributes[key] == Str(x) {
        var i :| 0 <= i < |events| && key in events[i].attributes && events[i].attributes[key] == Str(x);
        if i < |events| - 1 {
          assert init[i] == events[i];
        }
      }
    }
  }

  /** One more event extends each list by what that event carries. */
  lemma ExceptionStringsStep(events: seq<Event>, i: nat, key: string)
    requires i < |events|
    ensures ExceptionStrings(events[..i + 1], key) == ExceptionStrings(events[..i], key) + ExceptionOf(events[i], key)
  {
    assert events[..i + 1][..i] == events[..i];
  }

  /** The list keeps event order: the exceptions of earlier events come first. */
  lemma {:induction false} ExceptionStringsAppend(a: seq<Event>, b: seq<Event>, key: string)
    ensures ExceptionStrings(a + b, key) == ExceptionStrings(a, key) + ExceptionStrings(b, key)
    decreases |b|
  {
    if b != [] {
      var b' := b[..|b| - 1];
      assert (a + b)[..|a + b| - 1] == a + b';
      ExceptionStringsAppend(a, b', key);
    } else {
      assert a + b == a;
    }
  }

  /** What the event loop produces: the projected events and the three
      exception lists. */
  datatype EventHarvest = EventHarvest(
    events: seq<TelemetrySpanEvent>,
    messages: seq<string>,
    stackTraces: seq<string>,
    types: seq<string>)

  function HarvestOf(events: seq<Event>): EventHarvest
  {
    EventHarvest(
      seq(|events|, i requires 0 <= i < |events| => ProjectEvent(events[i])),
      ExceptionStrings(events, ExceptionMessageKey),
      ExceptionStrings(events, ExceptionStackTraceKey),
      ExceptionStrings(events, ExceptionTypeKey))
  }

  /** One `if v, ok := attrs[key]; ok { list = append(list, v.(string)) }`
      step of the event loop: the assertion panics on a non-string value. */
  method AppendException(ev: Event, key: string, list: seq<string>) returns (r: Projected<seq<string>>)
    ensures r.Completed? <==> StringTyped(ev.attributes, key)
    ensures r.Completed? ==> r.value == list + ExceptionOf(ev, key)
  {
    if key in ev.attributes {
      var v := ev.attributes[key];
      if !v.Str? {
        return Panicked;
      }
      return Completed(list + [v.s]);
    }
    return Completed(list);
  }

  /** What the first `i + 1` events harvest: what the first `i` harvest,
      extended by event `i`. */
  lemma HarvestStep(events: seq<Event>, i: nat)
    requires i < |events|
    ensures HarvestOf(events[..i + 1]) == HarvestOf(events[..i]).(
      events := HarvestOf(events[..i]).events + [ProjectEvent(events[i])],
      messages := HarvestOf(events[..i]).messages + ExceptionOf(events[i], ExceptionMessageKey),
      stackTraces := HarvestOf(events[..i]).stackTraces + ExceptionOf(events[i], ExceptionStackTraceKey),
      types := HarvestOf(events[..i]).types + ExceptionOf(events[i], ExceptionTypeKey))
  {
    ExceptionStringsStep(events, i, ExceptionMessageKey);
    ExceptionStringsStep(events, i, ExceptionStackTraceKey);
    ExceptionStringsStep(events, i, ExceptionTypeKey);
    assert HarvestOf(events[..i + 1]).events == HarvestOf(events[..i]).events + [ProjectEvent(events[i])];
  }

  /** One iteration of the event loop: the event is projected and its three
      exception attributes, where present, are asserted to be strings and
      appended. */
  method HarvestEvent(ev: Event, acc: EventHarvest) returns (r: Projected<EventHarvest>)
    ensures r.Completed? <==> EventWellTyped(ev)
    ensures r.Completed? ==> r.value == acc.(
      events := acc.events + [ProjectEvent(ev)],
      messages := acc.messages + ExceptionOf(ev, ExceptionMessageKey),
      stackTraces := acc.stackTraces + ExceptionOf(ev, ExceptionStackTraceKey),
      types := acc.types + ExceptionOf(ev, ExceptionTypeKey))
  {
    var messages :- AppendException(ev, ExceptionMessageKey, acc.messages);
    var stackTraces :- AppendException(ev, ExceptionStackTraceKey, acc.stackTraces);
    var types :- AppendException(ev, ExceptionTypeKey, acc.types);
    r := Completed(EventHarvest(acc.events + [ProjectEvent(ev)], messages, stackTraces, types));
  }

  /** The loop over `span.Events()`: panics exactly when some event carries a
      non-string exception attribute; otherwise yields the projected events
      and the three exception lists. */
  method CollectEvents(events: seq<Event>) returns (r: Projected<EventHarvest>)
    ensures r.Completed? <==> EventsWellTyped(events)
    ensures r.Completed? ==> r.value == HarvestOf(events)
  {
    var harvest := EventHarvest([], [], [], []);
    var i := 0;
    while i < |events|
      invariant 0 <= i <= |events|
      invariant forall j :: 0 <= j < i ==> EventWellTyped(events[j])
      invariant harvest == HarvestOf(events[..i])
    {
      harvest :- HarvestEvent(events[i], harvest);
      HarvestStep(events, i);
      i := i + 1;
    }
    assert events[..i] == events;
    r := Completed(harvest);
  }

  // ----------------------------------------------------------------- links

  function LinksOf(links: seq<Link>): seq<TelemetrySpanLink>
  {
    seq(|links|, i requires 0 <= i < |links| => TelemetrySpanLink(links[i].spanId, links[i].traceId))
  }

  /** The loop over `span.Links()`: one (span id, trace id) pair per link, in order. */
  method ProjectLinks(links: seq<Link>) returns (r: seq<TelemetrySpanLink>)
    ensures |r| == |links|
    ensures forall i :: 0 <= i < |links| ==> r[i] == TelemetrySpanLink(links[i].spanId, links[i].traceId)
  {
    r := [];
    var i := 0;
    while i < |links|
      invariant 0 <= i <= |links|
      invariant |r| == i
      invariant forall j :: 0 <= j < i ==> r[j] == TelemetrySpanLink(links[j].spanId, links[j].traceId)
    {
      r := r + [TelemetrySpanLink(links[i].spanId, links[i].traceId)];
      i := i + 1;
    }
  }

  // --------------------------------------------------------- custom params

  /** `params` lists every attribute exactly once, paired with its value, in
      some order. */
  predicate IsCustomParamList(params: seq<TelemetryCustomParam>, attrs: Attributes) {
    && (forall i :: 0 <= i < |params| ==> params[i].key in attrs && attrs[params[i].key] == params[i].value)
    && (forall i, j :: 0 <= i < j < |params| ==> params[i].key != params[j].key)
    && (forall k :: k in attrs ==> exists i :: 0 <= i < |params| && params[i].key == k)
  }

  /** `for k, v := range spanAttr`: Go visits a map in no fixed order, so the
      next key is picked arbitrarily among those not yet visited. */
  method CollectCustomParams(attrs: Attributes) returns (params: seq<TelemetryCustomParam>)
    ensures IsCustomParamList(params, attrs)
  {
    params := [];
    var pending := attrs.Keys;
    while pending != {}
      invariant pending <= attrs.Keys
      invariant forall i :: 0 <= i < |params| ==>
        params[i].key in attrs && params[i].key !in pending && attrs[params[i].key] == params[i].value
      invariant forall i, j :: 0 <= i < j < |params| ==> params[i].key != params[j].key
      invariant forall k :: k in attrs && k !in pending ==> exists i :: 0 <= i < |params| && params[i].key == k
      decreases pending
    {
      var k :| k in pending;
      ghost var before := params;
      params := params + [TelemetryCustomParam(k, attrs[k])];
      forall k' | k' in attrs && k' !in pending - {k}
        ensures exists i :: 0 <= i < |params| && params[i].key == k'
      {
        if k' == k {
          assert params[|before|].key == k';
        } else {
          var i :| 0 <= i < |before| && before[i].key == k';
          assert params[i].key == k';
        }
      }
      pending := pending - {k};
    }
  }

  function ParamKeys(params: seq<TelemetryCustomParam>): set<string>
  {
    if params == [] then {} else ParamKeys(params[..|params| - 1]) + {params[|params| - 1].key}
  }

  /** A key is in `ParamKeys` exactly when some parameter carries it. */
  lemma {:induction false} ParamKeysMembers(params: seq<TelemetryCustomParam>, k: string)
    ensures k in ParamKeys(params) <==> exists i :: 0 <= i < |params| && params[i].key == k
    decreases |params|
  {
    if params != [] {
      var init := params[..|params| - 1];
      ParamKeysMembers(init, k);
      if k in ParamKeys(init) {
        var i :| 0 <= i < |init| && init[i].key == k;
        assert params[i].key == k;
      }
      if exists i :: 0 <= i < |params| && params[i].key == k {
        var i :| 0 <= i < |params| && params[i].key == k;
        if i < |init| {
          assert init[i].key == k;
        }
      }
    }
  }

  /** Distinct keys: as many keys as parameters. */
  lemma {:induction false} ParamKeysDistinct(params: seq<TelemetryCustomParam>)
    requires forall i, j :: 0 <= i < j < |params| ==> params[i].key != params[j].key
    ensures |ParamKeys(params)| == |params|
    decreases |params|
  {
    if params != [] {
      var init := params[..|params| - 1];
      var last := params[|params| - 1].key;
      ParamKeysDistinct(init);
      ParamKeysMembers(init, last);
    }
  }

  /** One custom parameter per span attribute. */
  lemma CustomParamCount(params: seq<TelemetryCustomParam>, attrs: Attributes)
    requires IsCustomParamList(params, attrs)
    ensures |params| == |attrs|
  {
    ParamKeysDistinct(params);
    forall k ensures k in ParamKeys(params) <==> k in attrs.Keys {
      ParamKeysMembers(params, k);
    }
    assert ParamKeys(params) == attrs.Keys;
  }

  lemma {:induction false} DistinctKeysOccurOnce(params: seq<TelemetryCustomParam>, p: TelemetryCustomParam)
    requires forall i, j :: 0 <= i < j < |params| ==> params[i].key != params[j].key
    ensures multiset(params)[p] == if p in params then 1 else 0
    decreases |params|
  {
    if params != [] {
      var init := params[..|params| - 1];
      var last := params[|params| - 1];
      assert params == init + [last];
      DistinctKeysOccurOnce(init, p);
      if p == last {
        assert p !in init by {
          forall i | 0 <= i < |init| ensures init[i] != p {
            assert params[i].key != params[|params| - 1].key;
          }
        }
      }
    }
  }

  /** The custom parameters are determined up to order: any two lists the
      loop may produce for the same attributes are permutations of each other. */
  lemma CustomParamsUpToOrder(p: seq<TelemetryCustomParam>, q: seq<TelemetryCustomParam>, attrs: Attributes)
    requires IsCustomParamList(p, attrs) && IsCustomParamList(q, attrs)
    ensures multiset(p) == multiset(q)
  {
    forall x: TelemetryCustomParam
      ensures multiset(p)[x] == multiset(q)[x]
    {
      DistinctKeysOccurOnce(p, x);
      DistinctKeysOccurOnce(q, x);
      if x in p {
        var i :| 0 <= i < |p| && p[i] == x;
        var j :| 0 <= j < |q| && q[j].key == x.key;
        assert q[j] == x;
      }
      if x in q {
        var j :| 0 <= j < |q| && q[j] == x;
        var i :| 0 <= i < |p| && p[i].key == x.key;
        assert p[i] == x;
      }
    }
    assert multiset(p) == multiset(q);
  }

  // ----------------------------------------------------- named attributes

  /** The host, thread, db and http fields read from the span's attributes. */
  datatype NamedAttributes = NamedAttributes(
    hostIp: string,
    hostName: string,
    hostPort: Int64,
    threadId: Int64,
    threadName: string,
    dbSystem: string,
    dbStatement: string,
    dbName: string,
    dbConnStr: string,
    httpUrl: string,
    httpMethod: string,
    httpStatusCode: Int64)

  /** The named attributes that are present have the type their field asserts. */
  predicate NamedWellTyped(attrs: Attributes) {
    && StringTyped(attrs, NetPeerIpKey)
    && StringTyped(attrs, NetPeerNameKey)
    && Int64Typed(attrs, NetPeerPortKey)
    && Int64Typed(attrs, ThreadIdKey)
    && StringTyped(attrs, ThreadNameKey)
    && StringTyped(attrs, DbSystemKey)
    && StringTyped(attrs, DbStatementKey)
    && StringTyped(attrs, DbNameKey)
    && StringTyped(attrs, DbConnectionStringKey)
    && StringTyped(attrs, HttpUrlKey)
    && StringTyped(attrs, HttpMethodKey)
    && Int64Typed(attrs, HttpStatusCodeKey)
  }

  /** Each named field holds its attribute's value, or "" / 0 when the key is absent. */
  predicate IsNamedFrom(attrs: Attributes, n: NamedAttributes) {
    && IsStringFieldOr(attrs, NetPeerIpKey, "", n.hostIp)
    && IsStringFieldOr(attrs, NetPeerNameKey, "", n.hostName)
    && IsInt64Field(attrs, NetPeerPortKey, n.hostPort)
    && IsInt64Field(attrs, ThreadIdKey, n.threadId)
    && IsStringFieldOr(attrs, ThreadNameKey, "", n.threadName)
    && IsStringFieldOr(attrs, DbSystemKey, "", n.dbSystem)
    && IsStringFieldOr(attrs, DbStatementKey, "", n.dbStatement)
    && IsStringFieldOr(attrs, DbNameKey, "", n.dbName)
    && IsStringFieldOr(attrs, DbConnectionStringKey, "", n.dbConnStr)
    && IsStringFieldOr(attrs, HttpUrlKey, "", n.httpUrl)
    && IsStringFieldOr(attrs, HttpMethodKey, "", n.httpMethod)
    && IsInt64Field(attrs, HttpStatusCodeKey, n.httpStatusCode)
  }

  /** The twelve `if attrval, found := spanAttr[...]; found` blocks, in source order. */
  function ExtractNamed(attrs: Attributes): (r: Projected<NamedAttributes>)
    ensures r.Completed? <==> NamedWellTyped(attrs)
    ensures r.Completed? ==> IsNamedFrom(attrs, r.value)
  {
    var hostIp :- LookupString(attrs, NetPeerIpKey);
    var hostName :- LookupString(attrs, NetPeerNameKey);
    var hostPort :- LookupInt64(attrs, NetPeerPortKey);
    var threadId :- LookupInt64(attrs, ThreadIdKey);
    var threadName :- LookupString(attrs, ThreadNameKey);
    var dbSystem :- LookupString(attrs, DbSystemKey);
    var dbStatement :- LookupString(attrs, DbStatementKey);
    var dbName :- LookupString(attrs, DbNameKey);
    var dbConnStr :- LookupString(attrs, DbConnectionStringKey);
    var httpUrl :- LookupString(attrs, HttpUrlKey);
    var httpMethod :- LookupString(attrs, HttpMethodKey);
    var httpStatusCode :- LookupInt64(attrs, HttpStatusCodeKey);
    Completed(NamedAttributes(hostIp, hostName, hostPort, threadId, threadName,
      dbSystem, dbStatement, dbName, dbConnStr, httpUrl, httpMethod, httpStatusCode))
  }

  // ------------------------------------------------------------ the record

  /** The arguments `ConsumeTraces` passes along with the span. */
  datatype SpanContext = SpanContext(
    resourceAttributes: Attributes,
    serviceName: string,
    instLibrary: string,
    instLibraryVersion: string,
    sdkLanguage: string,
    sdkName: string,
    rootSpanId: string)

  /** A span the projection gets through without a panic. */
  predicate SpanWellTyped(span: Span) {
    EventsWellTyped(span.events) && NamedWellTyped(span.attributes)
  }

  function NamedOf(t: TelemetrySpan): NamedAttributes
  {
    NamedAttributes(t.hostIp, t.hostName, t.hostPort, t.threadId, t.threadName,
      t.dbSystem, t.dbStatement, t.dbName, t.dbConnStr, t.httpUrl, t.httpMethod, t.httpStatusCode)
  }

  /** The struct literal at the end of `CreateTelemetrySpan`. */
  function BuildSpan(span: Span, ctx: SpanContext, harvest: EventHarvest, links: seq<TelemetrySpanLink>,
                     named: NamedAttributes, params: seq<TelemetryCustomParam>): TelemetrySpan
  {
    TelemetrySpan(
      span.startTime / NanosPerMilli,                                   // Timestamp
      S247Uid,
      span.traceId,
      span.spanId,
      span.parentSpanId,
      ctx.rootSpanId,
      span.name,
      KindName(span.kind),
      span.startTime,
      span.endTime,
      (span.endTime - span.startTime) as real / (NanosPerMilli as real),  // Duration
      ctx.serviceName,
      harvest.messages,
      harvest.stackTraces,
      harvest.types,
      ctx.instLibrary,
      ctx.instLibraryVersion,
      ctx.sdkLanguage,
      ctx.sdkName,
      named.hostIp,
      named.hostName,
      named.hostPort,
      named.threadId,
      named.threadName,
      named.dbSystem,
      named.dbStatement,
      named.dbName,
      named.dbConnStr,
      named.httpUrl,
      named.httpMethod,
      named.httpStatusCode,
      span.parentSpanId == "",                                          // IsRoot
      HasError(span.status),
      params,
      ctx.resourceAttributes,
      span.attributes,
      span.traceState,
      harvest.events,
      links,
      StatusCodeString(span.status.code),
      span.status.message,
      span.droppedAttributesCount,
      span.droppedLinksCount,
      span.droppedEventsCount)
  }

  /** The record `CreateTelemetrySpan` returns for a span, given the order in
      which the map iteration listed the custom parameters. */
  function SpanRecord(span: Span, ctx: SpanContext, params: seq<TelemetryCustomParam>): (t: TelemetrySpan)
    requires SpanWellTyped(span)
    ensures t.isRoot <==> span.parentSpanId == ""
    ensures t.hasError <==> span.status.code == StatusCodeError
    ensures t.kind == KindName(span.kind)
    ensures t.startTime == span.startTime && t.endTime == span.endTime
    ensures t.timestamp * NanosPerMilli <= span.startTime < (t.timestamp + 1) * NanosPerMilli
    ensures t.duration * (NanosPerMilli as real) == (span.endTime - span.startTime) as real
    ensures |t.spanEvents| == |span.events|
    ensures forall i :: 0 <= i < |span.events| ==> t.spanEvents[i] == ProjectEvent(span.events[i])
    ensures |t.spanLinks| == |span.links|
    ensures forall i :: 0 <= i < |span.links| ==>
      t.spanLinks[i] == TelemetrySpanLink(span.links[i].spanId, span.links[i].traceId)
    ensures t.exceptionMessage == ExceptionStrings(span.events, ExceptionMessageKey)
    ensures t.exceptionStackTrace == ExceptionStrings(span.events, ExceptionStackTraceKey)
    ensures t.exceptionType == ExceptionStrings(span.events, ExceptionTypeKey)
    ensures |t.exceptionMessage| <= |span.events| && |t.exceptionStackTrace| <= |span.events|
    ensures |t.exceptionType| <= |span.events|
    ensures IsNamedFrom(span.attributes, NamedOf(t))
    ensures t.customParams == params
    ensures t.traceId == span.traceId && t.spanId == span.spanId && t.parentSpanId == span.parentSpanId
    ensures t.name == span.name && t.rootSpanId == ctx.rootSpanId && t.s247Uid == S247Uid
    ensures t.serviceName == ctx.serviceName && t.telemetrySdkLanguage == ctx.sdkLanguage
    ensures t.telemetrySdkName == ctx.sdkName && t.instrumentationLibrary == ctx.instLibrary
    ensures t.instrumentationLibraryVersion == ctx.instLibraryVersion
  {
    ExceptionStringsBound(span.events, ExceptionMessageKey);
    ExceptionStringsBound(span.events, ExceptionStackTraceKey);
    ExceptionStringsBound(span.events, ExceptionTypeKey);
    BuildSpan(span, ctx, HarvestOf(span.events), LinksOf(span.links), ExtractNamed(span.attributes).value, params)
  }

  /** `t` is a record `CreateTelemetrySpan` may return for `span`. */
  predicate IsProjectionOf(t: TelemetrySpan, span: Span, ctx: SpanContext) {
    && SpanWellTyped(span)
    && IsCustomParamList(t.customParams, span.attributes)
    && t == SpanRecord(span, ctx, t.customParams)
  }

  /** `CreateTelemetrySpan`: panics exactly when a present exception or named
      attribute has the wrong dynamic type; otherwise returns the projection. */
  method CreateTelemetrySpan(span: Span, ctx: SpanContext) returns (r: Projected<TelemetrySpan>)
    ensures r.Completed? <==> SpanWellTyped(span)
    ensures r.Completed? ==> IsProjectionOf(r.value, span, ctx)
  {
    var harvest :- CollectEvents(span.events);
    var links := ProjectLinks(span.links);
    var named :- ExtractNamed(span.attributes);
    var params := CollectCustomParams(span.attributes);
    assert links == LinksOf(span.links);
    r := Completed(BuildSpan(span, ctx, harvest, links, named, params));
  }
}
