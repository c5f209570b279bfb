/** `CreateLogItem` and `ConsumeLogs` (site24x7_logs.go): each log record
    becomes one flat `TelemetryLog` whose message and ids depend on the type
    of the record's body; the records of a batch are projected in resource ->
    scope -> record order and sent to the streaming endpoint. */
module Logs {
  import opened Outcomes
  import opened Pdata
  import opened Data
  import opened Delivery

  const MsgKey := "msg"
  const SpanIdKey := "span_id"
  const TraceIdKey := "trace_id"

  /** The string rendering `Body().AsString()` gives a map body (its JSON
      text); it is supplied by the caller, as pdata's encoder is not modelled. */
  type Render = map<string, AttrValue> -> string

  /** A body `CreateLogItem` gets through without a panic: a map body's
      "msg", "span_id" and "trace_id" entries, where present, are strings. */
  predicate BodyWellTyped(body: AttrValue) {
    body.KvList? ==>
      && StringTyped(body.entries, MsgKey)
      && StringTyped(body.entries, SpanIdKey)
      && StringTyped(body.entries, TraceIdKey)
  }

  /** `CreateLogItem`: the message starts as the record's name; a string body
      replaces it with the body; a map body replaces it with its "msg" entry,
      or with the body's rendering when there is none, and its "span_id" and
      "trace_id" entries replace the record's ids whenever they are present. */
  function CreateLogItem(rec: LogRecord, resourceAttr: Attributes, render: Render): (r: Projected<TelemetryLog>)
    ensures r.Completed? <==> BodyWellTyped(rec.body)
    ensures r.Completed? ==>
      && r.value.s247Uid == "otel-s247exporter"
      && r.value.timestamp * NanosPerMilli <= rec.timestamp < (r.value.timestamp + 1) * NanosPerMilli
      && r.value.name == rec.name
      && r.value.logLevel == rec.severityText
      && r.value.traceFlag == rec.flags
      && r.value.logAttributes == rec.attributes
      && r.value.resourceAttributes == resourceAttr
      && r.value.droppedAttributesCount == 0
    ensures rec.body.Str? ==> r.Completed? && r.value.message == rec.body.s
    ensures rec.body.KvList? && r.Completed? ==>
      && IsStringFieldOr(rec.body.entries, MsgKey, render(rec.body.entries), r.value.message)
      && IsStringFieldOr(rec.body.entries, SpanIdKey, rec.spanId, r.value.spanId)
      && IsStringFieldOr(rec.body.entries, TraceIdKey, rec.traceId, r.value.traceId)
    ensures !rec.body.Str? && !rec.body.KvList? ==> r.Completed? && r.value.message == rec.name
    ensures !rec.body.KvList? && r.Completed? ==> r.value.spanId == rec.spanId && r.value.traceId == rec.traceId
  {
    var startTime := rec.timestamp / NanosPerMilli;
    var fields :-
      match rec.body
      case Str(s) => Completed((s, rec.traceId, rec.spanId))
      case KvList(kv) =>
        (var msg :- LookupStringOr(kv, MsgKey, render(kv));
         var spanId :- LookupStringOr(kv, SpanIdKey, rec.spanId);
         var traceId :- LookupStringOr(kv, TraceIdKey, rec.traceId);
         Completed((msg, traceId, spanId)))
      case _ => Completed((rec.name, rec.traceId, rec.spanId));
    Completed(TelemetryLog(
      fields.1,           // TraceId
      fields.2,           // SpanId
      startTime,          // Timestamp
      S247Uid,
      rec.name,
      rec.severityText,   // LogLevel
      fields.0,           // Message
      rec.attributes,
      resourceAttr,
      0,                  // DroppedAttributesCount, never set
      rec.flags))
  }

  /** A map body's id entries win even when they hold the empty string. */
  lemma {:induction false} EmptyIdEntryStillOverrides(rec: LogRecord, resourceAttr: Attributes, render: Render)
    requires rec.body.KvList? && BodyWellTyped(rec.body)
    requires SpanIdKey in rec.body.entries && rec.body.entries[SpanIdKey] == Str("")
    ensures CreateLogItem(rec, resourceAttr, render).value.spanId == ""
  {
    var r := CreateLogItem(rec, resourceAttr, render);
    assert IsStringFieldOr(rec.body.entries, SpanIdKey, rec.spanId, r.value.spanId);
  }

  /** A map body without "msg" is rendered: the record's name is not used. */
  lemma MapBodyWithoutMsgIsRendered(rec: LogRecord, resourceAttr: Attributes, render: Render)
    requires rec.body.KvList? && BodyWellTyped(rec.body) && MsgKey !in rec.body.entries
    ensures CreateLogItem(rec, resourceAttr, render).value.message == render(rec.body.entries)
  {
    var r := CreateLogItem(rec, resourceAttr, render);
    assert IsStringFieldOr(rec.body.entries, MsgKey, render(rec.body.entries), r.value.message);
  }

  /** A map body {"msg": "boom", "trace_id": "abc"} on a record whose own
      trace id is "xyz" gives the message "boom" and the trace id "abc". */
  lemma MsgAndTraceIdFromMapBody(rec: LogRecord, resourceAttr: Attributes, render: Render)
    requires rec.body == KvList(map[MsgKey := Str("boom"), TraceIdKey := Str("abc")]) && rec.traceId == "xyz"
    ensures CreateLogItem(rec, resourceAttr, render).Completed?
    ensures CreateLogItem(rec, resourceAttr, render).value.message == "boom"
    ensures CreateLogItem(rec, resourceAttr, render).value.traceId == "abc"
    ensures CreateLogItem(rec, resourceAttr, render).value.spanId == rec.spanId
  {
    var r := CreateLogItem(rec, resourceAttr, render);
    assert SpanIdKey !in rec.body.entries;
    assert IsStringFieldOr(rec.body.entries, MsgKey, render(rec.body.entries), r.value.message);
  }

  // ---------------------------------------------------------------- assembly

  predicate ScopeLogsWellTyped(scope: Scope<LogRecord>) {
    forall k :: 0 <= k < |scope.items| ==> BodyWellTyped(scope.items[k].body)
  }

  predicate ResourceLogsWellTyped(res: Resource<LogRecord>) {
    forall j :: 0 <= j < |res.scopes| ==> ScopeLogsWellTyped(res.scopes[j])
  }

  /** A batch `ConsumeLogs` gets through without a panic. */
  predicate LogsWellTyped(batch: seq<Resource<LogRecord>>) {
    forall i :: 0 <= i < |batch| ==> ResourceLogsWellTyped(batch[i])
  }

  /** `logs` holds the projection of each site, in the sites' order. */
  predicate AreLogItems(logs: seq<TelemetryLog>, sites: seq<Site<LogRecord>>, render: Render) {
    && |logs| == |sites|
    && forall n :: 0 <= n < |sites| ==> CreateLogItem(sites[n].item, sites[n].resource, render) == Completed(logs[n])
  }

  lemma LogItemsStep(logs: seq<TelemetryLog>, sites: seq<Site<LogRecord>>, render: Render,
                     l: TelemetryLog, site: Site<LogRecord>)
    requires AreLogItems(logs, sites, render)
    requires CreateLogItem(site.item, site.resource, render) == Completed(l)
    ensures AreLogItems(logs + [l], sites + [site], render)
  {
  }

  lemma LogItemsAppend(logs: seq<TelemetryLog>, sites: seq<Site<LogRecord>>,
                       more: seq<TelemetryLog>, moreSites: seq<Site<LogRecord>>, render: Render)
    requires AreLogItems(logs, sites, render) && AreLogItems(more, moreSites, render)
    ensures AreLogItems(logs + more, sites + moreSites, render)
  {
    forall n | 0 <= n < |sites + moreSites|
      ensures CreateLogItem((sites + moreSites)[n].item, (sites + moreSites)[n].resource, render)
              == Completed((logs + more)[n])
    {
      if n >= |sites| {
        assert (sites + moreSites)[n] == moreSites[n - |sites|];
        assert (logs + more)[n] == more[n - |sites|];
      }
    }
  }

  /** Every record of a projected scope got through without a panic. */
  lemma ProjectedScopeLogsWellTyped(logs: seq<TelemetryLog>, resource: Attributes, scope: Scope<LogRecord>,
                                    render: Render)
    requires AreLogItems(logs, ItemSites(resource, scope), render)
    ensures ScopeLogsWellTyped(scope)
  {
    forall k | 0 <= k < |scope.items|
      ensures BodyWellTyped(scope.items[k].body)
    {
      assert ItemSites(resource, scope)[k].item == scope.items[k];
    }
  }

  /** The innermost loop of `ConsumeLogs`, over the records of one scope. */
  method AssembleScopeLogs(resourceAttr: Attributes, ilogs: Scope<LogRecord>, render: Render)
    returns (r: Projected<seq<TelemetryLog>>)
    ensures r.Completed? <==> ScopeLogsWellTyped(ilogs)
    ensures r.Completed? ==> AreLogItems(r.value, ItemSites(resourceAttr, ilogs), render)
  {
    var logList: seq<TelemetryLog> := [];
    var k := 0;
    while k < |ilogs.items|
      invariant 0 <= k <= |ilogs.items|
      invariant AreLogItems(logList, ItemSites(resourceAttr, ilogs)[..k], render)
    {
      var rawLogitem := ilogs.items[k];
      var logItem :- CreateLogItem(rawLogitem, resourceAttr, render);
      LogItemsStep(logList, ItemSites(resourceAttr, ilogs)[..k], render, logItem,
                   Site(resourceAttr, ilogs.name, ilogs.version, rawLogitem));
      ItemSitesStep(resourceAttr, ilogs, k);
      logList := logList + [logItem];
      k := k + 1;
    }
    assert ItemSites(resourceAttr, ilogs)[..k] == ItemSites(resourceAttr, ilogs);
    ProjectedScopeLogsWellTyped(logList, resourceAttr, ilogs, render);
    r := Completed(logList);
  }

  /** The middle loop of `ConsumeLogs`, over the scopes of one resource. */
  method AssembleResourceLogs(rlogs: Resource<LogRecord>, render: Render) returns (r: Projected<seq<TelemetryLog>>)
    ensures r.Completed? <==> ResourceLogsWellTyped(rlogs)
    ensures r.Completed? ==> AreLogItems(r.value, ScopeSites(rlogs.attributes, rlogs.scopes), render)
  {
    var resourceAttr := rlogs.attributes;
    var logList: seq<TelemetryLog> := [];
    var j := 0;
    while j < |rlogs.scopes|
      invariant 0 <= j <= |rlogs.scopes|
      invariant AreLogItems(logList, ScopeSites(resourceAttr, rlogs.scopes[..j]), render)
      invariant forall j' :: 0 <= j' < j ==> ScopeLogsWellTyped(rlogs.scopes[j'])
    {
      var scopeLogs :- AssembleScopeLogs(resourceAttr, rlogs.scopes[j], render);
      LogItemsAppend(logList, ScopeSites(resourceAttr, rlogs.scopes[..j]),
                     scopeLogs, ItemSites(resourceAttr, rlogs.scopes[j]), render);
      ScopeSitesStep(resourceAttr, rlogs.scopes, j);
      logList := logList + scopeLogs;
      j := j + 1;
    }
    assert rlogs.scopes[..j] == rlogs.scopes;
    r := Completed(logList);
  }

  /** The loops of `ConsumeLogs` appending to `logList`, resource by resource. */
  method AssembleLogs(batch: seq<Resource<LogRecord>>, render: Render) returns (r: Projected<seq<TelemetryLog>>)
    ensures r.Completed? <==> LogsWellTyped(batch)
    ensures r.Completed? ==> AreLogItems(r.value, Sites(batch), render)
  {
    var logList: seq<TelemetryLog> := [];
    var i := 0;
    while i < |batch|
      invariant 0 <= i <= |batch|
      invariant AreLogItems(logList, Sites(batch[..i]), render)
      invariant forall i' :: 0 <= i' < i ==> ResourceLogsWellTyped(batch[i'])
    {
      var resourceLogs :- AssembleResourceLogs(batch[i], render);
      LogItemsAppend(logList, Sites(batch[..i]), resourceLogs, ScopeSites(batch[i].attributes, batch[i].scopes), render);
      SitesStep(batch, i);
      logList := logList + resourceLogs;
      i := i + 1;
    }
    assert batch[..i] == batch;
    r := Completed(logList);
  }

  /** `ConsumeLogs`: assembly, encoding, then the streaming request, whose
      outcome is returned as the call's error. The log list is returned beside
      the outcome so that the records can be named; the source keeps it local. */
  method ConsumeLogs(e: Exporter, batch: seq<Resource<LogRecord>>, render: Render,
                     marshalError: Option<Error>, exchange: Exchange)
    returns (outcome: ExportOutcome, logList: seq<TelemetryLog>)
    ensures outcome.Panic? <==> !LogsWellTyped(batch)
    ensures !outcome.Panic? ==> AreLogItems(logList, Sites(batch), render)
    ensures !outcome.Panic? && marshalError.Some? ==> outcome == NotSent(marshalError.value)
    ensures !outcome.Panic? && marshalError.None? ==> outcome == Sent(LogRequest(e, logList), StreamResult(exchange))
    ensures !outcome.Panic? ==>
      ReturnedError(outcome) == (if marshalError.Some? then marshalError else StreamResult(exchange))
  {
    var assembled := AssembleLogs(batch, render);
    if assembled.Panicked? {
      return Panic, [];
    }
    logList := assembled.value;
    if marshalError.Some? {
      return NotSent(marshalError.value), logList;
    }
    outcome := Sent(LogRequest(e, logList), StreamResult(exchange));
  }

  /** The `Log-Size` header of a log request is the batch's record count. */
  lemma LogSizeIsRecordCount(e: Exporter, batch: seq<Resource<LogRecord>>, render: Render, logs: seq<TelemetryLog>)
    requires AreLogItems(logs, Sites(batch), render)
    ensures Text.ParseDecimal(LogRequest(e, logs).headers["Log-Size"]) == RecordCount(batch)
  {
    SitesCount(batch);
  }
}
