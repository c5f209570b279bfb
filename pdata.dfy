/** The collector's in-memory telemetry (the `pdata` package) as the
    exporter reads it: raw attribute values, spans, log records, and the
    resource -> scope -> record nesting of a batch. Ids are their hex
    strings; an all-zero id is the empty string, so `IsEmpty()` on an id is
    `id == ""` here. */
module Pdata {
  import opened Outcomes

  type Int32 = x: int | -0x8000_0000 <= x <= 0x7FFF_FFFF
  type Int64 = x: int | -0x8000_0000_0000_0000 <= x <= 0x7FFF_FFFF_FFFF_FFFF
  type Uint32 = x: int | 0 <= x <= 0xFFFF_FFFF

  /** `Timestamp().AsTime().UnixNano()`, restricted to instants at or after
      the Unix epoch, where Go's truncating division and Dafny's agree. */
  type Nanos = x: int | 0 <= x <= 0x7FFF_FFFF_FFFF_FFFF

  /** A value of `AsRaw()`: the dynamic types an `interface{}` attribute
      value can have (nil, string, int64, float64, bool, []byte, []interface{},
      map[string]interface{}). */
  datatype AttrValue =
    | Empty
    | Str(s: string)
    | Int(i: Int64)
    | Double(d: real)
    | Bool(b: bool)
    | Bytes(bytes: seq<bv8>)
    | Array(elements: seq<AttrValue>)
    | KvList(entries: map<string, AttrValue>)

  type Attributes = map<string, AttrValue>

  // Span kinds and status codes are the int32 enums of OTLP.
  const SpanKindUnspecified: Int32 := 0
  const SpanKindInternal: Int32 := 1
  const SpanKindServer: Int32 := 2
  const SpanKindClient: Int32 := 3
  const SpanKindProducer: Int32 := 4
  const SpanKindConsumer: Int32 := 5

  const StatusCodeUnset: Int32 := 0
  const StatusCodeOk: Int32 := 1
  const StatusCodeError: Int32 := 2

  datatype Status = Status(code: Int32, message: string)

  datatype Event = Event(timestamp: Nanos, name: string, attributes: Attributes)

  datatype Link = Link(traceId: string, spanId: string)

  datatype Span = Span(
    traceId: string,
    spanId: string,
    parentSpanId: string,
    traceState: string,
    name: string,
    kind: Int32,
    startTime: Nanos,
    endTime: Nanos,
    attributes: Attributes,
    droppedAttributesCount: Uint32,
    events: seq<Event>,
    droppedEventsCount: Uint32,
    links: seq<Link>,
    droppedLinksCount: Uint32,
    status: Status)

  datatype LogRecord = LogRecord(
    timestamp: Nanos,
    traceId: string,
    spanId: string,
    flags: Uint32,
    severityText: string,
    name: string,
    body: AttrValue,
    attributes: Attributes)

  /** `ResourceSpans` / `ResourceLogs`: the resource's attributes and its
      instrumentation-library groups. */
  datatype Resource<T> = Resource(attributes: Attributes, scopes: seq<Scope<T>>)

  /** `InstrumentationLibrarySpans` / `InstrumentationLibraryLogs`. */
  datatype Scope<T> = Scope(name: string, version: string, items: seq<T>)

  /** One record of a batch together with what encloses it. */
  datatype Site<T> = Site(resource: Attributes, scopeName: string, scopeVersion: string, item: T)

  /** Every record of a batch with its context, in resource -> scope -> record
      order: the order of the exporter's nested index loops. */
  function Sites<T>(batch: seq<Resource<T>>): seq<Site<T>>
  {
    if batch == [] then []
    else Sites(batch[..|batch| - 1]) + ScopeSites(batch[|batch| - 1].attributes, batch[|batch| - 1].scopes)
  }

  function ScopeSites<T>(resource: Attributes, scopes: seq<Scope<T>>): seq<Site<T>>
  {
    if scopes == [] then []
    else ScopeSites(resource, scopes[..|scopes| - 1]) + ItemSites(resource, scopes[|scopes| - 1])
  }

  function ItemSites<T>(resource: Attributes, scope: Scope<T>): seq<Site<T>>
  {
    seq(|scope.items|, k requires 0 <= k < |scope.items| =>
      Site(resource, scope.name, scope.version, scope.items[k]))
  }

  // The steps of a resource -> scope -> record traversal, one level each.

  lemma SitesStep<T>(batch: seq<Resource<T>>, i: nat)
    requires i < |batch|
    ensures Sites(batch[..i + 1]) == Sites(batch[..i]) + ScopeSites(batch[i].attributes, batch[i].scopes)
  {
    assert batch[..i + 1][..i] == batch[..i];
  }

  lemma ScopeSitesStep<T>(resource: Attributes, scopes: seq<Scope<T>>, j: nat)
    requires j < |scopes|
    ensures ScopeSites(resource, scopes[..j + 1]) == ScopeSites(resource, scopes[..j]) + ItemSites(resource, scopes[j])
  {
    assert scopes[..j + 1][..j] == scopes[..j];
  }

  lemma ItemSitesStep<T>(resource: Attributes, scope: Scope<T>, k: nat)
    requires k < |scope.items|
    ensures ItemSites(resource, scope)[..k + 1] ==
            ItemSites(resource, scope)[..k] + [Site(resource, scope.name, scope.version, scope.items[k])]
  {
  }

  /** The number of records in a batch, as `SpanCount()` / `LogRecordCount()` report it. */
  function RecordCount<T>(batch: seq<Resource<T>>): nat
  {
    if batch == [] then 0
    else RecordCount(batch[..|batch| - 1]) + ScopeRecordCount(batch[|batch| - 1].scopes)
  }

  function ScopeRecordCount<T>(scopes: seq<Scope<T>>): nat
  {
    if scopes == [] then 0
    else ScopeRecordCount(scopes[..|scopes| - 1]) + |scopes[|scopes| - 1].items|
  }

  /** The flattened batch has one site per record. */
  lemma {:induction false} SitesCount<T>(batch: seq<Resource<T>>)
    ensures |Sites(batch)| == RecordCount(batch)
    decreases |batch|
  {
    if batch != [] {
      SitesCount(batch[..|batch| - 1]);
      ScopeSitesCount(batch[|batch| - 1].attributes, batch[|batch| - 1].scopes);
    }
  }

  lemma {:induction false} ScopeSitesCount<T>(resource: Attributes, scopes: seq<Scope<T>>)
    ensures |ScopeSites(resource, scopes)| == ScopeRecordCount(scopes)
    decreases |scopes|
  {
    if scopes != [] {
      ScopeSitesCount(resource, scopes[..|scopes| - 1]);
    }
  }

  // Go's `if v, found := attrs[key]; found { x = v.(T) }`: a missing key
  // leaves the zero value (or the given default), a present key of another
  // dynamic type panics.

  predicate StringTyped(attrs: Attributes, key: string) {
    key in attrs ==> attrs[key].Str?
  }

  predicate Int64Typed(attrs: Attributes, key: string) {
    key in attrs ==> attrs[key].Int?
  }

  /** `v` is what a string field takes from `attrs[key]` when it starts as `default`. */
  predicate IsStringFieldOr(attrs: Attributes, key: string, default: string, v: string) {
    if key in attrs then attrs[key] == Str(v) else v == default
  }

  predicate IsInt64Field(attrs: Attributes, key: string, v: Int64) {
    if key in attrs then attrs[key] == Int(v) else v == 0
  }

  function LookupStringOr(attrs: Attributes, key: string, default: string): (r: Projected<string>)
    ensures r.Completed? <==> StringTyped(attrs, key)
    ensures r.Completed? ==> IsStringFieldOr(attrs, key, default, r.value)
  {
    if key !in attrs then Completed(default)
    else match attrs[key]
      case Str(s) => Completed(s)
      case _ => Panicked
  }

  function LookupString(attrs: Attributes, key: string): (r: Projected<string>)
    ensures r.Completed? <==> StringTyped(attrs, key)
    ensures r.Completed? ==> IsStringFieldOr(attrs, key, "", r.value)
  {
    LookupStringOr(attrs, key, "")
  }

  function LookupInt64(attrs: Attributes, key: string): (r: Projected<Int64>)
    ensures r.Completed? <==> Int64Typed(attrs, key)
    ensures r.Completed? ==> IsInt64Field(attrs, key, r.value)
  {
    if key !in attrs then Completed(0)
    else match attrs[key]
      case Int(i) => Completed(i)
      case _ => Panicked
  }
}
