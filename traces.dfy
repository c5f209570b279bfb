/** `ConsumeTraces` (site24x7_traces.go): a first pass over the whole batch
    records, per trace id, the name of that trace's root span; a second pass
    projects every span, in resource -> scope -> span order, with its
    resource's service and SDK names and its trace's root name; the list is
    then encoded and sent. */
module Traces {
  import opened Outcomes
  import opened Pdata
  import opened Data
  import opened Delivery
  import opened SpanProjection

  const ServiceNameKey := "service.name"
  const SdkNameKey := "telemetry.sdk.name"
  const SdkLanguageKey := "telemetry.sdk.language"

  // ------------------------------------------------------------ first pass

  predicate IsRootOf(span: Span, traceId: string) {
    span.parentSpanId == "" && span.traceId == traceId
  }

  /** The root map once the first pass, starting from `roots`, has visited
      `sites`: every span with an empty parent id writes its name under its
      trace id. */
  function RootNamesFrom(roots: map<string, string>, sites: seq<Site<Span>>): map<string, string>
  {
    if sites == [] then roots
    else
      var before := RootNamesFrom(roots, sites[..|sites| - 1]);
      var span := sites[|sites| - 1].item;
      if span.parentSpanId == "" then before[span.traceId := span.name] else before
  }

  /** The root map the first pass builds from an empty map. */
  function RootNames(sites: seq<Site<Span>>): map<string, string>
  {
    RootNamesFrom(map[], sites)
  }

  /** Visiting two runs of sites one after the other is visiting their concatenation. */
  lemma {:induction false} RootNamesFromAppend(roots: map<string, string>, a: seq<Site<Span>>, b: seq<Site<Span>>)
    ensures RootNamesFrom(roots, a + b) == RootNamesFrom(RootNamesFrom(roots, a), b)
    decreases |b|
  {
    if b == [] {
      assert a + b == a;
    } else {
      assert (a + b)[..|a + b| - 1] == a + b[..|b| - 1];
      RootNamesFromAppend(roots, a, b[..|b| - 1]);
    }
  }

  /** `rootSpanList[traceId]`: a trace with no entry reads as "". */
  function RootSpanIdFor(roots: map<string, string>, traceId: string): string
  {
    if traceId in roots then roots[traceId] else ""
  }

  /** A trace has an entry exactly when some span of it has an empty parent id. */
  lemma {:induction false} RootNamesDomain(sites: seq<Site<Span>>, traceId: string)
    ensures traceId in RootNames(sites) <==> exists i :: 0 <= i < |sites| && IsRootOf(sites[i].item, traceId)
    decreases |sites|
  {
    if sites != [] {
      var init := sites[..|sites| - 1];
      RootNamesDomain(init, traceId);
      if exists i :: 0 <= i < |sites| && IsRootOf(sites[i].item, traceId) {
        var i :| 0 <= i < |sites| && IsRootOf(sites[i].item, traceId);
        if i < |sites| - 1 {
          assert init[i] == sites[i];
        }
      }
      if exists i :: 0 <= i < |init| && IsRootOf(init[i].item, traceId) {
        var i :| 0 <= i < |init| && IsRootOf(init[i].item, traceId);
        assert sites[i] == init[i];
      }
    }
  }

  /** The last root span of a trace, in traversal order, names it. */
  lemma {:induction false} LastRootNamesTrace(sites: seq<Site<Span>>, i: nat)
    requires i < |sites| && sites[i].item.parentSpanId == ""
    requires forall j :: i < j < |sites| ==> !IsRootOf(sites[j].item, sites[i].item.traceId)
    ensures RootSpanIdFor(RootNames(sites), sites[i].item.traceId) == sites[i].item.name
    decreases |sites|
  {
    var init := sites[..|sites| - 1];
    if i < |sites| - 1 {
      forall j | i < j < |init|
        ensures !IsRootOf(init[j].item, sites[i].item.traceId)
      {
        assert init[j] == sites[j];
      }
      assert init[i] == sites[i];
      LastRootNamesTrace(init, i);
    }
  }

  /** A trace without a root span gets the empty root name. */
  lemma NoRootNoName(sites: seq<Site<Span>>, traceId: string)
    requires forall j :: 0 <= j < |sites| ==> !IsRootOf(sites[j].item, traceId)
    ensures RootSpanIdFor(RootNames(sites), traceId) == ""
  {
    RootNamesDomain(sites, traceId);
  }

  /** One more site: the fold's last step. */
  lemma RootNamesFromStep(roots: map<string, string>, sites: seq<Site<Span>>, n: nat)
    requires n < |sites|
    ensures RootNamesFrom(roots, sites[..n + 1]) ==
      (if sites[n].item.parentSpanId == "" then RootNamesFrom(roots, sites[..n])[sites[n].item.traceId := sites[n].item.name]
       else RootNamesFrom(roots, sites[..n]))
  {
    assert sites[..n + 1][..n] == sites[..n];
  }

  /** The innermost loop of the first pass, over the spans of one scope. */
  method ResolveScopeRoots(roots: map<string, string>, resource: Attributes, scope: Scope<Span>)
    returns (r: map<string, string>)
    ensures r == RootNamesFrom(roots, ItemSites(resource, scope))
  {
    r := roots;
    var k := 0;
    while k < |scope.items|
      invariant 0 <= k <= |scope.items|
      invariant r == RootNamesFrom(roots, ItemSites(resource, scope)[..k])
    {
      var span := scope.items[k];
      if span.parentSpanId == "" {
        r := r[span.traceId := span.name];
      }
      RootNamesFromStep(roots, ItemSites(resource, scope), k);
      k := k + 1;
    }
    assert ItemSites(resource, scope)[..k] == ItemSites(resource, scope);
  }

  /** The middle loop of the first pass, over the scopes of one resource. */
  method ResolveResourceRoots(roots: map<string, string>, res: Resource<Span>) returns (r: map<string, string>)
    ensures r == RootNamesFrom(roots, ScopeSites(res.attributes, res.scopes))
  {
    r := roots;
    var j := 0;
    while j < |res.scopes|
      invariant 0 <= j <= |res.scopes|
      invariant r == RootNamesFrom(roots, ScopeSites(res.attributes, res.scopes[..j]))
    {
      r := ResolveScopeRoots(r, res.attributes, res.scopes[j]);
      RootNamesFromAppend(roots, ScopeSites(res.attributes, res.scopes[..j]), ItemSites(res.attributes, res.scopes[j]));
      ScopeSitesStep(res.attributes, res.scopes, j);
      j := j + 1;
    }
    assert res.scopes[..j] == res.scopes;
  }

  /** The first pass: `rootSpanList` filled in place over the whole batch. */
  method ResolveRootNames(batch: seq<Resource<Span>>) returns (roots: map<string, string>)
    ensures roots == RootNames(Sites(batch))
  {
    roots := map[];
    var i := 0;
    while i < |batch|
      invariant 0 <= i <= |batch|
      invariant roots == RootNames(Sites(batch[..i]))
    {
      roots := ResolveResourceRoots(roots, batch[i]);
      RootNamesFromAppend(map[], Sites(batch[..i]), ScopeSites(batch[i].attributes, batch[i].scopes));
      SitesStep(batch, i);
      i := i + 1;
    }
    assert batch[..i] == batch;
  }

  // ----------------------------------------------------------- second pass

  /** The resource attributes the second pass asserts to be strings. */
  predicate ResourceWellTyped(attrs: Attributes) {
    StringTyped(attrs, ServiceNameKey) && StringTyped(attrs, SdkNameKey) && StringTyped(attrs, SdkLanguageKey)
  }

  predicate ScopeWellTyped(scope: Scope<Span>) {
    forall k :: 0 <= k < |scope.items| ==> SpanWellTyped(scope.items[k])
  }

  predicate ResourceSpansWellTyped(res: Resource<Span>) {
    ResourceWellTyped(res.attributes) && forall j :: 0 <= j < |res.scopes| ==> ScopeWellTyped(res.scopes[j])
  }

  /** A batch `ConsumeTraces` gets through without a panic: every resource's
      named attributes and every span are well typed. */
  predicate TracesWellTyped(batch: seq<Resource<Span>>) {
    forall i :: 0 <= i < |batch| ==> ResourceSpansWellTyped(batch[i])
  }

  /** The arguments the second pass hands `CreateTelemetrySpan` for one site. */
  function SiteContext(site: Site<Span>, roots: map<string, string>): SpanContext
    requires ResourceWellTyped(site.resource)
  {
    SpanContext(
      site.resource,
      LookupString(site.resource, ServiceNameKey).value,
      site.scopeName,
      site.scopeVersion,
      LookupString(site.resource, SdkLanguageKey).value,
      LookupString(site.resource, SdkNameKey).value,
      RootSpanIdFor(roots, site.item.traceId))
  }

  /** `spans` holds one projection per site, in the sites' order. */
  predicate AreProjections(spans: seq<TelemetrySpan>, sites: seq<Site<Span>>, roots: map<string, string>) {
    && |spans| == |sites|
    && forall n :: 0 <= n < |sites| ==>
         && ResourceWellTyped(sites[n].resource)
         && IsProjectionOf(spans[n], sites[n].item, SiteContext(sites[n], roots))
  }

  lemma ProjectionsStep(spans: seq<TelemetrySpan>, sites: seq<Site<Span>>, roots: map<string, string>,
                        t: TelemetrySpan, site: Site<Span>)
    requires AreProjections(spans, sites, roots)
    requires ResourceWellTyped(site.resource) && IsProjectionOf(t, site.item, SiteContext(site, roots))
    ensures AreProjections(spans + [t], sites + [site], roots)
  {
  }

  /** Every span of a projected scope got through without a panic. */
  lemma ProjectedScopeWellTyped(spans: seq<TelemetrySpan>, resource: Attributes, scope: Scope<Span>,
                                roots: map<string, string>)
    requires AreProjections(spans, ItemSites(resource, scope), roots)
    ensures ScopeWellTyped(scope)
  {
    forall k | 0 <= k < |scope.items|
      ensures SpanWellTyped(scope.items[k])
    {
      assert ItemSites(resource, scope)[k].item == scope.items[k];
    }
  }

  /** The innermost loop of the second pass, over the spans of one scope,
      with the resource's names already read. */
  method AssembleScope(resourceAttr: Attributes, serviceName: string, sdkName: string, sdkLanguage: string,
                       scope: Scope<Span>, roots: map<string, string>)
    returns (r: Projected<seq<TelemetrySpan>>)
    requires ResourceWellTyped(resourceAttr)
    requires serviceName == LookupString(resourceAttr, ServiceNameKey).value
    requires sdkName == LookupString(resourceAttr, SdkNameKey).value
    requires sdkLanguage == LookupString(resourceAttr, SdkLanguageKey).value
    ensures r.Completed? <==> ScopeWellTyped(scope)
    ensures r.Completed? ==> AreProjections(r.value, ItemSites(resourceAttr, scope), roots)
  {
    var spanList: seq<TelemetrySpan> := [];
    var k := 0;
    while k < |scope.items|
      invariant 0 <= k <= |scope.items|
      invariant AreProjections(spanList, ItemSites(resourceAttr, scope)[..k], roots)
    {
      var span := scope.items[k];
      var rootSpanId := RootSpanIdFor(roots, span.traceId);
      var ctx := SpanContext(resourceAttr, serviceName, scope.name, scope.version, sdkLanguage, sdkName, rootSpanId);
      var s247span :- CreateTelemetrySpan(span, ctx);
      ghost var site := Site(resourceAttr, scope.name, scope.version, span);
      assert ctx == SiteContext(site, roots);
      ProjectionsStep(spanList, ItemSites(resourceAttr, scope)[..k], roots, s247span, site);
      ItemSitesStep(resourceAttr, scope, k);
      spanList := spanList + [s247span];
      k := k + 1;
    }
    assert ItemSites(resourceAttr, scope)[..k] == ItemSites(resourceAttr, scope);
    ProjectedScopeWellTyped(spanList, resourceAttr, scope, roots);
    r := Completed(spanList);
  }

  /** Projections of two runs of sites, one after the other. */
  lemma ProjectionsAppend(spans: seq<TelemetrySpan>, sites: seq<Site<Span>>,
                          more: seq<TelemetrySpan>, moreSites: seq<Site<Span>>, roots: map<string, string>)
    requires AreProjections(spans, sites, roots) && AreProjections(more, moreSites, roots)
    ensures AreProjections(spans + more, sites + moreSites, roots)
  {
    forall n | 0 <= n < |sites + moreSites|
      ensures && ResourceWellTyped((sites + moreSites)[n].resource)
              && IsProjectionOf((spans + more)[n], (sites + moreSites)[n].item, SiteContext((sites + moreSites)[n], roots))
    {
      if n >= |sites| {
        assert (sites + moreSites)[n] == moreSites[n - |sites|];
        assert (spans + more)[n] == more[n - |sites|];
      }
    }
  }

  /** The middle loop of the second pass, over the scopes of one resource,
      after its service and SDK names are read. */
  method AssembleResource(res: Resource<Span>, roots: map<string, string>)
    returns (r: Projected<seq<TelemetrySpan>>)
    ensures r.Completed? <==> ResourceSpansWellTyped(res)
    ensures r.Completed? ==> AreProjections(r.value, ScopeSites(res.attributes, res.scopes), roots)
  {
    var resourceAttr := res.attributes;
    var serviceName :- LookupString(resourceAttr, ServiceNameKey);
    var sdkName :- LookupString(resourceAttr, SdkNameKey);
    var sdkLanguage :- LookupString(resourceAttr, SdkLanguageKey);
    var spanList: seq<TelemetrySpan> := [];
    var j := 0;
    while j < |res.scopes|
      invariant 0 <= j <= |res.scopes|
      invariant AreProjections(spanList, ScopeSites(resourceAttr, res.scopes[..j]), roots)
      invariant forall j' :: 0 <= j' < j ==> ScopeWellTyped(res.scopes[j'])
    {
      var scopeSpans :- AssembleScope(resourceAttr, serviceName, sdkName, sdkLanguage, res.scopes[j], roots);
      ProjectionsAppend(spanList, ScopeSites(resourceAttr, res.scopes[..j]),
                        scopeSpans, ItemSites(resourceAttr, res.scopes[j]), roots);
      ScopeSitesStep(resourceAttr, res.scopes, j);
      spanList := spanList + scopeSpans;
      j := j + 1;
    }
    assert res.scopes[..j] == res.scopes;
    r := Completed(spanList);
  }

  /** The second pass: the resources in order, each appending its spans to
      `spanList`. */
  method AssembleSpans(batch: seq<Resource<Span>>, roots: map<string, string>)
    returns (r: Projected<seq<TelemetrySpan>>)
    ensures r.Completed? <==> TracesWellTyped(batch)
    ensures r.Completed? ==> AreProjections(r.value, Sites(batch), roots)
  {
    var spanList: seq<TelemetrySpan> := [];
    var i := 0;
    while i < |batch|
      invariant 0 <= i <= |batch|
      invariant AreProjections(spanList, Sites(batch[..i]), roots)
      invariant forall i' :: 0 <= i' < i ==> ResourceSpansWellTyped(batch[i'])
    {
      var resourceSpans :- AssembleResource(batch[i], roots);
      ProjectionsAppend(spanList, Sites(batch[..i]),
                        resourceSpans, ScopeSites(batch[i].attributes, batch[i].scopes), roots);
      SitesStep(batch, i);
      spanList := spanList + resourceSpans;
      i := i + 1;
    }
    assert batch[..i] == batch;
    r := Completed(spanList);
  }

  /** `ConsumeTraces`: both passes, then the encoding and the delivery. The
      span list is returned beside the outcome so that the records can be
      named; the source keeps it local. */
  method ConsumeTraces(e: Exporter, batch: seq<Resource<Span>>, marshalError: Option<Error>, exchange: Exchange)
    returns (outcome: ExportOutcome, spanList: seq<TelemetrySpan>)
    ensures outcome.Panic? <==> !TracesWellTyped(batch)
    ensures !outcome.Panic? ==> AreProjections(spanList, Sites(batch), RootNames(Sites(batch)))
    ensures !outcome.Panic? && marshalError.Some? ==> outcome == NotSent(marshalError.value)
    ensures !outcome.Panic? && marshalError.None? ==>
      outcome == Sent(TraceRequest(e, spanList), TraceResult(e, exchange))
    ensures !outcome.Panic? ==>
      ReturnedError(outcome) == (if marshalError.Some? then marshalError else TraceResult(e, exchange))
  {
    var roots := ResolveRootNames(batch);
    var assembled := AssembleSpans(batch, roots);
    if assembled.Panicked? {
      return Panic, [];
    }
    spanList := assembled.value;
    if marshalError.Some? {
      return NotSent(marshalError.value), spanList;
    }
    outcome := Sent(TraceRequest(e, spanList), TraceResult(e, exchange));
  }

  /** On the streaming endpoint, `Log-Size` is the batch's span count. */
  lemma TraceLogSizeIsSpanCount(e: Exporter, batch: seq<Resource<Span>>, roots: map<string, string>,
                                spans: seq<TelemetrySpan>)
    requires !IsLegacyEndpoint(e.url)
    requires AreProjections(spans, Sites(batch), roots)
    ensures Text.ParseDecimal(TraceRequest(e, spans).headers["Log-Size"]) == RecordCount(batch)
  {
    SitesCount(batch);
  }

  // ------------------------------------------------- the records' root names

  /** Every record's root flag, and its root name when its span is the last
      root of its trace. */
  lemma RootRecordNamesItself(sites: seq<Site<Span>>, spans: seq<TelemetrySpan>, n: nat)
    requires AreProjections(spans, sites, RootNames(sites))
    requires n < |spans| && sites[n].item.parentSpanId == ""
    requires forall j :: n < j < |sites| ==> !IsRootOf(sites[j].item, sites[n].item.traceId)
    ensures spans[n].isRoot
    ensures spans[n].rootSpanId == sites[n].item.name
  {
    LastRootNamesTrace(sites, n);
  }

  /** In a trace with exactly one root span, every record carries that span's name. */
  lemma SingleRootNamesTrace(sites: seq<Site<Span>>, spans: seq<TelemetrySpan>, i: nat, n: nat)
    requires AreProjections(spans, sites, RootNames(sites))
    requires i < |spans| && n < |spans|
    requires sites[i].item.parentSpanId == ""
    requires sites[n].item.traceId == sites[i].item.traceId
    requires forall j :: 0 <= j < |sites| && j != i ==> !IsRootOf(sites[j].item, sites[i].item.traceId)
    ensures spans[n].rootSpanId == sites[i].item.name
    ensures spans[n].isRoot <==> n == i
  {
    LastRootNamesTrace(sites, i);
  }

  /** A record whose trace has no root span carries the empty root name. */
  lemma RootlessTraceHasEmptyRootName(sites: seq<Site<Span>>, spans: seq<TelemetrySpan>, n: nat)
    requires AreProjections(spans, sites, RootNames(sites))
    requires n < |spans|
    requires forall j :: 0 <= j < |sites| ==> !IsRootOf(sites[j].item, sites[n].item.traceId)
    ensures spans[n].rootSpanId == ""
  {
    NoRootNoName(sites, sites[n].item.traceId);
  }
}
