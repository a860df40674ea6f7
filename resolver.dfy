/** Resolution of the root-cause context: the record `model()` assembles, the defaults
    and session auto-recovery of `afterModel`, and the three overlays of
    `setupController` (metric, then anomaly, then session), each of which replaces the
    whole context when its record was found. */
module Resolver {
  import opened JsText
  import opened TimeAlign
  import opened Granularity
  import opened Ranges

  const MetricUrnPrefix := "thirdeye:metric:"
  const AnomalyUrnPrefix := "thirdeye:event:anomaly:"
  const FunctionUrnPrefix := "frontend:anomalyfunction:"

  /** A metric's identity record, by the first values of its `granularity` and
      `maxTime` attributes. */
  datatype MetricEntity = MetricEntity(granularity: string, maxTime: int)

  /** An anomaly's identity record: its `start`, `end` and multi-valued attributes. */
  datatype AnomalyEntity = AnomalyEntity(start: int, end: int, attributes: map<string, seq<string>>)

  /** A saved investigation session; a text of None is a session saved without one. */
  datatype SessionRecord = SessionRecord(
    id: string, name: string, text: Option<string>, owner: string, permissions: string,
    updatedBy: string, updated: int,
    contextUrns: seq<string>, selectedUrns: seq<string>,
    anomalyRangeStart: int, anomalyRangeEnd: int,
    analysisRangeStart: int, analysisRangeEnd: int,
    granularity: string, compareMode: string, anomalyUrns: seq<string>)

  /** The route's query parameters; None stands for an absent parameter. */
  datatype QueryParams = QueryParams(metricId: Option<string>, sessionId: Option<string>, anomalyId: Option<string>)

  /** What each lookup of `model()` settled to: None (or no sessions) where the request
      failed or found nothing. */
  datatype Lookups = Lookups(
    metric: Option<MetricEntity>, anomaly: Option<AnomalyEntity>,
    anomalySessions: seq<SessionRecord>, session: Option<SessionRecord>)

  /** The route's model object. */
  datatype RouteModel = RouteModel(
    metricId: Option<string>, metricUrn: Option<string>, metricEntity: Option<MetricEntity>,
    sessionId: Option<string>, session: Option<SessionRecord>,
    anomalyId: Option<string>, anomalyUrn: Option<string>, anomalyEntity: Option<AnomalyEntity>,
    anomalySessions: seq<SessionRecord>)

  /** JavaScript truthiness of an optional string id. */
  predicate Truthy(x: Option<string>) { x.Some? && x.value != "" }

  /** `model(params)` without its requests: URNs are built for the ids present, and a
      record is only looked up, so only kept, when its id is present. */
  function ModelOf(params: QueryParams, lookups: Lookups): (m: RouteModel)
    ensures m.metricUrn.Some? <==> Truthy(params.metricId)
    ensures m.metricUrn.Some? ==> m.metricUrn.value == MetricUrnPrefix + params.metricId.value
    ensures m.anomalyUrn.Some? <==> Truthy(params.anomalyId)
    ensures m.anomalyUrn.Some? ==> m.anomalyUrn.value == AnomalyUrnPrefix + params.anomalyId.value
    ensures !Truthy(params.metricId) ==> m.metricEntity.None?
    ensures !Truthy(params.anomalyId) ==> m.anomalyEntity.None? && m.anomalySessions == []
    ensures !Truthy(params.sessionId) ==> m.session.None?
    ensures Truthy(params.metricId) ==> m.metricEntity == lookups.metric
    ensures Truthy(params.anomalyId) ==>
      m.anomalyEntity == lookups.anomaly && m.anomalySessions == lookups.anomalySessions
    ensures Truthy(params.sessionId) ==> m.session == lookups.session
    ensures m.metricId == params.metricId && m.sessionId == params.sessionId && m.anomalyId == params.anomalyId
  {
    var withMetric := Truthy(params.metricId);
    var withAnomaly := Truthy(params.anomalyId);
    RouteModel(
      params.metricId,
      if withMetric then Some(MetricUrnPrefix + params.metricId.value) else None,
      if withMetric then lookups.metric else None,
      params.sessionId,
      if Truthy(params.sessionId) then lookups.session else None,
      params.anomalyId,
      if withAnomaly then Some(AnomalyUrnPrefix + params.anomalyId.value) else None,
      if withAnomaly then lookups.anomaly else None,
      if withAnomaly then lookups.anomalySessions else [])
  }

  /** The default values `afterModel` merges into the model. */
  datatype Params = Params(anomalyRange: TimeRange, analysisRange: TimeRange, granularity: string, compareMode: string)

  function DefaultParams(now: int): Params
  {
    Params(DefaultAnomalyRange(now), DefaultAnalysisRange(now), "1_HOURS", "WoW")
  }

  /** The navigation `afterModel` asks for: `sessionId` set, `anomalyId` cleared. */
  datatype Redirect = Redirect(sessionId: string, anomalyId: Option<string>)

  /** The model after `afterModel`, the defaults merged into it, and the redirect. */
  datatype Recovered = Recovered(model: RouteModel, params: Params, redirect: Option<Redirect>)

  /** Index of `_.last(_.sortBy(sessions, 'updated'))`: a greatest `updated`, and of
      those the last in input order, since the sort is stable. */
  function MostRecentIndex(sessions: seq<SessionRecord>): (k: nat)
    requires |sessions| > 0
    ensures k < |sessions|
    ensures forall j :: 0 <= j < |sessions| ==> sessions[j].updated <= sessions[k].updated
    ensures forall j :: k < j < |sessions| ==> sessions[j].updated < sessions[k].updated
  {
    if |sessions| == 1 then 0
    else
      var k := MostRecentIndex(sessions[..|sessions| - 1]);
      if sessions[|sessions| - 1].updated >= sessions[k].updated then |sessions| - 1 else k
  }

  /** `afterModel(model, transition)`: merges the defaults; when the anomaly has saved
      sessions, adopts the latest one in place of the anomaly and asks for a redirect. */
  function AfterModel(model: RouteModel, now: int): (r: Recovered)
    ensures r.params == DefaultParams(now)
    ensures model.anomalySessions == [] ==> r.model == model && r.redirect.None?
    ensures model.anomalySessions != [] ==>
      var latest := model.anomalySessions[MostRecentIndex(model.anomalySessions)];
      && r.model == model.(anomalyId := None, anomalyUrn := None,
                           sessionId := Some(latest.id), session := Some(latest))
      && r.redirect == Some(Redirect(latest.id, None))
  {
    var params := DefaultParams(now);
    if model.anomalySessions == [] then Recovered(model, params, None)
    else
      var mostRecent := model.anomalySessions[MostRecentIndex(model.anomalySessions)];
      Recovered(
        model.(anomalyId := None, anomalyUrn := None, sessionId := Some(mostRecent.id), session := Some(mostRecent)),
        params,
        Some(Redirect(mostRecent.id, None)))
  }

  /** The rca-utils helpers the route calls, whose definitions are not part of this
      model, and the date formatting it uses for session names. */
  datatype Helpers = Helpers(
    value2filter: (string, string) -> string,
    appendFilters: (string, seq<string>) -> string,
    toCurrentUrn: string -> string,
    toBaselineUrn: string -> string,
    formatTime: int -> string)

  /** What `setupController` reads from outside the model: the current time, the
      signed-in user's name and the helpers. */
  datatype Env = Env(now: int, user: string, helpers: Helpers)

  datatype Context = Context(
    urns: set<string>, anomalyRange: TimeRange, analysisRange: TimeRange,
    granularity: string, compareMode: string, anomalyUrns: set<string>)

  /** ROOTCAUSE_SETUP_MODE_CONTEXT ("context"), _SELECTED ("selected"), _NONE ("none"). */
  datatype SetupMode = SetupContext | SetupSelected | SetupNone

  /** The session properties; a text of None is JavaScript's undefined. */
  datatype SessionMeta = SessionMeta(
    name: string, text: Option<string>, owner: string, permissions: string,
    updatedBy: string, updatedTime: Option<int>, modified: bool)

  /** The `let` variables of `setupController` between two overlays. */
  datatype Locals = Locals(
    context: Context, selectedUrns: set<string>, meta: SessionMeta,
    setupMode: SetupMode, errors: set<string>)

  /** The properties `setupController` hands to the controller. */
  datatype Resolution = Resolution(
    errors: set<string>, anomalyId: Option<string>, metricId: Option<string>,
    sessionId: Option<string>, meta: SessionMeta, selectedUrns: set<string>,
    sizeMetricUrns: set<string>, setupMode: SetupMode, context: Context)

  /** `new Set(s)`. */
  function SetOf(s: seq<string>): (r: set<string>)
    ensures forall x :: x in r <==> x in s
  {
    set x | x in s
  }

  /** `new Set([a, b].concat(rest))` for the one or no function URN the anomaly
      overlay appends. */
  lemma SetOfUrns(a: string, b: string, rest: seq<string>)
    ensures |rest| == 1 ==> SetOf([a, b] + rest) == {a, b, rest[0]}
    ensures rest == [] ==> SetOf([a, b] + rest) == {a, b}
  {
    if |rest| == 1 {
      assert forall x :: x in [a, b] + rest <==> x == a || x == b || x == rest[0];
    } else if rest == [] {
      assert [a, b] + rest == [a, b];
    }
  }

  /** `filterPrefix(urns, prefix)`. */
  function FilterPrefix(urns: set<string>, prefix: string): (r: set<string>)
    ensures forall u :: u in r <==> u in urns && StartsWith(u, prefix)
  {
    set u | u in urns && StartsWith(u, prefix)
  }

  function DefaultContext(p: Params): Context
  {
    Context({}, p.anomalyRange, p.analysisRange, p.granularity, p.compareMode, {})
  }

  function DefaultMeta(env: Env): SessionMeta
  {
    SessionMeta("New Investigation (" + env.helpers.formatTime(env.now) + ")", Some(""), env.user,
                "READ_WRITE", "", None, true)
  }

  function InitialLocals(p: Params, env: Env): Locals
  {
    Locals(DefaultContext(p), {}, DefaultMeta(env), SetupContext, {})
  }

  predicate MetricRequested(m: RouteModel) { Truthy(m.metricId) && Truthy(m.metricUrn) }
  predicate AnomalyRequested(m: RouteModel) { Truthy(m.anomalyId) && Truthy(m.anomalyUrn) }
  predicate SessionRequested(m: RouteModel) { Truthy(m.sessionId) }

  // ---------------------------------------------------------------- metric overlay

  /** The context the metric overlay builds for `metricUrn`. */
  function MetricContext(metricUrn: string, e: MetricEntity, compareMode: string): Context
    requires WellFormed(e.granularity)
  {
    var granularity := AdjustGranularity(e.granularity);
    var metricGranularity := ToMetricGranularity(granularity);
    WellFormedAdjusted(e.granularity);
    var anomalyRange := MetricAnomalyRange(e.maxTime, metricGranularity.count.n, metricGranularity.unit.value);
    Context({metricUrn}, anomalyRange,
            AnalysisRange(anomalyRange.end, anomalyRange.end, metricGranularity.unit),
            if granularity == "1_DAYS" then "1_HOURS" else granularity,
            compareMode, {})
  }

  /** The metric's context: a window that ends at the snapped maximum time and an
      analysis window around its end, at the normalised granularity (daily metrics are
      shown hourly), for that metric alone. */
  lemma MetricContextWindow(metricUrn: string, e: MetricEntity, compareMode: string)
    requires WellFormed(e.granularity)
    ensures var g := ToMetricGranularity(AdjustGranularity(e.granularity));
      var c := MetricContext(metricUrn, e, compareMode);
      && g.count.Num? && g.count.n != 0 && g.unit.Some? && g.unit.value in {Minute, Hour, Day}
      && c.anomalyRange == MetricAnomalyRange(e.maxTime, g.count.n, g.unit.value)
      && c.anomalyRange.end == AdjustMaxTime(e.maxTime, g.count.n, g.unit.value)
      && c.anomalyRange.start < c.anomalyRange.end <= e.maxTime
      && c.analysisRange == AnalysisRange(c.anomalyRange.end, c.anomalyRange.end, g.unit)
      && c.urns == {metricUrn} && c.anomalyUrns == {} && c.compareMode == compareMode
      && c.granularity == if AdjustGranularity(e.granularity) == "1_DAYS" then "1_HOURS"
                          else AdjustGranularity(e.granularity)
  {
    WellFormedAdjusted(e.granularity);
  }

  /** The metric's context once its normalised granularity is known to map to `n`
      units of `u` and not to be displayed hourly. */
  lemma MetricContextOf(metricUrn: string, e: MetricEntity, compareMode: string, n: int, u: Unit)
    requires WellFormed(e.granularity)
    requires ToMetricGranularity(AdjustGranularity(e.granularity)) == MetricGranularity(Num(n), Some(u))
    requires AdjustGranularity(e.granularity) != "1_DAYS"
    ensures u in {Minute, Hour, Day} && n != 0
    ensures var w := MetricAnomalyRange(e.maxTime, n, u);
      MetricContext(metricUrn, e, compareMode) ==
        Context({metricUrn}, w, AnalysisRange(w.end, w.end, Some(u)), AdjustGranularity(e.granularity), compareMode, {})
  {
    WellFormedAdjusted(e.granularity);
  }

  function MetricSelection(metricUrn: string, h: Helpers): set<string>
  {
    {metricUrn, h.toCurrentUrn(metricUrn), h.toBaselineUrn(metricUrn)}
  }

  function MetricOverlay(m: RouteModel, p: Params, env: Env, l: Locals): (r: Locals)
    requires MetricRequested(m) && m.metricEntity.Some? ==> WellFormed(m.metricEntity.value.granularity)
    ensures r.errors == l.errors && r.meta == l.meta
  {
    if MetricRequested(m) && m.metricEntity.Some? then
      l.(context := MetricContext(m.metricUrn.value, m.metricEntity.value, p.compareMode),
         selectedUrns := MetricSelection(m.metricUrn.value, env.helpers),
         setupMode := SetupSelected)
    else l
  }

  // --------------------------------------------------------------- anomaly overlay

  /** `anomalyEntity.attributes['dimensions'] || []`. */
  function DimensionNames(attrs: map<string, seq<string>>): seq<string>
  {
    if "dimensions" in attrs then attrs["dimensions"] else []
  }

  /** `attrs[key][0]` as a template literal renders it; "undefined" for no value. */
  function FirstValue(attrs: map<string, seq<string>>, key: string): string
  {
    if key in attrs && |attrs[key]| > 0 then attrs[key][0] else "undefined"
  }

  predicate HasFunctionId(attrs: map<string, seq<string>>)
  {
    "functionId" in attrs && |attrs["functionId"]| > 0
  }

  /** The attributes the anomaly overlay dereferences: without them the route fails
      with a TypeError. */
  predicate AnomalyWellFormed(e: AnomalyEntity)
  {
    && "metricGranularity" in e.attributes && |e.attributes["metricGranularity"]| > 0
    && "metricId" in e.attributes
    && "comment" in e.attributes
    && forall name :: name in DimensionNames(e.attributes) ==> name in e.attributes
  }

  /** One filter per value of one dimension, in the order of the values. */
  function ValueFilters(name: string, values: seq<string>, value2filter: (string, string) -> string): (r: seq<string>)
    ensures |r| == |values|
    ensures forall j :: 0 <= j < |values| ==> r[j] == value2filter(name, values[j])
  {
    seq(|values|, j requires 0 <= j < |values| => value2filter(name, values[j]))
  }

  /** The filters of the nested `forEach` loops: dimension names first, then each
      name's values, all in order. */
  function DimensionFilters(names: seq<string>, attrs: map<string, seq<string>>,
                            value2filter: (string, string) -> string): seq<string>
    requires forall name :: name in names ==> name in attrs
  {
    if names == [] then []
    else
      var last := names[|names| - 1];
      DimensionFilters(names[..|names| - 1], attrs, value2filter) + ValueFilters(last, attrs[last], value2filter)
  }

  function AnomalyFilters(e: AnomalyEntity, h: Helpers): seq<string>
    requires AnomalyWellFormed(e)
  {
    DimensionFilters(DimensionNames(e.attributes), e.attributes, h.value2filter)
  }

  function AnomalyMetricUrn(e: AnomalyEntity, h: Helpers): string
    requires AnomalyWellFormed(e)
  {
    h.appendFilters(MetricUrnPrefix + FirstValue(e.attributes, "metricId"), AnomalyFilters(e, h))
  }

  function AnomalyFunctionUrn(e: AnomalyEntity, h: Helpers): string
    requires AnomalyWellFormed(e) && HasFunctionId(e.attributes)
  {
    h.appendFilters(FunctionUrnPrefix + e.attributes["functionId"][0], AnomalyFilters(e, h))
  }

  /** The context the anomaly overlay builds for `anomalyUrn`. */
  function AnomalyContext(anomalyUrn: string, e: AnomalyEntity, h: Helpers): Context
    requires AnomalyWellFormed(e)
  {
    var granularity := AdjustGranularity(e.attributes["metricGranularity"][0]);
    var metricGranularity := ToMetricGranularity(granularity);
    var metricUrn := AnomalyMetricUrn(e, h);
    var functionUrns := if HasFunctionId(e.attributes) then [AnomalyFunctionUrn(e, h)] else [];
    Context({metricUrn}, TimeRange(e.start, e.end),
            AnalysisRange(e.start, e.end, metricGranularity.unit),
            granularity, "WoW", SetOf([anomalyUrn, metricUrn] + functionUrns))
  }

  /** The anomaly's context: its own window, a day-aligned analysis window around it,
      week-over-week comparison, its filtered metric, and as anomaly URNs the anomaly,
      that metric and its detection function when it has one. */
  lemma AnomalyContextFacts(anomalyUrn: string, e: AnomalyEntity, h: Helpers)
    requires AnomalyWellFormed(e)
    ensures var c := AnomalyContext(anomalyUrn, e, h);
      var g := AdjustGranularity(e.attributes["metricGranularity"][0]);
      && c.anomalyRange == TimeRange(e.start, e.end)
      && c.granularity == g
      && c.analysisRange == AnalysisRange(e.start, e.end, ToMetricGranularity(g).unit)
      && c.compareMode == "WoW" && c.urns == {AnomalyMetricUrn(e, h)}
      && (HasFunctionId(e.attributes) ==>
            c.anomalyUrns == {anomalyUrn, AnomalyMetricUrn(e, h), AnomalyFunctionUrn(e, h)})
      && (!HasFunctionId(e.attributes) ==> c.anomalyUrns == {anomalyUrn, AnomalyMetricUrn(e, h)})
  {
    var functionUrns := if HasFunctionId(e.attributes) then [AnomalyFunctionUrn(e, h)] else [];
    SetOfUrns(anomalyUrn, AnomalyMetricUrn(e, h), functionUrns);
  }

  /** `attributes.comment[0]`: undefined when the anomaly has no comment. */
  function AnomalyText(e: AnomalyEntity): Option<string>
    requires AnomalyWellFormed(e)
  {
    var comment := e.attributes["comment"];
    if |comment| > 0 then Some(comment[0]) else None
  }

  function AnomalySessionName(anomalyId: string, env: Env): string
  {
    "New Investigation of #" + anomalyId + " (" + env.helpers.formatTime(env.now) + ")"
  }

  function AnomalyError(anomalyId: string): string { "Could not find anomalyId " + anomalyId }

  function AnomalyOverlay(m: RouteModel, env: Env, l: Locals): Locals
    requires AnomalyRequested(m) && m.anomalyEntity.Some? ==> AnomalyWellFormed(m.anomalyEntity.value)
  {
    if !AnomalyRequested(m) then l
    else if m.anomalyEntity.None? then l.(errors := l.errors + {AnomalyError(m.anomalyId.value)})
    else
      var e := m.anomalyEntity.value;
      l.(context := AnomalyContext(m.anomalyUrn.value, e, env.helpers),
         selectedUrns := {m.anomalyUrn.value, AnomalyMetricUrn(e, env.helpers)},
         meta := l.meta.(name := AnomalySessionName(m.anomalyId.value, env),
                         text := AnomalyText(e)),
         setupMode := SetupSelected)
  }

  // --------------------------------------------------------------- session overlay

  /** The context saved in a session, taken over as it is. */
  function SessionContext(s: SessionRecord): Context
  {
    Context(SetOf(s.contextUrns), TimeRange(s.anomalyRangeStart, s.anomalyRangeEnd),
            TimeRange(s.analysisRangeStart, s.analysisRangeEnd), s.granularity, s.compareMode,
            SetOf(s.anomalyUrns))
  }

  /** The session's own name, text, owner, permissions and update stamp, unmodified. */
  function SessionMetaOf(s: SessionRecord): SessionMeta
  {
    SessionMeta(s.name, s.text, s.owner, s.permissions, s.updatedBy, Some(s.updated), false)
  }

  function SessionError(sessionId: string): string { "Could not find sessionId " + sessionId }

  function SessionOverlay(m: RouteModel, l: Locals): Locals
  {
    if !SessionRequested(m) then l
    else if m.session.None? then l.(errors := l.errors + {SessionError(m.sessionId.value)})
    else
      var s := m.session.value;
      l.(context := SessionContext(s), selectedUrns := SetOf(s.selectedUrns),
         meta := SessionMetaOf(s), setupMode := SetupNone)
  }

  // ------------------------------------------------------------------- resolution

  /** The records `setupController` can work on without failing. */
  predicate Resolvable(m: RouteModel)
  {
    && (MetricRequested(m) && m.metricEntity.Some? ==> WellFormed(m.metricEntity.value.granularity))
    && (AnomalyRequested(m) && m.anomalyEntity.Some? ==> AnomalyWellFormed(m.anomalyEntity.value))
  }

  /** `setupController` as an ordered fold of its three overlays over the defaults. */
  function Resolve(m: RouteModel, p: Params, env: Env): Resolution
    requires Resolvable(m)
  {
    var l := SessionOverlay(m, AnomalyOverlay(m, env, MetricOverlay(m, p, env, InitialLocals(p, env))));
    Resolution(l.errors, m.anomalyId, m.metricId, m.sessionId, l.meta, l.selectedUrns,
               FilterPrefix(l.context.urns, MetricUrnPrefix), l.setupMode, l.context)
  }
}
