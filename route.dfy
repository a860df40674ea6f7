/** The imperative side of the route: `setupController`, which computes the context
    block by block in local variables and hands the result to the controller, proved
    equal to the resolution the overlays define. */
module RouteSetup {
  import opened JsText
  import opened TimeAlign
  import opened Granularity
  import opened Ranges
  import opened Resolver

  /** The nested `forEach` loops that push one filter per dimension value. */
  method CollectFilters(names: seq<string>, attrs: map<string, seq<string>>,
                        value2filter: (string, string) -> string) returns (filters: seq<string>)
    requires forall name :: name in names ==> name in attrs
    ensures filters == DimensionFilters(names, attrs, value2filter)
  {
    filters := [];
    var i := 0;
    while i < |names|
      invariant 0 <= i <= |names|
      invariant filters == DimensionFilters(names[..i], attrs, value2filter)
    {
      var name := names[i];
      var values := attrs[name];
      var j := 0;
      while j < |values|
        invariant 0 <= j <= |values|
        invariant filters == DimensionFilters(names[..i], attrs, value2filter)
                             + ValueFilters(name, values[..j], value2filter)
      {
        filters := filters + [value2filter(name, values[j])];
        j := j + 1;
      }
      assert values[..j] == values;
      assert names[..i + 1][..i] == names[..i];
      i := i + 1;
    }
    assert names[..i] == names;
  }

  /** The controller whose properties `setupController` sets. */
  class Controller {
    var routeErrors: set<string>
    var anomalyId: Option<string>
    var metricId: Option<string>
    var sessionId: Option<string>
    /** sessionName, sessionText, sessionOwner, sessionPermissions, sessionUpdatedBy,
        sessionUpdatedTime and sessionModified. */
    var session: SessionMeta
    var selectedUrns: set<string>
    var sizeMetricUrns: set<string>
    var setupMode: SetupMode
    var context: Context

    function Properties(): Resolution
      reads this
    {
      Resolution(routeErrors, anomalyId, metricId, sessionId, session,
                 selectedUrns, sizeMetricUrns, setupMode, context)
    }

    /** `controller.setProperties({...})`: every property at once. */
    method SetProperties(r: Resolution)
      modifies this
      ensures Properties() == r
    {
      routeErrors, anomalyId, metricId, sessionId := r.errors, r.anomalyId, r.metricId, r.sessionId;
      session := r.meta;
      selectedUrns, sizeMetricUrns, setupMode, context := r.selectedUrns, r.sizeMetricUrns, r.setupMode, r.context;
    }
  }

  /** The metric block of `setupController`: when the metric was found, the context,
      selection and setup mode it builds; otherwise nothing changes. */
  method MetricBlock(model: RouteModel, params: Params, env: Env, locals: Locals) returns (r: Locals)
    requires MetricRequested(model) && model.metricEntity.Some? ==> WellFormed(model.metricEntity.value.granularity)
    ensures r == MetricOverlay(model, params, env, locals)
  {
    r := locals;
    if Truthy(model.metricId) && Truthy(model.metricUrn) {
      if model.metricEntity.Some? {
        var h := env.helpers;
        var metricUrn := model.metricUrn.value;
        var entity := model.metricEntity.value;
        var context := MetricContext(metricUrn, entity, params.compareMode);
        r := r.(context := context,
                selectedUrns := {metricUrn, h.toCurrentUrn(metricUrn), h.toBaselineUrn(metricUrn)},
                setupMode := SetupSelected);
      }
    }
  }

  /** The anomaly block of `setupController`: when the anomaly was found, the context,
      selection, session name and text and setup mode it builds; when it was not, an
      error is recorded. */
  method AnomalyBlock(model: RouteModel, env: Env, locals: Locals) returns (r: Locals)
    requires AnomalyRequested(model) && model.anomalyEntity.Some? ==> AnomalyWellFormed(model.anomalyEntity.value)
    ensures r == AnomalyOverlay(model, env, locals)
  {
    r := locals;
    if Truthy(model.anomalyId) && Truthy(model.anomalyUrn) {
      if model.anomalyEntity.Some? {
        var context, selectedUrns, sessionName, sessionText :=
          AnomalyInitialized(model.anomalyId.value, model.anomalyUrn.value, model.anomalyEntity.value, env);
        r := r.(context := context, selectedUrns := selectedUrns,
                meta := r.meta.(name := sessionName, text := sessionText),
                setupMode := SetupSelected);
      } else {
        r := r.(errors := r.errors + {"Could not find anomalyId " + model.anomalyId.value});
      }
    }
  }

  /** What the anomaly block builds from a found anomaly. */
  method AnomalyInitialized(anomalyId: string, anomalyUrn: string, entity: AnomalyEntity, env: Env)
    returns (context: Context, selectedUrns: set<string>, sessionName: string, sessionText: Option<string>)
    requires AnomalyWellFormed(entity)
    ensures context == AnomalyContext(anomalyUrn, entity, env.helpers)
    ensures selectedUrns == {anomalyUrn, AnomalyMetricUrn(entity, env.helpers)}
    ensures sessionName == AnomalySessionName(anomalyId, env)
    ensures sessionText == AnomalyText(entity)
  {
    var h := env.helpers;
    var attributes := entity.attributes;
    var granularity := AdjustGranularity(attributes["metricGranularity"][0]);
    var metricGranularity := ToMetricGranularity(granularity);
    var anomalyRange := TimeRange(entity.start, entity.end);
    var analysisRange := AnalysisRange(anomalyRange.start, anomalyRange.end, metricGranularity.unit);

    var anomalyDimNames := DimensionNames(attributes);
    var anomalyFilters := CollectFilters(anomalyDimNames, attributes, h.value2filter);

    var anomalyMetricUrnRaw := MetricUrnPrefix + FirstValue(attributes, "metricId");
    var anomalyMetricUrn := h.appendFilters(anomalyMetricUrnRaw, anomalyFilters);

    var anomalyFunctionUrns: seq<string> := [];
    if HasFunctionId(attributes) {
      var anomalyFunctionUrnRaw := FunctionUrnPrefix + attributes["functionId"][0];
      anomalyFunctionUrns := anomalyFunctionUrns + [h.appendFilters(anomalyFunctionUrnRaw, anomalyFilters)];
    }

    assert anomalyFilters == AnomalyFilters(entity, h);
    assert anomalyMetricUrn == AnomalyMetricUrn(entity, h);
    assert anomalyFunctionUrns == if HasFunctionId(attributes) then [AnomalyFunctionUrn(entity, h)] else [];
    context := Context({anomalyMetricUrn}, anomalyRange, analysisRange, granularity, "WoW",
                       SetOf([anomalyUrn, anomalyMetricUrn] + anomalyFunctionUrns));
    selectedUrns := {anomalyUrn, anomalyMetricUrn};
    sessionName := "New Investigation of #" + anomalyId + " (" + h.formatTime(env.now) + ")";
    var comment := attributes["comment"];
    sessionText := if |comment| > 0 then Some(comment[0]) else None;
  }

  /** The session block of `setupController`: when the session was found, its saved
      context, selection and metadata replace everything; when it was not, an error
      is recorded. */
  method SessionBlock(model: RouteModel, locals: Locals) returns (r: Locals)
    ensures r == SessionOverlay(model, locals)
  {
    r := locals;
    if Truthy(model.sessionId) {
      if model.session.Some? {
        var saved := model.session.value;
        r := r.(context := SessionContext(saved), selectedUrns := SetOf(saved.selectedUrns),
                meta := SessionMetaOf(saved),
                setupMode := SetupNone);
      } else {
        r := r.(errors := r.errors + {SessionError(model.sessionId.value)});
      }
    }
  }

  /** `setupController(controller, model)`: the defaults, then the metric, anomaly and
      session blocks in that order, each replacing the whole context when its record
      was found; then the controller's properties are set. */
  method SetupController(controller: Controller, model: RouteModel, params: Params, env: Env)
    requires Resolvable(model)
    modifies controller
    ensures controller.Properties() == Resolve(model, params, env)
  {
    var locals := InitialLocals(params, env);
    locals := MetricBlock(model, params, env, locals);
    locals := AnomalyBlock(model, env, locals);
    locals := SessionBlock(model, locals);

    // update secondary metrics
    var sizeMetricUrns := FilterPrefix(locals.context.urns, MetricUrnPrefix);

    controller.SetProperties(Resolution(
      locals.errors, model.anomalyId, model.metricId, model.sessionId,
      locals.meta, locals.selectedUrns, sizeMetricUrns, locals.setupMode, locals.context));
  }
}
