/** What the route promises about the context it resolves: the order of precedence of
    the three overlays, the errors it records, the filters it builds, session recovery,
    and worked examples for a sub-minute metric, a daily metric and a filtered anomaly. */
module ResolverProperties {
  import opened JsText
  import opened TimeAlign
  import opened Granularity
  import opened Ranges
  import opened Resolver

  // ------------------------------------------------------------ session recovery

  /** The latest session is the only one with the greatest `updated` that no later
      session ties. */
  lemma MostRecentIndexUnique(sessions: seq<SessionRecord>, k: nat)
    requires k < |sessions|
    requires forall j :: 0 <= j < |sessions| ==> sessions[j].updated <= sessions[k].updated
    requires forall j :: k < j < |sessions| ==> sessions[j].updated < sessions[k].updated
    ensures MostRecentIndex(sessions) == k
  {
  }

  function SessionAt(id: string, updated: int): SessionRecord
  {
    SessionRecord(id, "", None, "", "", "", updated, [], [], 0, 0, 0, 0, "", "", [])
  }

  /** Of sessions updated at 100, 300 and 200, the one updated at 300 is adopted. */
  lemma LatestOfThree()
    ensures var sessions := [SessionAt("a", 100), SessionAt("b", 300), SessionAt("c", 200)];
      sessions[MostRecentIndex(sessions)].id == "b"
  {
    var sessions := [SessionAt("a", 100), SessionAt("b", 300), SessionAt("c", 200)];
    MostRecentIndexUnique(sessions, 1);
  }

  /** Of two sessions updated at the same time, the later one in the list is adopted. */
  lemma LatestOfTie()
    ensures var sessions := [SessionAt("a", 300), SessionAt("b", 300)];
      sessions[MostRecentIndex(sessions)].id == "b"
  {
    var sessions := [SessionAt("a", 300), SessionAt("b", 300)];
    MostRecentIndexUnique(sessions, 1);
  }

  /** After recovery the anomaly overlay cannot fire, and the adopted session decides
      the whole context, with no error recorded. */
  lemma RecoveryReplacesAnomaly(m: RouteModel, now: int, env: Env)
    requires Resolvable(m) && m.anomalySessions != []
    ensures var rec := AfterModel(m, now);
      var latest := m.anomalySessions[MostRecentIndex(m.anomalySessions)];
      && Resolvable(rec.model)
      && !AnomalyRequested(rec.model)
      && rec.redirect == Some(Redirect(latest.id, None))
      && (latest.id != "" ==>
            var r := Resolve(rec.model, rec.params, env);
            && r.context == SessionContext(latest)
            && r.selectedUrns == SetOf(latest.selectedUrns)
            && r.meta == SessionMetaOf(latest)
            && r.setupMode == SetupNone
            && r.errors == {}
            && r.anomalyId.None?)
  {
  }

  /** Following the redirect loads a model without anomaly sessions, so the recovery
      happens once. */
  lemma RecoveryRedirectsOnce(q: QueryParams, lookups: Lookups, next: Lookups, now: int)
    requires ModelOf(q, lookups).anomalySessions != []
    ensures var rec := AfterModel(ModelOf(q, lookups), now);
      && rec.redirect.Some?
      && var q' := QueryParams(q.metricId, Some(rec.redirect.value.sessionId), rec.redirect.value.anomalyId);
         AfterModel(ModelOf(q', next), now).redirect.None?
  {
  }

  // ------------------------------------------------------------------ precedence

  /** A found session overrides whatever the metric and anomaly overlays built. */
  lemma SessionWins(m: RouteModel, p: Params, env: Env)
    requires Resolvable(m) && SessionRequested(m) && m.session.Some?
    ensures var r := Resolve(m, p, env); var s := m.session.value;
      && r.context == SessionContext(s)
      && r.selectedUrns == SetOf(s.selectedUrns)
      && r.meta == SessionMetaOf(s)
      && r.setupMode == SetupNone
  {
  }

  /** Without a session, a found anomaly overrides the metric's context: its own window,
      its filtered metric, week-over-week comparison and a session named after it. */
  lemma AnomalyOverridesMetric(m: RouteModel, p: Params, env: Env)
    requires Resolvable(m) && AnomalyRequested(m) && m.anomalyEntity.Some? && !SessionRequested(m)
    ensures var r := Resolve(m, p, env); var e := m.anomalyEntity.value;
      && r.context == AnomalyContext(m.anomalyUrn.value, e, env.helpers)
      && r.context.anomalyRange == TimeRange(e.start, e.end)
      && r.context.compareMode == "WoW"
      && r.selectedUrns == {m.anomalyUrn.value, AnomalyMetricUrn(e, env.helpers)}
      && r.meta == DefaultMeta(env).(name := AnomalySessionName(m.anomalyId.value, env),
                                     text := AnomalyText(e))
      && r.setupMode == SetupSelected
      && r.errors == {}
  {
  }

  /** A metric alone yields its context and its current and baseline URNs selected. */
  lemma MetricOnly(m: RouteModel, p: Params, env: Env)
    requires Resolvable(m) && MetricRequested(m) && m.metricEntity.Some?
    requires !AnomalyRequested(m) && !SessionRequested(m)
    ensures var r := Resolve(m, p, env);
      && r.context == MetricContext(m.metricUrn.value, m.metricEntity.value, p.compareMode)
      && r.selectedUrns == MetricSelection(m.metricUrn.value, env.helpers)
      && r.meta == DefaultMeta(env)
      && r.setupMode == SetupSelected
      && r.errors == {}
  {
  }

  /** When no record was found the defaults stand and the user is asked to set up the
      context. */
  lemma DefaultsWhenNothingFound(m: RouteModel, p: Params, env: Env)
    requires Resolvable(m)
    requires !(MetricRequested(m) && m.metricEntity.Some?)
    requires !(AnomalyRequested(m) && m.anomalyEntity.Some?)
    requires !(SessionRequested(m) && m.session.Some?)
    ensures var r := Resolve(m, p, env);
      && r.context == DefaultContext(p)
      && r.selectedUrns == {}
      && r.sizeMetricUrns == {}
      && r.meta == DefaultMeta(env)
      && r.setupMode == SetupContext
  {
    var r := Resolve(m, p, env);
    assert r.context.urns == {};
  }

  // ----------------------------------------------------------------------- errors

  /** Exactly one error per requested anomaly or session that was not found; a missing
      metric records none. */
  lemma ResolutionErrors(m: RouteModel, p: Params, env: Env)
    requires Resolvable(m)
    ensures Resolve(m, p, env).errors ==
      (if AnomalyRequested(m) && m.anomalyEntity.None? then {AnomalyError(m.anomalyId.value)} else {}) +
      (if SessionRequested(m) && m.session.None? then {SessionError(m.sessionId.value)} else {})
  {
  }

  /** A requested anomaly that was not found adds its error and leaves the context,
      selection, session metadata and setup mode as the metric overlay left them. */
  lemma MissingAnomalyKeepsLocals(m: RouteModel, env: Env, l: Locals)
    requires AnomalyRequested(m) && m.anomalyEntity.None?
    ensures AnomalyOverlay(m, env, l) == l.(errors := l.errors + {AnomalyError(m.anomalyId.value)})
  {
  }

  /** A requested session that was not found adds its error and leaves everything else
      as it was. */
  lemma MissingSessionKeepsLocals(m: RouteModel, l: Locals)
    requires SessionRequested(m) && m.session.None?
    ensures SessionOverlay(m, l) == l.(errors := l.errors + {SessionError(m.sessionId.value)})
  {
  }

  /** An overlay whose id is absent changes nothing, and neither does a metric overlay
      whose record was not found. */
  lemma IdleOverlays(m: RouteModel, p: Params, env: Env, l: Locals)
    ensures !(MetricRequested(m) && m.metricEntity.Some?) ==> MetricOverlay(m, p, env, l) == l
    ensures !AnomalyRequested(m) ==> AnomalyOverlay(m, env, l) == l
    ensures !SessionRequested(m) ==> SessionOverlay(m, l) == l
  {
  }

  /** Each overlay reads only its own part of the model. */
  lemma OverlayFrames(m: RouteModel, m': RouteModel, p: Params, env: Env, l: Locals)
    requires Resolvable(m)
    ensures m'.metricId == m.metricId && m'.metricUrn == m.metricUrn && m'.metricEntity == m.metricEntity ==>
      MetricOverlay(m', p, env, l) == MetricOverlay(m, p, env, l)
    ensures m'.anomalyId == m.anomalyId && m'.anomalyUrn == m.anomalyUrn && m'.anomalyEntity == m.anomalyEntity ==>
      AnomalyOverlay(m', env, l) == AnomalyOverlay(m, env, l)
    ensures m'.sessionId == m.sessionId && m'.session == m.session ==>
      SessionOverlay(m', l) == SessionOverlay(m, l)
  {
  }

  /** Adding an error before the session overlay adds it to the overlay's result. */
  lemma SessionOverlayKeepsError(m: RouteModel, l: Locals, x: string)
    ensures var r := SessionOverlay(m, l);
      SessionOverlay(m, l.(errors := l.errors + {x})) == r.(errors := r.errors + {x})
  {
    if SessionRequested(m) && m.session.None? {
      var s := SessionError(m.sessionId.value);
      assert (l.errors + {x}) + {s} == (l.errors + {s}) + {x};
    }
  }

  /** A missing anomaly changes nothing but the errors: the outcome is that of the same
      route without an anomaly id, plus one error. */
  lemma MissingAnomalyOnlyAddsError(m: RouteModel, p: Params, env: Env)
    requires Resolvable(m) && AnomalyRequested(m) && m.anomalyEntity.None?
    ensures var r' := Resolve(m.(anomalyId := None), p, env);
      Resolve(m, p, env) == r'.(anomalyId := m.anomalyId, errors := r'.errors + {AnomalyError(m.anomalyId.value)})
  {
    var m' := m.(anomalyId := None);
    var l0 := InitialLocals(p, env);
    OverlayFrames(m, m', p, env, l0);
    var l1 := MetricOverlay(m, p, env, l0);
    MissingAnomalyKeepsLocals(m, env, l1);
    IdleOverlays(m', p, env, l1);
    OverlayFrames(m, m', p, env, l1);
    SessionOverlayKeepsError(m, l1, AnomalyError(m.anomalyId.value));
  }

  /** A missing session changes nothing but the errors. */
  lemma MissingSessionOnlyAddsError(m: RouteModel, p: Params, env: Env)
    requires Resolvable(m) && SessionRequested(m) && m.session.None?
    ensures var r' := Resolve(m.(sessionId := None), p, env);
      Resolve(m, p, env) == r'.(sessionId := m.sessionId, errors := r'.errors + {SessionError(m.sessionId.value)})
  {
    var m' := m.(sessionId := None);
    var l0 := InitialLocals(p, env);
    OverlayFrames(m, m', p, env, l0);
    var l1 := MetricOverlay(m, p, env, l0);
    OverlayFrames(m, m', p, env, l1);
    var l2 := AnomalyOverlay(m, env, l1);
    MissingSessionKeepsLocals(m, l2);
    IdleOverlays(m', p, env, l2);
  }

  // --------------------------------------------------------------- metric URNs

  /** The size metrics are exactly the metric URNs of the final context. */
  lemma SizeMetricUrnsAreContextMetrics(m: RouteModel, p: Params, env: Env, u: string)
    requires Resolvable(m)
    ensures var r := Resolve(m, p, env);
      u in r.sizeMetricUrns <==> u in r.context.urns && StartsWith(u, MetricUrnPrefix)
  {
  }

  lemma PrefixStartsWith(prefix: string, rest: string)
    ensures StartsWith(prefix + rest, prefix)
  {
    assert (prefix + rest)[..|prefix|] == prefix;
  }

  /** A metric opened alone, whose URN carries the metric prefix, is the one size
      metric. */
  lemma MetricOnlySizeMetric(m: RouteModel, p: Params, env: Env)
    requires Resolvable(m) && MetricRequested(m) && m.metricEntity.Some?
    requires !AnomalyRequested(m) && !SessionRequested(m)
    requires StartsWith(m.metricUrn.value, MetricUrnPrefix)
    ensures Resolve(m, p, env).sizeMetricUrns == {m.metricUrn.value}
  {
    MetricOnly(m, p, env);
    MetricContextWindow(m.metricUrn.value, m.metricEntity.value, p.compareMode);
  }

  /** Opening the route with only a metric id keeps the model as `model()` built it,
      with the metric overlay alone requested. */
  lemma MetricRouteModel(q: QueryParams, lookups: Lookups, now: int)
    requires Truthy(q.metricId) && !Truthy(q.anomalyId) && !Truthy(q.sessionId)
    requires lookups.metric.Some? && WellFormed(lookups.metric.value.granularity)
    ensures var m := AfterModel(ModelOf(q, lookups), now).model;
      && m == ModelOf(q, lookups) && Resolvable(m)
      && MetricRequested(m) && m.metricEntity.Some? && !AnomalyRequested(m) && !SessionRequested(m)
      && m.metricUrn == Some(MetricUrnPrefix + q.metricId.value)
  {
    PrefixStartsWith(MetricUrnPrefix, q.metricId.value);
  }

  /** Opening a metric by id alone makes that metric the one size metric. */
  lemma MetricRouteSizeMetric(q: QueryParams, lookups: Lookups, now: int, env: Env)
    requires Truthy(q.metricId) && !Truthy(q.anomalyId) && !Truthy(q.sessionId)
    requires lookups.metric.Some? && WellFormed(lookups.metric.value.granularity)
    ensures var rec := AfterModel(ModelOf(q, lookups), now);
      Resolvable(rec.model) &&
      Resolve(rec.model, rec.params, env).sizeMetricUrns == {MetricUrnPrefix + q.metricId.value}
  {
    MetricRouteModel(q, lookups, now);
    PrefixStartsWith(MetricUrnPrefix, q.metricId.value);
    var rec := AfterModel(ModelOf(q, lookups), now);
    MetricOnlySizeMetric(rec.model, rec.params, env);
  }

  // ---------------------------------------------------------------------- filters

  /** How many filters the names' values give. */
  function ValueCount(names: seq<string>, attrs: map<string, seq<string>>): nat
    requires forall name :: name in names ==> name in attrs
  {
    if names == [] then 0 else ValueCount(names[..|names| - 1], attrs) + |attrs[names[|names| - 1]]|
  }

  lemma {:induction false} DimensionFiltersLength(names: seq<string>, attrs: map<string, seq<string>>,
                                                 v2f: (string, string) -> string)
    requires forall name :: name in names ==> name in attrs
    ensures |DimensionFilters(names, attrs, v2f)| == ValueCount(names, attrs)
  {
    if names != [] {
      DimensionFiltersLength(names[..|names| - 1], attrs, v2f);
    }
  }

  /** The filters of a concatenation of names are the concatenated filters. */
  lemma {:induction false} DimensionFiltersAppend(a: seq<string>, b: seq<string>, attrs: map<string, seq<string>>,
                                                 v2f: (string, string) -> string)
    requires forall name :: name in a + b ==> name in attrs
    ensures DimensionFilters(a + b, attrs, v2f) == DimensionFilters(a, attrs, v2f) + DimensionFilters(b, attrs, v2f)
    decreases |b|
  {
    if b == [] {
      assert a + b == a;
    } else {
      var b' := b[..|b| - 1];
      assert (a + b)[..|a + b| - 1] == a + b';
      DimensionFiltersAppend(a, b', attrs, v2f);
    }
  }

  /** The filter of the `j`-th value of the `i`-th dimension sits after the filters of
      all earlier dimensions and the `j` earlier values of its own. */
  lemma DimensionFiltersAt(names: seq<string>, attrs: map<string, seq<string>>,
                           v2f: (string, string) -> string, i: nat, j: nat)
    requires forall name :: name in names ==> name in attrs
    requires i < |names| && j < |attrs[names[i]]|
    ensures ValueCount(names[..i], attrs) + j < |DimensionFilters(names, attrs, v2f)|
    ensures DimensionFilters(names, attrs, v2f)[ValueCount(names[..i], attrs) + j] == v2f(names[i], attrs[names[i]][j])
  {
    var before, rest := names[..i + 1], names[i + 1..];
    assert names == before + rest;
    DimensionFiltersAppend(before, rest, attrs, v2f);
    assert before[..i] == names[..i];
    DimensionFiltersLength(names[..i], attrs, v2f);
  }

  /** Every filter comes from some value of some dimension. */
  lemma {:induction false} DimensionFiltersFrom(names: seq<string>, attrs: map<string, seq<string>>,
                                               v2f: (string, string) -> string, k: nat)
    requires forall name :: name in names ==> name in attrs
    requires k < |DimensionFilters(names, attrs, v2f)|
    ensures exists i, j ::
      && 0 <= i < |names| && 0 <= j < |attrs[names[i]]|
      && DimensionFilters(names, attrs, v2f)[k] == v2f(names[i], attrs[names[i]][j])
  {
    var front := names[..|names| - 1];
    var last := names[|names| - 1];
    var head := DimensionFilters(front, attrs, v2f);
    if k < |head| {
      DimensionFiltersFrom(front, attrs, v2f, k);
      var i, j :| 0 <= i < |front| && 0 <= j < |attrs[front[i]]| && head[k] == v2f(front[i], attrs[front[i]][j]);
      assert front[i] == names[i];
    } else {
      var j := k - |head|;
      assert DimensionFilters(names, attrs, v2f)[k] == v2f(names[|names| - 1], attrs[last][j]);
    }
  }

  lemma CountryAttributes(attrs: map<string, seq<string>>, v2f: (string, string) -> string)
    requires "dimensions" in attrs && attrs["dimensions"] == ["country"]
    requires "country" in attrs && attrs["country"] == ["us", "ca"]
    ensures DimensionFilters(DimensionNames(attrs), attrs, v2f) == [v2f("country", "us"), v2f("country", "ca")]
  {
    var names := DimensionNames(attrs);
    assert names[..0] == [];
    assert DimensionFilters(names, attrs, v2f) == ValueFilters("country", ["us", "ca"], v2f);
  }

  /** An anomaly on the "country" dimension with values "us" and "ca": both filters
      are appended, in order, to the metric URN and to the detection function's URN,
      and those URNs are what the context shows. */
  lemma CountryAnomaly(anomalyUrn: string, e: AnomalyEntity, h: Helpers, metricId: string, functionId: string)
    requires AnomalyWellFormed(e)
    requires "dimensions" in e.attributes && e.attributes["dimensions"] == ["country"]
    requires "country" in e.attributes && e.attributes["country"] == ["us", "ca"]
    requires e.attributes["metricId"] == [metricId]
    requires "functionId" in e.attributes && e.attributes["functionId"] == [functionId]
    ensures var filters := [h.value2filter("country", "us"), h.value2filter("country", "ca")];
      var metricUrn := h.appendFilters(MetricUrnPrefix + metricId, filters);
      var functionUrn := h.appendFilters(FunctionUrnPrefix + functionId, filters);
      var c := AnomalyContext(anomalyUrn, e, h);
      && c.urns == {metricUrn}
      && c.anomalyUrns == {anomalyUrn, metricUrn, functionUrn}
  {
    CountryAttributes(e.attributes, h.value2filter);
    assert FirstValue(e.attributes, "metricId") == metricId;
    AnomalyContextFacts(anomalyUrn, e, h);
  }

  // --------------------------------------------------------------- worked windows

  /** A sub-minute metric is shown at five minutes, over the two hours ending at the
      last five-minute boundary at or before its maximum time, and analysed around
      that boundary. */
  lemma SubMinuteMetric(metricUrn: string, e: MetricEntity, compareMode: string)
    requires WellFormed(e.granularity) && IsSubMinute(Parse(e.granularity).unit)
    ensures MetricContext(metricUrn, e, compareMode) ==
      Context({metricUrn}, TimeRange(FiveMinuteFloor(e.maxTime) - 120 * MinuteMs, FiveMinuteFloor(e.maxTime)),
              AnalysisRange(FiveMinuteFloor(e.maxTime), FiveMinuteFloor(e.maxTime), Some(Minute)),
              "5_MINUTES", compareMode, {})
  {
    var g := AdjustGranularity(e.granularity);
    SubMinuteAdjusted(e.granularity);
    MinutesGranularity(g, Num(5));
    MinutesIsNotOneDay(g);
    MetricContextOf(metricUrn, e, compareMode, 5, Minute);
    FiveMinuteAnomalyRange(e.maxTime);
  }

  /** "30_SECONDS" is such a sub-minute granularity. */
  lemma ThirtySecondMetric(metricUrn: string, e: MetricEntity, compareMode: string)
    requires e.granularity == "30_SECONDS"
    ensures WellFormed(e.granularity)
    ensures MetricContext(metricUrn, e, compareMode) ==
      Context({metricUrn}, TimeRange(FiveMinuteFloor(e.maxTime) - 120 * MinuteMs, FiveMinuteFloor(e.maxTime)),
              AnalysisRange(FiveMinuteFloor(e.maxTime), FiveMinuteFloor(e.maxTime), Some(Minute)),
              "5_MINUTES", compareMode, {})
  {
    ThirtySecondsToken(e.granularity);
    SecondsToken(e.granularity);
    SubMinuteMetric(metricUrn, e, compareMode);
  }

  /** A daily metric is shown hourly, over the whole day before the day that holds its
      maximum time, and analysed over the seven days before that day and the day
      itself. */
  lemma DailyMetric(metricUrn: string, e: MetricEntity, compareMode: string)
    requires Parse(e.granularity) == Token(Num(1), Some("DAYS"))
    ensures WellFormed(e.granularity)
    ensures var day := StartOf(e.maxTime, Day);
      MetricContext(metricUrn, e, compareMode) ==
        Context({metricUrn}, TimeRange(day - DayMs, day), TimeRange(day - 7 * DayMs, day + DayMs),
                "1_HOURS", compareMode, {})
  {
    OneDayAdjusted(e.granularity);
    DaysGranularity(AdjustGranularity(e.granularity), Num(1));
    DailyAnomalyRange(e.maxTime);
    DailyAnalysisRange(e.maxTime);
  }

  /** A negative hour count, such as "-2_HOURS", is kept by normalisation and snaps as
      its absolute value does. */
  lemma NegativeHourlyMetric(metricUrn: string, e: MetricEntity, compareMode: string, n: int)
    requires Parse(e.granularity) == Token(Num(n), Some("HOURS")) && n < 0
    ensures WellFormed(e.granularity)
    ensures MetricContext(metricUrn, e, compareMode).anomalyRange == MetricAnomalyRange(e.maxTime, -n, Hour)
  {
    CoarseTokenKept(e.granularity);
    HoursGranularity(AdjustGranularity(e.granularity), Num(n));
    MetricContextWindow(metricUrn, e, compareMode);
    MetricAnomalyRangeNegated(e.maxTime, n, Hour);
  }

  /** "1_DAYS" is such a daily granularity. */
  lemma OneDayMetric(metricUrn: string, e: MetricEntity, compareMode: string)
    requires e.granularity == "1_DAYS"
    ensures WellFormed(e.granularity)
    ensures MetricContext(metricUrn, e, compareMode).granularity == "1_HOURS"
  {
    OneDayToken(e.granularity);
    DailyMetric(metricUrn, e, compareMode);
  }
}
