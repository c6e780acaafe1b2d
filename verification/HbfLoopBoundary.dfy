/** Over every run of the HBF event loop the source is frozen exactly when the measured cohort is complete.

  This relies on what the router keeps between commits: it numbers the calls of its sessions in separate blocks,
  its passes complete no session, and the requests that complete are live.
 */
module HbfLoopBoundary {
  import opened Wrappers
  import opened Controls
  import opened TieCommit
  import opened TieBoundary
  import opened HbfLoop
  import opened HbfLoopOutcomes

  /** A routing pass from router `r`. */
  ghost predicate RoutesOn(r: Router, env: Env) {
    && WellNumbered(env.routed) && !env.routed.frozen
    && (env.routed.completedIds, env.routed.completedCount) == (r.completedIds, r.completedCount)
  }

  /** What is relied on during one callback. */
  ghost predicate Contract(config: Config, s: State, event: Event, env: Env) {
    match event
    case ControlEvent(eventId, _) =>
      s.barrier.Owns(eventId) ==>
        && (forall item :: item in s.Waiting() ==> Tied(s.tie.router, item.request.id))
        && var c := Commit(s.tie, config.policy, s.gpu, s.proxies, s.prefill);
           c.Ok? && !c.value.stopRequested ==> RoutesOn(c.value.router, env)
    case _ => RoutesOn(s.tie.router, env)
  }

  ghost predicate Obeys(config: Config, router: Router, events: seq<(Event, Env)>) {
    if events == [] then WellNumbered(router) && !router.frozen
    else
      var n := |events| - 1;
      Obeys(config, router, events[..n]) && Contract(config, Run(config, Init(config, router), events[..n]), events[n].0, events[n].1)
  }

  /** The source is frozen exactly when the cohort is complete. */
  ghost predicate Exact(config: Config, t: Tie) {
    && (t.stopRequested <==> BoundaryMet(t.router, config.policy.cohort))
    && (if t.stopRequested then t.router.Valid() && t.router.frozen else WellNumbered(t.router) && !t.router.frozen)
  }

  // ---------------------------------------------------------------- what a callback does to the router

  predicate SameSource(s: State, t: State) { (t.tie.router, t.tie.stopRequested) == (s.tie.router, s.tie.stopRequested) }

  /** The router is untouched, or it is the one after a routing pass. */
  predicate MayRoute(s: State, t: State, env: Env) {
    SameSource(s, t) || (!s.tie.stopRequested && !t.tie.stopRequested && t.tie.router == env.routed)
  }

  lemma ExitSame(s: State, env: Env)
    ensures SameSource(s, ExitIfDrained(s, env)) && SameSource(s, Flush(s, env))
  {
    hide Armed, RequestLog;
  }

  lemma ArmSame(s: State)
    ensures SameSource(s, ArmTie(s))
  {
    hide BarrierArmed;
  }

  lemma SameThrough(s: State, t: State, u: State, env: Env)
    requires SameSource(t, u)
    ensures SameSource(s, t) ==> SameSource(s, u)
    ensures MayRoute(s, t, env) ==> MayRoute(s, u, env)
    ensures SameSource(s, t) && MayRoute(t, u, env) ==> MayRoute(s, u, env)
  {}

  lemma FormSame(config: Config, s: State, env: Env, inst: nat, sys: int, id: int)
    requires inst < |config.instances|
    ensures var formed := FormBatch(config, s, env, inst, sys, id); formed.Some? ==> SameSource(s, Note(formed.value, Dispatched))
  {}

  lemma MarkDoneSame(config: Config, s: State, env: Env, inst: nat, sys: int)
    requires inst < |config.instances|
    ensures SameSource(s, MarkDone(config, s, env, inst, sys))
  {
    hide Flush, Prefills;
    ExitSame(Asleep(config, s, inst, sys), env);
  }

  lemma IdleSame(s: State, env: Env)
    ensures SameSource(s, Idle(s, env))
  {
    hide Flush;
    ExitSame(s, env);
  }

  lemma RespondSame(config: Config, s: State, env: Env, inst: nat, sys: int, id: int)
    requires inst < |config.instances|
    ensures SameSource(s, Respond(config, s, env, inst, sys, id))
  {
    hide Flush, MarkDone, Idle, MayBeDone, FormBatch, SameSource, ExitIfDrained, Note, MayRoute;
    var formed := FormBatch(config, s, env, inst, sys, id);
    FormSame(config, s, env, inst, sys, id);
    if formed.Some? {
      ExitSame(Note(formed.value, Dispatched), env);
      SameThrough(s, Note(formed.value, Dispatched), Flush(Note(formed.value, Dispatched), env), env);
    }
    MarkDoneSame(config, s, env, inst, sys);
    IdleSame(s, env);
  }

  lemma RouteOlderRoutes(s: State, env: Env)
    ensures MayRoute(s, RouteOlder(s, env), env)
  {}

  lemma AddDoneSame(config: Config, s: State, env: Env, inst: nat, sys: int, id: int)
    ensures SameSource(s, AddDone(config, s, env, inst, sys, id)) && SameSource(s, Fenced(s, inst, sys, id)) && SameSource(s, Fail(s))
  {
    ArmSame(s);
    hide ArmTie, Tagged, DeferLog;
  }

  lemma TakeReportRoutes(config: Config, s: State, env: Env, inst: nat, sys: int, id: int)
    ensures MayRoute(s, TakeReport(config, s, env, inst, sys, id), env)
  {
    hide RouteOlder, Fenced, AddDone, ExitIfDrained, SameSource, MayRoute, Flush;
    var b := RouteOlder(s, env);
    var c := Fenced(b, inst, sys, id);
    var d := AddDone(config, c, env, inst, sys, id);
    RouteOlderRoutes(s, env);
    AddDoneSame(config, b, env, inst, sys, id);
    SameThrough(s, b, c, env);
    AddDoneSame(config, c, env, inst, sys, id);
    SameThrough(s, c, d, env);
    ExitSame(d, env);
    SameThrough(s, d, ExitIfDrained(d, env), env);
  }

  lemma ReportedSame(s: State, time: int)
    ensures SameSource(s, Reported(s, time)) && SameSource(s, Fail(Reported(s, time)))
    ensures forall env :: MayRoute(s, Reported(s, time), env) && MayRoute(s, Fail(Reported(s, time)), env)
    ensures forall t, env :: MayRoute(Reported(s, time), t, env) ==> MayRoute(s, t, env)
  {}

  lemma ModelCompleteRoutes(config: Config, s: State, env: Env, sys: int, id: int, cycle: int)
    ensures MayRoute(s, OnModelComplete(config, s, env, sys, id, cycle), env)
  {
    hide Reported, TakeReport, Respond, SameSource, MayRoute, Fail;
    var a := Reported(s, cycle);
    ReportedSame(s, cycle);
    if sys in config.owner && config.owner[sys] < |config.instances| {
      var inst := config.owner[sys];
      var d := TakeReport(config, a, env, inst, sys, id);
      TakeReportRoutes(config, a, env, inst, sys, id);
      RespondSame(config, d, env, inst, sys, id);
      SameThrough(s, d, Respond(config, d, env, inst, sys, id), env);
    }
  }

  lemma DeferSame(s: State, completions: seq<Request>)
    ensures SameSource(s, s.(proxies := s.proxies + completions, log := s.log + DeferLog(Tagged(completions, Hbf), s.current)))
  {}

  lemma HbfCompleteRoutes(s: State, env: Env, completion: int, completions: seq<Request>)
    ensures MayRoute(s, OnHbfComplete(s, env, completion, completions), env)
  {
    hide Reported, RouteOlder, ArmTie, Continue, SameSource, MayRoute, Tagged, DeferLog, Fail;
    var a := Reported(s, completion);
    ReportedSame(s, completion);
    var b := RouteOlder(a, env);
    RouteOlderRoutes(a, env);
    var c := b.(proxies := b.proxies + completions, log := b.log + DeferLog(Tagged(completions, Hbf), b.current));
    DeferSame(b, completions);
    ArmSame(c);
    ContinueSame(ArmTie(c), env);
    SameThrough(s, b, c, env);
    SameThrough(s, c, ArmTie(c), env);
    SameThrough(s, ArmTie(c), Continue(ArmTie(c), env), env);
  }

  lemma ContinueSame(s: State, env: Env)
    ensures SameSource(s, Continue(s, env))
  {
    hide ExitIfDrained, Flush, SameSource, MayRoute;
    var t := ExitIfDrained(s, env);
    ExitSame(s, env);
    ExitSame(t, env);
    SameThrough(s, t, Flush(t, env), env);
  }

  // ---------------------------------------------------------------- every run

  lemma RoutingKeepsExact(config: Config, s: State, t: State, env: Env)
    requires Exact(config, s.tie) && RoutesOn(s.tie.router, env) && MayRoute(s, t, env)
    ensures Exact(config, t.tie)
  {}

  /** A commit, and the routing pass after it. */
  lemma CommitIsExact(config: Config, s: State, event: EventId, time: int, env: Env)
    requires config.policy.stopAfterMeasurement && Exact(config, s.tie) && s.barrier.Owns(event)
    requires Contract(config, s, ControlEvent(event, time), env)
    ensures var c := Commit(s.tie, config.policy, s.gpu, s.proxies, s.prefill); c.Ok? ==> Exact(config, c.value)
  {
    hide Commit, BoundaryMet, WellNumbered, Tied, Router.Valid, Items, RoutesOn;
    if Commit(s.tie, config.policy, s.gpu, s.proxies, s.prefill).Ok? {
      if !s.tie.stopRequested {
        NumberedIsValid(s.tie.router);
        CommitStopsExactly(s.tie, config.policy, s.gpu, s.proxies, s.prefill);
      }
      CommitKeepsRouter(s.tie, config.policy, s.gpu, s.proxies, s.prefill);
    }
  }

  lemma CommitKeepsExact(config: Config, s: State, event: EventId, time: int, env: Env)
    requires config.policy.stopAfterMeasurement && Exact(config, s.tie) && s.barrier.Owns(event)
    requires Contract(config, s, ControlEvent(event, time), env)
    ensures Exact(config, CommitTie(config, s, env).tie)
  {
    var c := Commit(s.tie, config.policy, s.gpu, s.proxies, s.prefill);
    CommitIsExact(config, s, event, time, env);
    hide Commit, InIdOrder, CommitLog, FreezeLog, Exact, RoutesOn, Tied, Items;
    if c.Ok? && !c.value.stopRequested {
      RoutingKeepsExact(config, s.(tie := c.value), s.(tie := c.value.(router := env.routed)), env);
      ExactReads(config, c.value.(router := env.routed), CommitTie(config, s, env).tie);
    }
  }

  lemma NumberedIsValid(r: Router)
    requires WellNumbered(r)
    ensures r.Valid()
  {}

  lemma ControlKeepsExact(config: Config, s: State, env: Env, eventId: EventId, time: int)
    requires config.policy.stopAfterMeasurement && Exact(config, s.tie) && Contract(config, s, ControlEvent(eventId, time), env)
    ensures Exact(config, OnControl(config, s, env, eventId, time).tie)
  {
    hide Exact, Contract, CommitTie, ArmTie, Continue, Reported, SameSource, BarrierCompleted, Completed, MayRoute;
    var a := Reported(s, time);
    ReportedReads(s, time);
    var b := AnswerControl(config, a, env, eventId);
    AnswerKeepsExact(config, a, env, eventId, time);
    ContinueSame(b, env);
    SourceExact(config, b, Continue(b, env));
  }

  lemma ReportedReads(s: State, time: int)
    ensures var a := Reported(s, time); (a.tie, a.barrier, a.gpu, a.proxies, a.prefill) == (s.tie, s.barrier, s.gpu, s.proxies, s.prefill)
    ensures forall config: HbfLoop.Config, eventId, env {:trigger Contract(config, Reported(s, time), ControlEvent(eventId, time), env)} ::
      Contract(config, s, ControlEvent(eventId, time), env) ==> Contract(config, Reported(s, time), ControlEvent(eventId, time), env)
  {
    var a := Reported(s, time);
    forall config: HbfLoop.Config, eventId, env | Contract(config, s, ControlEvent(eventId, time), env)
      ensures Contract(config, a, ControlEvent(eventId, time), env) {
      SameContract(config, s, a, eventId, time, env);
    }
  }

  lemma SourceExact(config: Config, s: State, t: State)
    requires SameSource(s, t)
    ensures Exact(config, s.tie) <==> Exact(config, t.tie)
  {}

  lemma AnswerKeepsExact(config: Config, s: State, env: Env, eventId: EventId, time: int)
    requires config.policy.stopAfterMeasurement && Exact(config, s.tie) && Contract(config, s, ControlEvent(eventId, time), env)
    ensures Exact(config, AnswerControl(config, s, env, eventId).tie)
  {
    hide Exact, Contract, CommitTie, ArmTie, SameSource, BarrierCompleted, Completed;
    if s.barrier.Owns(eventId) {
      if BarrierCompleted(s.barrier, eventId, s.current).Ok? {
        var open := s.(barrier := BarrierCompleted(s.barrier, eventId, s.current).value.0);
        StillOwns(s.barrier, eventId, s.current);
        SameContract(config, s, open, eventId, time, env);
        CommitKeepsExact(config, open, eventId, time, env);
      }
    } else if Completed(s.exact, eventId, s.current).Ok? {
      var t := s.(exact := Completed(s.exact, eventId, s.current).value.0);
      ArmSame(t);
      SourceExact(config, t, ArmTie(t));
    }
  }

  lemma ExactReads(config: Config, t: Tie, u: Tie)
    requires (t.router, t.stopRequested) == (u.router, u.stopRequested)
    ensures Exact(config, t) <==> Exact(config, u)
  {}

  lemma StillOwns(b: Barrier, id: EventId, now: int)
    requires b.Owns(id) && BarrierCompleted(b, id, now).Ok?
    ensures BarrierCompleted(b, id, now).value.0.Owns(id)
  {}

  lemma SameContract(config: Config, s: State, t: State, eventId: EventId, time: int, env: Env)
    requires (t.tie, t.gpu, t.proxies, t.prefill) == (s.tie, s.gpu, s.proxies, s.prefill)
    requires t.barrier.Owns(eventId) ==> s.barrier.Owns(eventId)
    ensures Contract(config, s, ControlEvent(eventId, time), env) ==> Contract(config, t, ControlEvent(eventId, time), env)
  {}

  lemma StepKeepsExact(config: Config, s: State, event: Event, env: Env)
    requires config.policy.stopAfterMeasurement && Exact(config, s.tie) && Contract(config, s, event, env)
    ensures Exact(config, Step(config, s, event, env).tie)
  {
    hide Exact, RoutesOn, OnModelComplete, OnControl, OnHbfComplete, MayRoute;
    if s.status.Running? {
      match event
      case ModelComplete(sys, id, cycle) =>
        ModelCompleteRoutes(config, s, env, sys, id, cycle);
        RoutingKeepsExact(config, s, OnModelComplete(config, s, env, sys, id, cycle), env);
      case ControlEvent(eventId, time) => ControlKeepsExact(config, s, env, eventId, time);
      case HbfComplete(completion, completions) =>
        HbfCompleteRoutes(s, env, completion, completions);
        RoutingKeepsExact(config, s, OnHbfComplete(s, env, completion, completions), env);
    }
  }

  /** In every reachable state the source is frozen if and only if the measured cohort is complete, by count or
      by required sessions: no freeze is early, and none is missed. */
  lemma {:induction false} FrozenExactlyAtBoundary(config: Config, router: Router, events: seq<(Event, Env)>)
    requires config.policy.stopAfterMeasurement && !BoundaryMet(router, config.policy.cohort) && Obeys(config, router, events)
    ensures Exact(config, Run(config, Init(config, router), events).tie)
    ensures var t := Run(config, Init(config, router), events).tie; t.stopRequested <==> BoundaryMet(t.router, config.policy.cohort)
  {
    if events != [] {
      var n := |events| - 1;
      FrozenExactlyAtBoundary(config, router, events[..n]);
      StepKeepsExact(config, Run(config, Init(config, router), events[..n]), events[n].0, events[n].1);
      hide Step, Contract, WellNumbered, BoundaryMet, Router.Valid;
    }
  }

  /** The run of HbfLoopOutcomes.AFreezingRun keeps to all of this. */
  lemma AFreezingRunObeys()
    ensures Measuring.policy.stopAfterMeasurement && !BoundaryMet(Routing, Measuring.policy.cohort) && Obeys(Measuring, Routing, OneCompletion)
  {
    hide Step, Commit, Items, WellNumbered, ById, InIdOrder, Run, Contract, BoundaryMet;
    RoutingIsNumbered();
    FirstObeys();
    SecondObeys();
    OneCallback();
    assert OneCompletion[..1][..0] == [];
    assert Obeys(Measuring, Routing, []);
    assert Obeys(Measuring, Routing, OneCompletion[..1]);
  }

  lemma RoutingIsNumbered()
    ensures WellNumbered(Routing) && !Routing.frozen && !BoundaryMet(Routing, Measuring.policy.cohort)
  {}

  lemma FirstObeys()
    ensures Contract(Measuring, Init(Measuring, Routing), HbfComplete(5, [HbfLoopOutcomes.Call]), Calm)
  {
    RoutingIsNumbered();
    hide WellNumbered;
  }

  lemma SecondObeys()
    ensures Contract(Measuring, Deferring0, ControlEvent(SameTime(0), 5), Calm)
  {
    CommitOfOne();
    hide Commit, Items, ById, InIdOrder, RoutesOn;
    assert Deferring0.Waiting() == [Item0];
  }

  lemma OneCallback()
    ensures OneCompletion[..1] == [(HbfComplete(5, [HbfLoopOutcomes.Call]), Calm)] && OneCompletion[1] == (ControlEvent(SameTime(0), 5), Calm)
    ensures Run(Measuring, Init(Measuring, Routing), []) == Init(Measuring, Routing)
    ensures Run(Measuring, Init(Measuring, Routing), OneCompletion[..1]) == Deferring0
  {
    DeferStep();
    hide Step;
    assert OneCompletion[..1] == [(HbfComplete(5, [HbfLoopOutcomes.Call]), Calm)] && OneCompletion[..1][..0] == [];
  }
}
