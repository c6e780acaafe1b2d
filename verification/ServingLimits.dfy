/** Where the loop needs its guards and its callers, shown by concrete runs. */
module ServingLimits {
  import opened Wrappers
  import opened Controls
  import opened DpWaves
  import opened WaveSafety
  import opened Serving
  import opened ServingSafety
  import opened ServingRuns
  import opened ServingDrain
  import opened ServingPolls

  const Quiet := Env(0, 0, false, Routing(map[], {}), Routing(map[], {}), Choice(false, None, false, false), {}, false, None, None)
  const Forming := Quiet.(choice := Choice(false, Some(Shape(8, 8, 8)), false, false))
  const Boundary := Quiet.(boundary := true)

  const k0 := Key(0, 0)

  // ---------------------------------------------------------------- both park guards are needed

  /** One instance of two endpoints. */
  const Pair := Setup(Config([Instance(0, 2, 1, Colocated)], map[0 := 0, 1 := 0], map[], []), Analytical, true, false, 1000.0)

  /** The batch is given to the first endpoint, then to the last one, which reports it first. */
  const HalfReported: seq<(Event, Env)> :=
    [(ModelComplete(0, 0, 0), Forming)] + [(ModelComplete(1, 0, 0), Quiet)] + [(ModelComplete(1, 1, 5), Quiet)]

  const Dispatched0 := Init().(
    work := Work(map[k0 := Batch(8, 8, 8, {}, {0}, true)], map[0 := 0], map[], map[], [k0]), sent := [Workload(k0)])

  const PickedUp := Dispatched0.(
    work := Dispatched0.work.(inflight := map[k0 := Batch(8, 8, 8, {}, {0, 1}, true)]), sent := [Workload(k0), Workload(k0)])

  const Halfway := PickedUp.(
    clock := Clock(5, 5, 0), work := PickedUp.work.(inflight := map[k0 := Batch(8, 8, 8, {1}, {0, 1}, true)]),
    sent := [Workload(k0), Workload(k0), Pass])

  /** The first callback of a run in which instance 0 has a batch: what routing issues is pending, and the
      answer may carry a control. */
  lemma FirstBatch(setup: Setup, env: Env)
    requires setup.config.Valid() && |setup.config.instances| > 0 && setup.config.instances[0].start == 0
    requires setup.config.instances[0].stages > 0 && 0 in setup.config.owner && setup.config.owner[0] == 0
    requires 0 !in setup.config.groupOf && setup.backend.Analytical? && setup.interval >= 0.0 && Plain(env)
    requires env.choice.shape == Some(Shape(8, 8, 8)) && (env.nextExact.Some? ==> env.nextExact.value >= 0)
    ensures Step(setup, Init(), ModelComplete(0, 0, 0), env) == Dispatched0.(
              jobs := Transfers(env.routed.issued, map[]),
              exact := if setup.external && env.nextExact.Some? then Armed(EmptySchedule, env.nextExact.value, 0).value.0 else EmptySchedule)
  {
    var u := Init().(jobs := Transfers(env.routed.issued, map[]));
    FirstRouting(env.routed);
    NoReport(setup.config, NoWork, 0, 0, 0);
    assert NoWork.Of(0) == {};
    StartsBatch(setup.config, NoWork, 0, 0, ChoiceNow(setup, u, env, 0));
    assert Key(0, NoWork.NextId(0)) == k0;
    assert map[][k0 := Batch(8, 8, 8, {}, {0}, true)] == Dispatched0.work.inflight && map[][0 := 0] == Dispatched0.work.lastId;
    assert [] + [k0] == [k0];
    assert Dispatch(setup.config, NoWork, 0, 0, 0, ChoiceNow(setup, u, env, 0)) == (Dispatched0.work, Ran(k0));
    hide Step, Report, Dispatch, Routed, Armed;
    PollStep(setup, Init(), env, 0, 0, 0, NoWork, false, u, Dispatched0.work, Ran(k0));
  }

  lemma FirstRouting(r: Routing)
    ensures Routed(NoTransfers, r) == Transfers(r.issued, map[])
  {
    assert r.issued - {} == r.issued;
  }

  /** After the end endpoint has reported and before the start endpoint has, dispatched work is in flight
      but no wake is owed: without the guard on half-reported batches a peer would park for good. */
  lemma HalfReportedGuardIsNeeded()
    ensures Pair.config.Valid() && Obeys(Pair, Init(), HalfReported)
    ensures var s := Run(Pair, Init(), HalfReported);
      && s.status.Running? && s.work.pending == map[] && s.work.ready == map[]
      && DispatchedWork(Pair, s.work) && PartlyReported(s.work)
      && !WakeOwed(s.work, s.jobs, s.exact)
  {
    HalfwayFacts();
    FirstBatch(Pair, Forming);
    PickUp();
    HalfReport();
    hide Step, Run, WakeOwed, DispatchedWork, PartlyReported, Contract;
    var first, second := [(ModelComplete(0, 0, 0), Forming)], [(ModelComplete(1, 0, 0), Quiet)];
    RunOne(Pair, ModelComplete(0, 0, 0), Forming);
    RunSnoc(Pair, first, ModelComplete(1, 0, 0), Quiet, Dispatched0);
    RunSnoc(Pair, first + second, ModelComplete(1, 1, 5), Quiet, PickedUp);
  }

  lemma HalfwayFacts()
    ensures Contract(Pair, Init(), ModelComplete(0, 0, 0), Forming) && Contract(Pair, Dispatched0, ModelComplete(1, 0, 0), Quiet)
    ensures Contract(Pair, PickedUp, ModelComplete(1, 1, 5), Quiet)
    ensures DispatchedWork(Pair, Halfway.work) && PartlyReported(Halfway.work)
    ensures !WakeOwed(Halfway.work, Halfway.jobs, Halfway.exact)
  {
    assert Key(0, 1 - 1) == k0 && k0 in Halfway.work.inflight;
  }

  lemma PickUp()
    ensures Step(Pair, Dispatched0, ModelComplete(1, 0, 0), Quiet) == PickedUp
  {
    var w := Dispatched0.work;
    NoReport(Pair.config, w, 0, 1, 0);
    PicksUp(Pair.config, w, 0, 1, 0, ChoiceNow(Pair, Dispatched0, Quiet, 0));
    assert w.inflight[k0].fired + {1} == {0, 1};
    assert w.inflight[k0 := Batch(8, 8, 8, {}, {0, 1}, true)] == PickedUp.work.inflight;
    NothingRouted(NoTransfers);
    hide Step, Report, Dispatch, Routed;
    PollStep(Pair, Dispatched0, Quiet, 1, 0, 0, w, false, Dispatched0, PickedUp.work, Ran(k0));
  }

  lemma HalfReport()
    ensures Step(Pair, PickedUp, ModelComplete(1, 1, 5), Quiet) == Halfway
  {
    var u, w := Halfway.(sent := PickedUp.sent), Halfway.work;
    assert Key(0, 1 - 1) == k0 && PickedUp.work.inflight[k0].ends + {1} == {1};
    assert 0 in Pair.config.instances[0].Endpoints() && 0 !in {1};
    PartReport(Pair.config, PickedUp.work, 0, 1, 1);
    assert PickedUp.work.inflight[k0 := Batch(8, 8, 8, {1}, {0, 1}, true)] == w.inflight;
    NothingToRun(Pair.config, w, 0, 1, 1, ChoiceNow(Pair, u, Quiet, 0));
    NothingRouted(NoTransfers);
    hide Step, Report, Dispatch, Routed, Rest;
    PollStep(Pair, PickedUp, Quiet, 1, 1, 5, w, false, u, w, Nothing);
    RestIdles(Pair, u, Quiet, 0, 1);
  }

  /** Two members of one group, without a KV manager. */
  const Group := Setup(Config([Instance(0, 1, 1, Colocated), Instance(1, 1, 1, Colocated)], map[0 := 0, 1 := 1],
                              map[0 := 0, 1 := 0], [[0, 1]]), Analytical, false, false, 1000.0)

  const Waiting0 := Init().(
    work := Work(map[k0 := Batch(8, 8, 8, {}, {0}, false)], map[0 := 0], map[0 := 0], map[], []), sent := [Pass])

  /** A batch that waits for its wave counts as dispatched when there is no manager, yet the backend owes
      nothing: without the guard on waiting waves a peer would park for good. */
  lemma WaveGuardIsNeeded()
    ensures Group.config.Valid() && Group.config.SingleEndpointMembers()
    ensures var s := Step(Group, Init(), ModelComplete(0, 0, 0), Forming);
      && s.status.Running? && s.work.pending != map[] && DispatchedWork(Group, s.work) && !PartlyReported(s.work)
      && !WakeOwed(s.work, s.jobs, s.exact)
  {
    GroupIsValid();
    WaitingOwesNothing();
    FirstMemberWaits(Group);
    hide Step, DispatchedWork, PartlyReported, WakeOwed, Config.Valid, Config.SingleEndpointMembers;
  }

  lemma GroupIsValid()
    ensures Group.config.Valid() && Group.config.SingleEndpointMembers()
  {}

  lemma WaitingOwesNothing()
    ensures var s := Waiting0;
      && s.work.pending != map[] && DispatchedWork(Group, s.work) && !PartlyReported(s.work) && !WakeOwed(s.work, s.jobs, s.exact)
  {
    assert k0 in Waiting0.work.inflight && 0 in Waiting0.work.pending;
  }

  /** The first member of a group of two waits with its batch. */
  lemma FirstMemberWaits(setup: Setup)
    requires setup.config.Valid() && |setup.config.instances| > 0 && setup.config.instances[0].start == 0
    requires setup.config.instances[0].stages > 0 && 0 in setup.config.owner && setup.config.owner[0] == 0
    requires setup.config.groupOf == map[0 := 0, 1 := 0] && setup.backend.Analytical? && setup.interval >= 0.0
    ensures Step(setup, Init(), ModelComplete(0, 0, 0), Forming) == Waiting0
  {
    NoReport(setup.config, NoWork, 0, 0, 0);
    assert NoWork.Of(0) == {} && |NoWork.Of(0)| == 0;
    assert 1 in setup.config.Members(0) && 1 !in NoWork.pending.Keys + {0};
    JoinsWave(setup.config, NoWork, 0, 0, ChoiceNow(setup, Init(), Forming, 0));
    assert map[][k0 := Batch(8, 8, 8, {}, {0}, false)] == Waiting0.work.inflight && map[][0 := 0] == map[0 := 0];
    NothingRouted(NoTransfers);
    hide Step, Report, Dispatch, Routed;
    PollStep(setup, Init(), Forming, 0, 0, 0, NoWork, false, Init(), Waiting0.work, Waits);
  }

  // ---------------------------------------------------------------- what the callers must keep

  /** One NPU, with cold transfers on the backend's fabric. */
  const Single := Setup(Config([Instance(0, 1, 1, Colocated)], map[0 := 0], map[], []), Analytical, true, true, 1000.0)

  const Cold := Issue(0, 64, 1)
  const Came := Callback(Cold, 1, 5)
  const Issued7 := Transfers(map[7 := Cold], map[])
  const Called7 := Transfers(map[7 := Cold], map[7 := Came])

  const Issuing := Quiet.(routed := Routing(map[7 := Cold], {}))

  /** A transfer is issued, completes without being consumed, and the idle endpoint polls again. */
  const Unconsumed: seq<(Event, Env)> :=
    [(ModelComplete(0, 0, 0), Issuing)] + [(TransferComplete(7, Came), Quiet)] + [(ModelComplete(0, 0, 6), Quiet)]

  const AfterIssue := Init().(jobs := Issued7, parked := {0}, sent := [Park])
  const AfterCall := Init().(clock := Clock(5, 5, 0), jobs := Called7, sent := [Park, Continue])
  const ParkedForGood := AfterCall.(clock := Clock(6, 6, 0), parked := {0}, sent := [Park, Continue, Park])

  /** A completed transfer that routing has not consumed still counts as pending: an idle endpoint that
      finds nothing else parks although no backend event is left to wake it. Every other callback of this
      run keeps the contract. */
  lemma UnconsumedTransferParks()
    ensures Single.config.Valid() && Single.config.SingleEndpointMembers()
    ensures Contract(Single, Init(), Unconsumed[0].0, Unconsumed[0].1) && Contract(Single, AfterCall, Unconsumed[2].0, Unconsumed[2].1)
    ensures var s := Run(Single, Init(), Unconsumed);
      s == ParkedForGood && s.status.Running? && s.parked == {0} && !WakeOwed(s.work, s.jobs, s.exact)
  {
    UnconsumedFacts();
    hide Step, Run, Contract, WakeOwed, Config.Valid, Config.SingleEndpointMembers;
    UnconsumedSteps();
    var first, second := [(ModelComplete(0, 0, 0), Issuing)], [(TransferComplete(7, Came), Quiet)];
    RunOne(Single, ModelComplete(0, 0, 0), Issuing);
    RunSnoc(Single, first, TransferComplete(7, Came), Quiet, AfterIssue);
    RunSnoc(Single, first + second, ModelComplete(0, 0, 6), Quiet, AfterCall);
  }

  lemma UnconsumedFacts()
    ensures Single.config.Valid() && Single.config.SingleEndpointMembers()
    ensures Contract(Single, Init(), ModelComplete(0, 0, 0), Issuing) && Contract(Single, AfterCall, ModelComplete(0, 0, 6), Quiet)
    ensures !WakeOwed(ParkedForGood.work, ParkedForGood.jobs, ParkedForGood.exact)
  {}

  lemma UnconsumedSteps()
    ensures Step(Single, Init(), ModelComplete(0, 0, 0), Issuing) == AfterIssue
    ensures Step(Single, AfterIssue, TransferComplete(7, Came), Quiet) == AfterCall
    ensures Step(Single, AfterCall, ModelComplete(0, 0, 6), Quiet) == ParkedForGood
  {
    FirstRouting(Issuing.routed);
    NothingRouted(Called7);
    hide Step, Routed;
    IdlePoll(Init(), Issuing, 0, Issued7);
    TransferArrives(AfterIssue);
    IdlePoll(AfterCall, Quiet, 6, Called7);
  }

  /** A poll that finds nothing to run parks while a transfer is pending. */
  lemma IdlePoll(s: State, env: Env, cycle: int, jobs: Transfers)
    requires s.status.Running? && !s.stop && s.work == NoWork && s.exact == EmptySchedule && 0 <= s.clock.floor <= cycle < 10
    requires s.meter == Init().meter && (env == Quiet || env == Issuing)
    requires jobs == Routed(s.jobs, env.routed) && (jobs == Issued7 || jobs == Called7)
    ensures Step(Single, s, ModelComplete(0, 0, cycle), env)
         == s.(clock := s.clock.(current := cycle, floor := cycle), jobs := jobs, parked := s.parked + {0}, sent := s.sent + [Park])
  {
    var u := s.(clock := s.clock.(current := cycle, floor := cycle), jobs := jobs);
    NoReport(Single.config, NoWork, 0, 0, 0);
    NothingToRun(Single.config, NoWork, 0, 0, 0, ChoiceNow(Single, u, env, 0));
    assert 7 in jobs.pending && jobs.HasPending();
    hide Step, Report, Dispatch, Routed, Rest;
    PollStep(Single, s, env, 0, 0, cycle, NoWork, false, u, NoWork, Nothing);
    RestIdles(Single, u, env, 0, 0);
  }

  lemma TransferArrives(s: State)
    requires s.status.Running? && !s.stop && 0 <= s.clock.floor <= 5 && s.jobs == Issued7
    ensures Step(Single, s, TransferComplete(7, Came), Quiet)
         == s.(clock := s.clock.(current := 5, floor := 5), jobs := Called7, parked := {}, sent := s.sent + [Continue])
  {
    assert map[][7 := Came] == map[7 := Came];
    assert Called(Issued7, 7, Came, false) == Some(Called7);
    NothingRouted(Called7);
    hide Called, Routed;
  }

  /** The transfer is issued next to a batch, completes without being consumed, and the batch reaches the
      measurement boundary. */
  const Leftover: seq<(Event, Env)> :=
    [(ModelComplete(0, 0, 0), Issuing.(choice := Forming.choice))] + [(TransferComplete(7, Came), Quiet)] + [(ModelComplete(0, 1, 9), Boundary)]

  const FrozenWithLeftover := Init().(
    clock := Clock(9, 9, 0), work := Work(map[], map[0 := 0], map[], map[], [k0]), jobs := Called7,
    stop := true, parked := {0}, sent := [Workload(k0), Continue, Park])

  const BeforeBoundary := Dispatched0.(clock := Clock(5, 5, 0), jobs := Called7, sent := [Workload(k0), Continue])

  /** A run that gets there; its other callbacks keep the contract. */
  lemma LeftoverIsReachable()
    ensures Single.config.Valid() && Run(Single, Init(), Leftover) == FrozenWithLeftover
    ensures Contract(Single, Init(), Leftover[0].0, Leftover[0].1) && Contract(Single, BeforeBoundary, Leftover[2].0, Leftover[2].1)
  {
    LeftoverFacts();
    hide Step, Run, Contract, Config.Valid;
    FirstBatch(Single, Issuing.(choice := Forming.choice));
    var first, second := [(ModelComplete(0, 0, 0), Issuing.(choice := Forming.choice))], [(TransferComplete(7, Came), Quiet)];
    TransferArrives(Dispatched0.(jobs := Issued7));
    BoundaryReport();
    RunOne(Single, ModelComplete(0, 0, 0), Issuing.(choice := Forming.choice));
    RunSnoc(Single, first, TransferComplete(7, Came), Quiet, Dispatched0.(jobs := Issued7));
    RunSnoc(Single, first + second, ModelComplete(0, 1, 9), Boundary, BeforeBoundary);
  }

  lemma LeftoverFacts()
    ensures Single.config.Valid()
    ensures Contract(Single, Init(), ModelComplete(0, 0, 0), Issuing.(choice := Forming.choice))
    ensures Contract(Single, BeforeBoundary, ModelComplete(0, 1, 9), Boundary)
  {
    assert Key(0, 1 - 1) == k0;
  }

  lemma BoundaryReport()
    ensures Step(Single, BeforeBoundary, ModelComplete(0, 1, 9), Boundary) == FrozenWithLeftover
  {
    var u, w := FrozenWithLeftover.(parked := {}, sent := BeforeBoundary.sent), FrozenWithLeftover.work;
    OnlyBatchEnds();
    NothingToRun(Single.config, w, 0, 0, 1, ChoiceNow(Single, u, Boundary, 0));
    assert 7 in u.jobs.pending && u.jobs.HasPending();
    hide Step, Report, Dispatch, Routed, Rest;
    PollStep(Single, BeforeBoundary, Boundary, 0, 1, 9, w, true, u, w, Nothing);
    RestIdles(Single, u, Boundary, 0, 0);
  }

  lemma OnlyBatchEnds()
    ensures Report(Single.config, Dispatched0.work, 0, 0, 1) == (FrozenWithLeftover.work, true)
  {
    assert Key(0, 1 - 1) == k0 && Single.config.instances[0].Endpoints() <= {} + {0};
    LastReport(Single.config, Dispatched0.work, 0, 0, 1);
    assert Dispatched0.work.inflight - {k0} == map[];
  }

  /** A transfer that had completed, unconsumed, before the freeze keeps the run from ever draining: short
      of a second callback for the same transfer, nothing that happens later removes it. */
  lemma {:induction false} LeftoverTransferNeverDrains(setup: Setup, s: State, events: seq<(Event, Env)>, job: int)
    requires setup.config.Valid() && s.stop && !s.earlyStopped && job in s.jobs.pending && job in s.jobs.answered
    requires forall i :: 0 <= i < |events| && events[i].0.TransferComplete? ==> events[i].0.job != job
    requires !Run(setup, s, events).status.Failed?
    ensures var t := Run(setup, s, events);
      && t.stop && job in t.jobs.pending && job in t.jobs.answered && !Drained(t) && !t.earlyStopped
  {
    if events != [] {
      var n := |events| - 1;
      var mid := Run(setup, s, events[..n]);
      LeftoverTransferNeverDrains(setup, s, events[..n], job);
      if mid.status.Running? { LeftoverStays(setup, mid, events[n].0, events[n].1, job); }
      else { StepAfterFailure(setup, mid, events[n].0, events[n].1); }
      hide Step;
    }
  }

  lemma StepAfterFailure(setup: Setup, s: State, event: Event, env: Env)
    requires setup.config.Valid() && !s.status.Running?
    ensures Step(setup, s, event, env) == s
  {}

  lemma LeftoverStays(setup: Setup, s: State, event: Event, env: Env, job: int)
    requires setup.config.Valid() && s.stop && s.status.Running? && !s.earlyStopped
    requires job in s.jobs.pending && job in s.jobs.answered && (event.TransferComplete? ==> event.job != job)
    requires !Step(setup, s, event, env).status.Failed?
    ensures var t := Step(setup, s, event, env);
      && t.stop && job in t.jobs.pending && job in t.jobs.answered && !Drained(t) && !t.earlyStopped
  {
    match event {
      case ModelComplete(sys, id, cycle) =>
        var inst := setup.config.owner[sys];
        var a := TakeReport(setup, s.(clock := Reported(setup, s.clock, cycle).value), env, inst, sys, id);
        assert a.stop && a.jobs == s.jobs && a.earlyStopped == s.earlyStopped;
        RespondSame(setup, RouteArrivals(a, env), env, inst, sys, id);
        hide TakeReport, Respond, Reported, Dispatch;
      case ControlEvent(eventId, time) =>
        var a := s.(clock := Absolute(s.clock, time).value, exact := Completed(s.exact, eventId, time).value.0,
                    parked := if Completed(s.exact, eventId, time).value.1 then {} else s.parked);
        AnswerSame(setup, RouteArrivals(a, env), env, Continue);
        hide Answer, Completed, Absolute;
      case TransferComplete(other, callback) =>
        var a := s.(clock := Absolute(s.clock, callback.completion).value, jobs := Called(s.jobs, other, callback, true).value,
                    parked := if other in s.jobs.answered then s.parked else {});
        AnswerSame(setup, RouteArrivals(a, env), env, Continue);
        hide Answer, Absolute;
    }
  }

  // ---------------------------------------------------------------- an exit that owes a control

  const Arming := Forming.(nextExact := Some(100))
  const Finished := Quiet.(emptyQueues := {0}, routerIdle := true)

  /** While the only batch runs a control is armed for time 100; the batch reports at time 5. */
  const EarlyFinish: seq<(Event, Env)> := [(ModelComplete(0, 0, 0), Arming)] + [(ModelComplete(0, 1, 5), Finished)]

  const Armed100 := Schedule(1, map[ExactTime(0) := 100], map[100 := ExactTime(0)], map[])

  const LeftEarly := Init().(
    clock := Clock(5, 5, 0), work := FrozenWithLeftover.work, exact := Armed100,
    shutdown := Shutdown(false, map[0 := {0}], [0]), sent := [Workload(k0), Exit], status := Exited)

  /** Normal completion does not wait for a control the backend still owes: this run keeps every contract,
      finishes its only instance, and leaves while the callback of time 100 is outstanding. */
  lemma NormalExitAbandonsControls()
    ensures Single.config.Valid() && Single.config.SingleEndpointMembers() && Obeys(Single, Init(), EarlyFinish)
    ensures var s := Run(Single, Init(), EarlyFinish);
      s.status.Exited? && !s.earlyStopped && s.exact == Armed100 && s.exact.HasPending() && s.sent == [Workload(k0), Exit]
  {
    EarlyFinishFacts();
    FirstBatch(Single, Arming);
    FinishingReport();
    hide Step, Run, Contract, Config.Valid, Config.SingleEndpointMembers;
    RunOne(Single, ModelComplete(0, 0, 0), Arming);
    RunSnoc(Single, [(ModelComplete(0, 0, 0), Arming)], ModelComplete(0, 1, 5), Finished, Dispatched0.(exact := Armed100));
  }

  lemma EarlyFinishFacts()
    ensures Single.config.Valid() && Single.config.SingleEndpointMembers() && Armed100.HasPending()
    ensures Armed(EmptySchedule, 100, 0).value.0 == Armed100
    ensures Contract(Single, Init(), ModelComplete(0, 0, 0), Arming)
    ensures Contract(Single, Dispatched0.(exact := Armed100), ModelComplete(0, 1, 5), Finished)
  {
    assert Key(0, 1 - 1) == k0 && ExactTime(0) in Armed100.pendingById;
    assert map[][ExactTime(0) := 100] == Armed100.pendingById && map[][100 := ExactTime(0)] == Armed100.pendingByTime;
  }

  lemma FinishingReport()
    ensures Step(Single, Dispatched0.(exact := Armed100), ModelComplete(0, 1, 5), Finished) == LeftEarly
  {
    var d, w := Dispatched0.(exact := Armed100), FrozenWithLeftover.work;
    var u := d.(clock := Clock(5, 5, 0), work := w);
    OnlyBatchEnds();
    NothingToRun(Single.config, w, 0, 0, 1, ChoiceNow(Single, u, Finished, 0));
    NothingRouted(NoTransfers);
    assert w.Of(0) == {};
    hide Step, Report, Dispatch, Routed, Rest;
    PollStep(Single, d, Finished, 0, 1, 5, w, true, u, w, Nothing);
    RestFinishes(Single, u, Finished, 0, 0);
    OnlyEndpointSleeps();
  }

  lemma OnlyEndpointSleeps()
    ensures Asleep(Single, Shutdown(false, map[], []), 0, 0) == Shutdown(false, map[0 := {0}], [0])
  {
    assert |{0}| == 1 && Prefills(Single.config) == {};
    assert map[][0 := {0}] == map[0 := {0}];
  }

  // ---------------------------------------------------------------- what the set-up must keep

  /** A group of two whose first member has a second pipeline stage. */
  const Deep := Setup(Config([Instance(0, 1, 2, Colocated), Instance(1, 1, 1, Colocated)], map[0 := 0, 1 := 1],
                             map[0 := 0, 1 := 0], [[0, 1]]), Analytical, true, false, 1000.0)

  /** The first member forms a batch, which waits, and then another one. */
  const FormsTwice: seq<(Event, Env)> := [(ModelComplete(0, 0, 0), Forming)] + [(ModelComplete(0, 0, 1), Forming)]

  const Overwritten := Init().(
    clock := Clock(1, 1, 0),
    work := Work(map[k0 := Batch(8, 8, 8, {}, {0}, false), Key(0, 1) := Batch(8, 8, 8, {}, {0}, false)], map[0 := 1], map[0 := 1], map[], []),
    sent := [Pass, Pass])

  /** In flight, unknown to the backend, and in no table that would hand it over. */
  ghost predicate Lost(w: Work, k: Key) {
    k in w.inflight && !w.inflight[k].dispatched && !InTable(w, k) && k.inst in w.lastId && k.id <= w.lastId[k.inst]
  }

  /** A member with a second pipeline stage may form again while its batch waits for the wave: in this run the
      waiting batch is overwritten and lost. */
  lemma PipelinedMemberLosesABatch()
    ensures Deep.config.Valid() && Obeys(Deep, Init(), FormsTwice)
    ensures Run(Deep, Init(), FormsTwice) == Overwritten && Lost(Overwritten.work, k0)
  {
    DeepFacts();
    FirstMemberWaits(Deep);
    SecondBatchOverwrites();
    hide Step, Run, Contract, Config.Valid, Lost;
    RunOne(Deep, ModelComplete(0, 0, 0), Forming);
    RunSnoc(Deep, [(ModelComplete(0, 0, 0), Forming)], ModelComplete(0, 0, 1), Forming, Waiting0);
  }

  lemma DeepFacts()
    ensures Deep.config.Valid() && Lost(Overwritten.work, k0)
    ensures Contract(Deep, Init(), ModelComplete(0, 0, 0), Forming) && Contract(Deep, Waiting0, ModelComplete(0, 0, 1), Forming)
  {}

  lemma SecondBatchOverwrites()
    ensures Step(Deep, Waiting0, ModelComplete(0, 0, 1), Forming) == Overwritten
  {
    var u, w := Waiting0.(clock := Clock(1, 1, 0)), Waiting0.work;
    NoReport(Deep.config, w, 0, 0, 0);
    JoinsAgain(ChoiceNow(Deep, u, Forming, 0));
    NothingRouted(NoTransfers);
    hide Step, Report, Dispatch, Routed;
    PollStep(Deep, Waiting0, Forming, 0, 0, 1, w, false, u, Overwritten.work, Waits);
  }

  lemma JoinsAgain(choice: Choice)
    requires choice.mayForm && choice.shape == Some(Shape(8, 8, 8))
    ensures Dispatch(Deep.config, Waiting0.work, 0, 0, 0, choice) == (Overwritten.work, Waits)
  {
    var w := Waiting0.work;
    assert w.Of(0) == {k0} && |{k0}| == 1;
    assert 1 in Deep.config.Members(0) && 1 !in w.pending.Keys + {0};
    JoinsWave(Deep.config, w, 0, 0, choice);
    assert w.inflight[Key(0, 1) := Batch(8, 8, 8, {}, {0}, false)] == Overwritten.work.inflight;
    assert map[0 := 0][0 := 1] == map[0 := 1];
  }

  /** A lost batch is never handed over and never ends, in any later run that keeps the contract. */
  lemma {:induction false} LostForever(setup: Setup, s: State, events: seq<(Event, Env)>, k: Key)
    requires setup.config.Valid() && Lost(s.work, k) && Obeys(setup, s, events)
    ensures var t := Run(setup, s, events); Lost(t.work, k) && !Drained(t)
  {
    if events != [] {
      var n := |events| - 1;
      LostForever(setup, s, events[..n], k);
      StepLoses(setup, Run(setup, s, events[..n]), events[n].0, events[n].1, k);
      hide Step, Contract, InTable;
    }
  }

  lemma StepLoses(setup: Setup, s: State, event: Event, env: Env, k: Key)
    requires setup.config.Valid() && Lost(s.work, k) && Contract(setup, s, event, env)
    ensures Lost(Step(setup, s, event, env).work, k)
  {
    match event {
      case ModelComplete(sys, id, cycle) =>
        if s.status.Running? && sys in setup.config.owner && Reported(setup, s.clock, cycle).Some? {
          var inst, b := setup.config.owner[sys], s.(clock := Reported(setup, s.clock, cycle).value);
          var a := TakeReport(setup, b, env, inst, sys, id);
          ReportLoses(setup.config, s.work, inst, sys, id, k);
          assert a.work == Report(setup.config, s.work, inst, sys, id).0 && RouteArrivals(a, env).work == a.work;
          hide TakeReport, RouteArrivals, Respond, Report, Reported, Lost, Drained, Dispatch;
          AnswersKeepWork(setup, RouteArrivals(a, env), env, inst, sys, id);
          DispatchLoses(setup.config, a.work, inst, sys, id, ChoiceNow(setup, RouteArrivals(a, env), env, inst), k);
        } else {
          hide Lost;
        }
      case ControlEvent(eventId, time) =>
        hide Lost, Answer, Completed, Drained;
        AnswersLeaveWork(setup, env);
      case TransferComplete(job, callback) =>
        hide Lost, Answer, Called, Drained;
        AnswersLeaveWork(setup, env);
    }
  }

  lemma AnswersLeaveWork(setup: Setup, env: Env)
    ensures forall s: State {:trigger Answer(setup, s, env, Continue)} :: Answer(setup, s, env, Continue).work == s.work
  {}

  lemma ReportLoses(config: Config, w: Work, inst: nat, sys: int, id: int, k: Key)
    requires inst < |config.instances| && Lost(w, k) && Faithful(w, inst, sys, id)
    ensures Lost(Report(config, w, inst, sys, id).0, k)
  {}

  lemma DispatchLoses(config: Config, w: Work, inst: nat, sys: int, id: int, choice: Choice, k: Key)
    requires config.Valid() && inst < |config.instances| && Lost(w, k)
    ensures Lost(Dispatch(config, w, inst, sys, id, choice).0, k)
  {
    var formed := if choice.mayForm then Form(config, w, inst, sys, id, choice.shape) else None;
    hide Join;
    if formed.Some? && sys == config.instances[inst].start {
      AddLoses(config, w, inst, choice.shape.value, sys, choice.fabricBlocked, k);
    } else if formed.None? && inst in config.groupOf {
      AddLoses(config, w, inst, DummyShape, sys, choice.fabricBlocked, k);
    }
  }

  lemma AddLoses(config: Config, w: Work, inst: nat, shape: Shape, sys: int, blocked: bool, k: Key)
    requires config.Valid() && inst < |config.instances| && Lost(w, k)
    ensures var v, l := AddBatch(w, inst, shape, sys), Key(inst, w.NextId(inst));
      && Lost(Launch(v, l), k) && (inst in config.groupOf ==> Lost(Join(config, v, inst, l.id, blocked), k))
  {
    var v, l := AddBatch(w, inst, shape, sys), Key(inst, w.NextId(inst));
    assert k != l && Lost(v, k) && !InTable(Enter(v, inst, l.id), k);
    if inst in config.groupOf {
      var g := config.groupOf[inst];
      PadWaveAt(config, Enter(v, inst, l.id), g, k);
      hide PadWave, Full, AddBatch;
    }
  }

  /** A colocated instance next to one for prefill and one for decode: the two lists do not cover it. */
  const Mixed := Setup(Config([Instance(0, 1, 1, Colocated), Instance(1, 1, 1, Prefill), Instance(3, 1, 1, Decode)],
                              map[0 := 0, 1 := 1, 2 := 1, 3 := 2], map[], []), Analytical, true, false, 1000.0)

  const DecodeFinished := Quiet.(emptyQueues := {2}, routerIdle := true)

  /** The colocated instance finishes, then the decode instance; prefill still has requests. */
  const DecodeFirst: seq<(Event, Env)> := [(ModelComplete(0, 0, 0), Finished)] + [(ModelComplete(3, 0, 0), DecodeFinished)]

  const OneDone := Init().(shutdown := Shutdown(true, map[0 := {0}], [0]), sent := [Done])
  const DecodeDone := OneDone.(shutdown := Shutdown(true, map[0 := {0}, 2 := {3}], [0, 2]), sent := [Done, Done])

  /** Counting finished instances decides the prefill stage only when the lists partition the instances: in
      this run the colocated instance finishes first, and the decode instance finishes before prefill. */
  lemma ColocatedBreaksTheCount()
    ensures Mixed.config.Valid() && Obeys(Mixed, Init(), DecodeFirst)
    ensures var s := Run(Mixed, Init(), DecodeFirst);
      && s == DecodeDone && s.status.Running?
      && Mixed.config.instances[2].role.Decode? && 2 in s.shutdown.done
      && Mixed.config.instances[1].role.Prefill? && 1 !in s.shutdown.done
  {
    MixedFacts();
    InstanceSleeps(Init(), 0, 0, Finished, OneDone);
    InstanceSleeps(OneDone, 2, 3, DecodeFinished, DecodeDone);
    hide Step, Run, Contract, Config.Valid;
    RunOne(Mixed, ModelComplete(0, 0, 0), Finished);
    RunSnoc(Mixed, [(ModelComplete(0, 0, 0), Finished)], ModelComplete(3, 0, 0), DecodeFinished, OneDone);
  }

  lemma MixedFacts()
    ensures Mixed.config.Valid()
    ensures Contract(Mixed, Init(), ModelComplete(0, 0, 0), Finished) && Contract(Mixed, OneDone, ModelComplete(3, 0, 0), DecodeFinished)
    ensures Asleep(Mixed, Shutdown(false, map[], []), 0, 0) == OneDone.shutdown
    ensures Asleep(Mixed, OneDone.shutdown, 2, 3) == DecodeDone.shutdown
  {
    assert Prefills(Mixed.config) == {1} && |{1}| == 1 && |{0}| == 1 && |{3}| == 1;
    assert map[][0 := {0}] == map[0 := {0}] && map[0 := {0}][2 := {3}] == map[0 := {0}, 2 := {3}];
  }

  /** A poll of an instance that never had anything to do. */
  lemma InstanceSleeps(s: State, inst: nat, sys: int, env: Env, t: State)
    requires (s, inst, sys, env, t) == (Init(), 0, 0, Finished, OneDone) || (s, inst, sys, env, t) == (OneDone, 2, 3, DecodeFinished, DecodeDone)
    requires Asleep(Mixed, s.shutdown, inst, sys) == t.shutdown
    ensures Step(Mixed, s, ModelComplete(sys, 0, 0), env) == t
  {
    NoReport(Mixed.config, NoWork, inst, sys, 0);
    NothingToRun(Mixed.config, NoWork, inst, sys, 0, ChoiceNow(Mixed, s, env, inst));
    NothingRouted(NoTransfers);
    assert NoWork.Of(inst) == {};
    hide Step, Report, Dispatch, Routed, Rest, Asleep;
    PollStep(Mixed, s, env, sys, 0, 0, NoWork, false, s, NoWork, Nothing);
    RestFinishes(Mixed, s, env, inst, sys);
  }
}
