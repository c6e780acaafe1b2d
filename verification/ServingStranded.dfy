/** Batches that a measurement freeze strands (serving/__main__.py, lines 2080-2106). An instance's last
  endpoint is given a batch when it polls, after the first one; once the source is frozen the loop no longer
  asks the scheduler, so a batch whose last endpoint had not polled by then is never handed to it and never
  ends. Short of that, a frozen run drains.
 */
module ServingStranded {
  import opened Wrappers
  import opened Controls
  import opened DpWaves
  import opened WaveSafety
  import opened Serving
  import opened ServingSafety
  import opened ServingRuns
  import opened ServingBooks
  import opened ServingDrain
  import opened ServingExit
  import opened ServingLimits
  import opened ServingPolls

  /** The backend has the batch, and one of its endpoints was never given it. */
  predicate StrandedAt(config: Config, w: Work, k: Key) {
    && k in w.inflight && w.inflight[k].dispatched && k.inst < |config.instances|
    && !(config.instances[k.inst].Endpoints() <= w.inflight[k].fired)
  }

  ghost predicate Stranded(config: Config, w: Work) { exists k :: StrandedAt(config, w, k) }

  // ---------------------------------------------------------------- a frozen run that is not stranded

  /** A batch that no report is owed for waits in a table, or is stranded. */
  lemma UnowedWaits(config: Config, w: Work, k: Key)
    requires Waves(config, w) && k in w.inflight && Owed(config, w) == {} && !StrandedAt(config, w, k)
    ensures InTable(w, k)
  {
    assert BatchOk(config, w, {}, k);
    var e :| e in config.instances[k.inst].Endpoints() && e !in w.inflight[k].ends;
    assert !w.inflight[k].dispatched || (k, e) in Owed(config, w);
  }

  lemma UnownedIsIdle(config: Config, w: Work, j: nat)
    requires Waves(config, w) && Owed(config, w) == {} && !Stranded(config, w) && j !in w.pending && j !in w.ready
    ensures w.Idle(j)
  {
    forall k | k in w.inflight ensures k.inst != j { UnowedWaits(config, w, k); }
  }

  lemma Someone(m: map<nat, int>)
    ensures m == map[] || exists i :: i in m
  {
    if !(exists i :: i in m) { assert m == map[]; }
  }

  lemma SomeBatch(m: map<Key, Batch>)
    ensures m == map[] || exists k :: k in m
  {
    if !(exists k :: k in m) { assert m == map[]; }
  }

  /** With nothing stranded a frozen run is never stuck: while it is not drained the backend owes a report, a
      control or a transfer, or some instance's next unblocked poll brings the end nearer. */
  lemma NeverStuck(setup: Setup, s: State)
    requires setup.config.Valid() && Inv(setup, s) && s.stop && !Drained(s) && !Stranded(setup.config, s.work)
    ensures || Owed(setup.config, s.work) != {} || s.exact.HasPending() || s.jobs.HasPending()
            || s.work.ready != map[]
            || exists j :: j in Missing(setup.config, s.work) && s.work.Idle(j)
  {
    var w := s.work;
    if Owed(setup.config, w) == {} && !s.exact.HasPending() && !s.jobs.HasPending() && w.ready == map[] {
      Someone(w.pending);
      SomeBatch(w.inflight);
      forall k | k in w.inflight ensures k.inst in w.pending { UnowedWaits(setup.config, w, k); }
      var i :| i in w.pending;
      assert EntryOk(setup.config, w, Key(i, w.pending[i]));
      var g := setup.config.groupOf[i];
      var j :| j in setup.config.Members(g) && j !in w.pending.Keys;
      assert i in w.Waiting(setup.config, g);
      hide Stranded;
      UnownedIsIdle(setup.config, w, j);
      assert j in Missing(setup.config, w);
    }
  }

  /** A frozen state is drained exactly when nothing is to come and nothing is stranded. */
  lemma DrainedExactly(setup: Setup, s: State)
    requires Inv(setup, s) && s.stop
    ensures Drained(s) <==> ToCome(setup.config, s) == 0 && !Stranded(setup.config, s.work)
  {
    var w := s.work;
    hide Waves;
    if Drained(s) {
      assert Missing(setup.config, w) == {} && Held(w) == {} && Owed(setup.config, w) == {};
    } else if ToCome(setup.config, s) == 0 && !Stranded(setup.config, w) {
      assert Held(w) == {} && Owed(setup.config, w) == {} && !s.jobs.HasPending();
      assert |s.exact.pendingById| == 0;
      NothingHeld(setup.config, w);
    }
  }

  lemma NothingHeld(config: Config, w: Work)
    requires Waves(config, w) && Held(w) == {} && Owed(config, w) == {} && !Stranded(config, w)
    ensures w.pending == map[] && w.ready == map[] && w.inflight == map[]
  {
    assert forall i :: i in w.pending ==> i in Held(w);
    assert forall i :: i in w.ready ==> i in Held(w);
    assert forall k :: InTable(w, k) ==> k.inst in Held(w);
    forall k ensures k !in w.inflight { if k in w.inflight { UnowedWaits(config, w, k); } }
  }

  // ---------------------------------------------------------------- freezing decides what is stranded

  /** In a frozen run scheduling hands over batches of group members only. */
  lemma DispatchLaunches(config: Config, w: Work, inst: nat, sys: int, id: int, choice: Choice, k: Key)
    requires config.Valid() && inst < |config.instances| && Waves(config, w)
    requires choice.mayForm ==> w.WaveOpen(config, inst)
    ensures var v := Dispatch(config, w, inst, sys, id, choice).0;
      k in v.inflight && v.inflight[k].dispatched ==> (k in w.inflight && w.inflight[k].dispatched) || k.inst in config.groupOf
  {
    var formed := if choice.mayForm then Form(config, w, inst, sys, id, choice.shape) else None;
    hide Waves, Join;
    if formed.Some? && sys == config.instances[inst].start {
      JoinLaunches(config, AddBatch(w, inst, choice.shape.value, sys), inst, w.NextId(inst), choice.fabricBlocked, k);
    } else if formed.None? && inst in w.ready {
      ReadyIsMember(config, w, inst);
    } else if formed.None? && inst in config.groupOf {
      JoinLaunches(config, AddBatch(w, inst, DummyShape, sys), inst, w.NextId(inst), choice.fabricBlocked, k);
    }
  }

  lemma ReadyIsMember(config: Config, w: Work, inst: nat)
    requires Waves(config, w) && inst in w.ready
    ensures inst in config.groupOf
  {
    assert EntryOk(config, w, Key(inst, w.ready[inst]));
  }

  lemma JoinLaunches(config: Config, w: Work, inst: nat, id: int, blocked: bool, k: Key)
    requires inst in config.groupOf && config.groupOf[inst] < |config.groups|
    ensures var v := Join(config, w, inst, id, blocked);
      k in v.inflight && v.inflight[k].dispatched ==> (k in w.inflight && w.inflight[k].dispatched) || k.inst == inst
  {
    PadWaveAt(config, Enter(w, inst, id), config.groupOf[inst], k);
    hide PadWave, Full;
  }

  /** Group members have one endpoint, so none of their batches is stranded. */
  lemma MembersAreWhole(config: Config, w: Work, k: Key)
    requires config.SingleEndpointMembers() && Waves(config, w) && k in w.inflight && k.inst in config.groupOf
    ensures !StrandedAt(config, w, k)
  {
    assert BatchOk(config, w, {}, k);
  }

  lemma DispatchStrands(config: Config, w: Work, inst: nat, sys: int, id: int, choice: Choice, k: Key)
    requires config.Valid() && config.SingleEndpointMembers() && Waves(config, w)
    requires sys in config.owner && config.owner[sys] == inst
    requires choice.mayForm ==> w.WaveOpen(config, inst)
    ensures StrandedAt(config, Dispatch(config, w, inst, sys, id, choice).0, k) <==> StrandedAt(config, w, k)
  {
    var v := Dispatch(config, w, inst, sys, id, choice).0;
    DispatchContinues(config, w, inst, sys, id, choice);
    DispatchLaunches(config, w, inst, sys, id, choice, k);
    DispatchKeeps(config, w, inst, sys, id, choice);
    assert choice.mayForm ==> sys == config.instances[inst].start;
    hide Dispatch, Waves;
    if k in v.inflight && k.inst in config.groupOf { MembersAreWhole(config, v, k); }
    if k in w.inflight && k.inst in config.groupOf { MembersAreWhole(config, w, k); }
  }

  /** A report cannot complete a stranded batch. */
  lemma ReportStrands(config: Config, w: Work, inst: nat, sys: int, id: int, k: Key)
    requires inst < |config.instances| && Waves(config, w) && Faithful(w, inst, sys, id)
    ensures StrandedAt(config, Report(config, w, inst, sys, id).0, k) <==> StrandedAt(config, w, k)
  {
    assert k in w.inflight ==> BatchOk(config, w, {}, k);
    hide Waves;
  }

  lemma StepStrands(setup: Setup, s: State, event: Event, env: Env, k: Key)
    requires setup.config.Valid() && setup.config.SingleEndpointMembers() && Inv(setup, s) && Contract(setup, s, event, env)
    requires s.stop && !Step(setup, s, event, env).status.Failed?
    ensures StrandedAt(setup.config, Step(setup, s, event, env).work, k) <==> StrandedAt(setup.config, s.work, k)
  {
    hide StrandedAt, Inv, Drained, Answer, Completed, Called;
    if s.status.Running? {
      match event {
        case ModelComplete(sys, id, cycle) =>
          hide TakeReport, Respond, Reported, Faithful;
          ModelCompleteStrands(setup, s, env, sys, id, cycle, k);
          hide OnModelComplete;
        case ControlEvent(eventId, time) => ContinueWork(setup, env);
        case TransferComplete(job, callback) => ContinueWork(setup, env);
      }
    }
  }

  lemma ContinueWork(setup: Setup, env: Env)
    ensures forall s: State {:trigger Answer(setup, s, env, Continue)} :: Answer(setup, s, env, Continue).work == s.work
  {}

  lemma ModelCompleteStrands(setup: Setup, s: State, env: Env, sys: int, id: int, cycle: int, k: Key)
    requires setup.config.Valid() && setup.config.SingleEndpointMembers() && Inv(setup, s) && s.stop
    requires Reported(setup, s.clock, cycle).Some? && sys in setup.config.owner && Faithful(s.work, setup.config.owner[sys], sys, id)
    ensures StrandedAt(setup.config, OnModelComplete(setup, s, env, sys, id, cycle).work, k) <==> StrandedAt(setup.config, s.work, k)
  {
    var inst := setup.config.owner[sys];
    ReportStrands(setup.config, s.work, inst, sys, id, k);
    hide TakeReport, RouteArrivals, Respond, Report, Waves, Woken, Reported, Faithful, StrandedAt, Dispatch;
    var a := Taken(setup, s, env, sys, id, cycle);
    RespondSame(setup, a, env, inst, sys, id);
    DispatchStrands(setup.config, a.work, inst, sys, id, ChoiceNow(setup, a, env, inst), k);
    hide Drained;
  }

  /** Over any frozen run, whether something is stranded is what it was at the freeze. */
  lemma {:induction false} FrozenRunKeeps(setup: Setup, s: State, events: seq<(Event, Env)>)
    requires setup.config.Valid() && setup.config.SingleEndpointMembers() && Inv(setup, s) && Obeys(setup, s, events)
    requires s.stop && !s.earlyStopped && !Run(setup, s, events).status.Failed?
    ensures var t := Run(setup, s, events);
      && Inv(setup, t) && t.stop && (t.status.Running? ==> !t.earlyStopped)
      && forall k :: StrandedAt(setup.config, t.work, k) <==> StrandedAt(setup.config, s.work, k)
  {
    if events != [] {
      var n := |events| - 1;
      var mid := Run(setup, s, events[..n]);
      FrozenRunKeeps(setup, s, events[..n]);
      StepKeeps(setup, mid, events[n].0, events[n].1);
      forall k ensures StrandedAt(setup.config, Run(setup, s, events).work, k) <==> StrandedAt(setup.config, mid.work, k) {
        StepStrands(setup, mid, events[n].0, events[n].1, k);
      }
      if mid.status.Running? { StepDrains(setup, mid, events[n].0, events[n].1); }
      else { StepAfterFailure(setup, mid, events[n].0, events[n].1); }
      hide Inv, Step, Contract, StrandedAt, Nearer, Drained;
    }
  }

  /** What decides whether a frozen run can drain is known at the freeze: after any later run it is drained
      exactly when nothing is left to come and no batch was stranded then. */
  lemma FrozenDrainsExactly(setup: Setup, s: State, events: seq<(Event, Env)>)
    requires setup.config.Valid() && setup.config.SingleEndpointMembers() && Inv(setup, s) && Obeys(setup, s, events)
    requires s.stop && !s.earlyStopped && !Run(setup, s, events).status.Failed?
    ensures var t := Run(setup, s, events);
      Drained(t) <==> ToCome(setup.config, t) == 0 && !Stranded(setup.config, s.work)
  {
    FrozenRunKeeps(setup, s, events);
    DrainedExactly(setup, Run(setup, s, events));
    hide Run, Obeys, Inv, Drained, ToCome, StrandedAt;
  }

  /** A run that freezes with a batch stranded is never left, by either exit. */
  lemma {:induction false} StrandedNeverLeaves(setup: Setup, events: seq<(Event, Env)>, n: nat, k: Key)
    requires setup.config.Valid() && setup.config.SingleEndpointMembers()
    requires Obeys(setup, Init(), events) && Sleeps(setup, Init(), events) && n <= |events|
    requires var s := Run(setup, Init(), events[..n]); s.stop && s.status.Running? && StrandedAt(setup.config, s.work, k)
    requires !Run(setup, Init(), events).status.Failed?
    ensures var t := Run(setup, Init(), events); t.stop && t.status.Running? && StrandedAt(setup.config, t.work, k)
    decreases |events|
  {
    hide Run, Step, Obeys, Sleeps, Contract, Awake, StrandedAt, Config.Valid, Config.SingleEndpointMembers;
    if n == |events| {
      assert events[..n] == events;
    } else {
      var m := |events| - 1;
      assert events[..m][..n] == events[..n];
      LastStep(setup, events);
      StrandedNeverLeaves(setup, events[..m], n, k);
      StrandedStaysIn(setup, events[..m], events[m].0, events[m].1, k);
    }
  }

  lemma LastStep(setup: Setup, events: seq<(Event, Env)>)
    requires setup.config.Valid() && events != [] && Obeys(setup, Init(), events) && Sleeps(setup, Init(), events)
    requires !Run(setup, Init(), events).status.Failed?
    ensures var m := |events| - 1; var mid := Run(setup, Init(), events[..m]);
      && Obeys(setup, Init(), events[..m]) && Sleeps(setup, Init(), events[..m])
      && Contract(setup, mid, events[m].0, events[m].1) && Awake(setup, mid, events[m].0)
      && Run(setup, Init(), events) == Step(setup, mid, events[m].0, events[m].1) && !mid.status.Failed?
  {
    var m := |events| - 1;
    var mid := Run(setup, Init(), events[..m]);
    if !mid.status.Running? { StepAfterFailure(setup, mid, events[m].0, events[m].1); }
    hide Step, Contract, Awake;
  }

  lemma StrandedStaysIn(setup: Setup, events: seq<(Event, Env)>, event: Event, env: Env, k: Key)
    requires setup.config.Valid() && setup.config.SingleEndpointMembers()
    requires Obeys(setup, Init(), events) && Sleeps(setup, Init(), events)
    requires var s := Run(setup, Init(), events);
      && s.stop && s.status.Running? && StrandedAt(setup.config, s.work, k)
      && Contract(setup, s, event, env) && Awake(setup, s, event) && !Step(setup, s, event, env).status.Failed?
    ensures var t := Step(setup, Run(setup, Init(), events), event, env); t.stop && t.status.Running? && StrandedAt(setup.config, t.work, k)
  {
    var s := Run(setup, Init(), events);
    hide Step, Run, Obeys, Sleeps, Contract, Awake, Inv, Outstanding, Finishes, Books;
    RunKeeps(setup, events);
    RunBooks(setup, events);
    StepBooks(setup, s, event, env);
    StepStrands(setup, s, event, env, k);
    ExitOwesNoBatch(setup, events, event, env);
  }

  // ---------------------------------------------------------------- a run that strands a batch

  /** Two instances of two endpoints. */
  const Uneven := Setup(Config([Instance(0, 2, 1, Colocated), Instance(2, 2, 1, Colocated)], map[0 := 0, 1 := 0, 2 := 1, 3 := 1], map[], []),
                        Analytical, true, false, 1000.0)

  const k1 := Key(1, 0)

  /** At time 0 both endpoints of instance 1 take a batch and instance 0 parks. At time 5 the first report of
      that batch wakes instance 0, whose first endpoint starts a batch; still at time 5 the last report reaches
      the boundary, before endpoint 1 has polled again. */
  const Starts: seq<(Event, Env)> :=
    [(ModelComplete(2, 0, 0), Forming)] + [(ModelComplete(3, 0, 0), Quiet)] + [(ModelComplete(0, 0, 0), Quiet)]
  const FreezesEarly :=
    Starts + [(ModelComplete(2, 1, 5), Quiet)] + [(ModelComplete(0, 0, 5), Forming)] + [(ModelComplete(3, 1, 5), Boundary)]

  const OneHasIt := Init().(
    work := Work(map[k1 := Batch(8, 8, 8, {}, {2}, true)], map[1 := 0], map[], map[], [k1]), sent := [Workload(k1)])

  const BothHaveIt := OneHasIt.(
    work := OneHasIt.work.(inflight := map[k1 := Batch(8, 8, 8, {}, {2, 3}, true)]), sent := [Workload(k1), Workload(k1)])

  const Asleep0 := BothHaveIt.(parked := {0}, sent := [Workload(k1), Workload(k1), Park])

  const Awake0 := BothHaveIt.(
    clock := Clock(5, 5, 0), work := BothHaveIt.work.(inflight := map[k1 := Batch(8, 8, 8, {2}, {2, 3}, true)]),
    sent := [Workload(k1), Workload(k1), Park, Pass])

  const BothRunning := Awake0.(
    work := Work(map[k1 := Batch(8, 8, 8, {2}, {2, 3}, true), k0 := Batch(8, 8, 8, {}, {0}, true)], map[1 := 0, 0 := 0], map[], map[], [k1, k0]),
    sent := [Workload(k1), Workload(k1), Park, Pass, Workload(k0)])

  const OneStranded := BothRunning.(
    work := BothRunning.work.(inflight := map[k0 := Batch(8, 8, 8, {}, {0}, true)]), stop := true,
    sent := [Workload(k1), Workload(k1), Park, Pass, Workload(k0), Pass])

  lemma FirstHasIt()
    ensures Step(Uneven, Init(), ModelComplete(2, 0, 0), Forming) == OneHasIt
  {
    var v := OneHasIt.work;
    NothingRouted(NoTransfers);
    NoReport(Uneven.config, NoWork, 1, 2, 0);
    assert NoWork.Of(1) == {};
    StartsBatch(Uneven.config, NoWork, 1, 0, ChoiceNow(Uneven, Init(), Forming, 1));
    assert map[][k1 := Batch(8, 8, 8, {}, {2}, true)] == v.inflight && map[][1 := 0] == v.lastId && [] + [k1] == [k1];
    assert Dispatch(Uneven.config, NoWork, 1, 2, 0, ChoiceNow(Uneven, Init(), Forming, 1)) == (v, Ran(k1));
    hide Step, Report, Dispatch, Routed;
    PollStep(Uneven, Init(), Forming, 2, 0, 0, NoWork, false, Init(), v, Ran(k1));
  }

  lemma LastHasIt()
    ensures Step(Uneven, OneHasIt, ModelComplete(3, 0, 0), Quiet) == BothHaveIt
  {
    var w := OneHasIt.work;
    NothingRouted(NoTransfers);
    NoReport(Uneven.config, w, 1, 3, 0);
    PicksUp(Uneven.config, w, 1, 3, 0, ChoiceNow(Uneven, OneHasIt, Quiet, 1));
    assert w.inflight[k1].fired + {3} == {2, 3};
    assert w.inflight[k1 := Batch(8, 8, 8, {}, {2, 3}, true)] == BothHaveIt.work.inflight;
    hide Step, Report, Dispatch, Routed;
    PollStep(Uneven, OneHasIt, Quiet, 3, 0, 0, w, false, OneHasIt, BothHaveIt.work, Ran(k1));
  }

  lemma FallsAsleep()
    ensures Step(Uneven, BothHaveIt, ModelComplete(0, 0, 0), Quiet) == Asleep0
  {
    var w := BothHaveIt.work;
    NothingRouted(NoTransfers);
    NoReport(Uneven.config, w, 0, 0, 0);
    NothingToRun(Uneven.config, w, 0, 0, 0, ChoiceNow(Uneven, BothHaveIt, Quiet, 0));
    assert k1 in w.inflight && DispatchedWork(Uneven, w) && !PartlyReported(w);
    hide Step, Report, Dispatch, Routed, Rest, DispatchedWork, PartlyReported;
    PollStep(Uneven, BothHaveIt, Quiet, 0, 0, 0, w, false, BothHaveIt, w, Nothing);
    RestIdles(Uneven, BothHaveIt, Quiet, 0, 0);
  }

  lemma WakesUp()
    ensures Step(Uneven, Asleep0, ModelComplete(2, 1, 5), Quiet) == Awake0
  {
    var u, w := Awake0.(sent := Asleep0.sent), Awake0.work;
    NothingRouted(NoTransfers);
    assert Key(1, 1 - 1) == k1 && Asleep0.work.inflight[k1].ends + {2} == {2};
    assert 3 in Uneven.config.instances[1].Endpoints() && 3 !in {2};
    PartReport(Uneven.config, Asleep0.work, 1, 2, 1);
    assert Asleep0.work.inflight[k1 := Batch(8, 8, 8, {2}, {2, 3}, true)] == w.inflight;
    NothingToRun(Uneven.config, w, 1, 2, 1, ChoiceNow(Uneven, u, Quiet, 1));
    assert k1 in w.inflight && w.inflight[k1].ends == {2} && PartlyReported(w);
    hide Step, Report, Dispatch, Routed, Rest, DispatchedWork, PartlyReported;
    PollStep(Uneven, Asleep0, Quiet, 2, 1, 5, w, false, u, w, Nothing);
    RestIdles(Uneven, u, Quiet, 1, 2);
  }

  lemma SecondStarts()
    ensures Step(Uneven, Awake0, ModelComplete(0, 0, 5), Forming) == BothRunning
  {
    var w, v := Awake0.work, BothRunning.work;
    NothingRouted(NoTransfers);
    NoReport(Uneven.config, w, 0, 0, 0);
    assert w.Of(0) == {} && Key(0, w.NextId(0)) == k0;
    StartsBatch(Uneven.config, w, 0, 0, ChoiceNow(Uneven, Awake0, Forming, 0));
    assert w.inflight[k0 := Batch(8, 8, 8, {}, {0}, true)] == v.inflight && w.lastId[0 := 0] == v.lastId && [k1] + [k0] == [k1, k0];
    assert Dispatch(Uneven.config, w, 0, 0, 0, ChoiceNow(Uneven, Awake0, Forming, 0)) == (v, Ran(k0));
    hide Step, Report, Dispatch, Routed;
    PollStep(Uneven, Awake0, Forming, 0, 0, 5, w, false, Awake0, v, Ran(k0));
  }

  lemma FreezingReport()
    ensures Step(Uneven, BothRunning, ModelComplete(3, 1, 5), Boundary) == OneStranded
  {
    var u, w := OneStranded.(sent := BothRunning.sent), OneStranded.work;
    NothingRouted(NoTransfers);
    assert Key(1, 1 - 1) == k1 && Uneven.config.instances[1].Endpoints() <= BothRunning.work.inflight[k1].ends + {3};
    LastReport(Uneven.config, BothRunning.work, 1, 3, 1);
    assert BothRunning.work.inflight - {k1} == w.inflight;
    NothingToRun(Uneven.config, w, 1, 3, 1, ChoiceNow(Uneven, u, Boundary, 1));
    assert k0 in w.inflight;
    hide Step, Report, Dispatch, Routed, Rest, DispatchedWork, PartlyReported;
    PollStep(Uneven, BothRunning, Boundary, 3, 1, 5, w, true, u, w, Nothing);
    RestIdles(Uneven, u, Boundary, 1, 3);
  }

  lemma StrandingContracts()
    ensures Contract(Uneven, Init(), ModelComplete(2, 0, 0), Forming)
    ensures Contract(Uneven, OneHasIt, ModelComplete(3, 0, 0), Quiet)
    ensures Contract(Uneven, BothHaveIt, ModelComplete(0, 0, 0), Quiet)
    ensures Contract(Uneven, Asleep0, ModelComplete(2, 1, 5), Quiet)
    ensures Contract(Uneven, Awake0, ModelComplete(0, 0, 5), Forming)
    ensures Contract(Uneven, BothRunning, ModelComplete(3, 1, 5), Boundary)
  {
    assert Key(1, 1 - 1) == k1;
  }

  lemma UnevenIsValid()
    ensures Uneven.config.Valid() && Uneven.config.SingleEndpointMembers()
  {}

  lemma StrandedBatch()
    ensures StrandedAt(Uneven.config, OneStranded.work, k0)
  {
    assert 1 in Uneven.config.instances[0].Endpoints() && 1 !in OneStranded.work.inflight[k0].fired;
  }

  lemma BothStart()
    ensures Run(Uneven, Init(), Starts) == Asleep0 && Obeys(Uneven, Init(), Starts)
  {
    hide Step, Run, Contract, Obeys, Config.Valid;
    StrandingContracts();
    FirstHasIt();
    LastHasIt();
    FallsAsleep();
    UnevenIsValid();
    var first, second := [(ModelComplete(2, 0, 0), Forming)], [(ModelComplete(3, 0, 0), Quiet)];
    RunOne(Uneven, ModelComplete(2, 0, 0), Forming);
    RunSnoc(Uneven, first, ModelComplete(3, 0, 0), Quiet, OneHasIt);
    RunSnoc(Uneven, first + second, ModelComplete(0, 0, 0), Quiet, BothHaveIt);
  }

  /** A run that keeps every contract and freezes with a batch stranded. */
  lemma FreezeCanStrand()
    ensures Uneven.config.Valid() && Uneven.config.SingleEndpointMembers()
    ensures Obeys(Uneven, Init(), FreezesEarly) && Run(Uneven, Init(), FreezesEarly) == OneStranded
    ensures OneStranded.stop && OneStranded.status.Running? && StrandedAt(Uneven.config, OneStranded.work, k0)
  {
    hide Step, Run, Contract, Obeys, StrandedAt, Config.Valid, Config.SingleEndpointMembers;
    UnevenIsValid();
    StrandedBatch();
    BothStart();
    WakesUp();
    SecondStarts();
    FreezingReport();
    StrandingContracts();
    var fourth, fifth := [(ModelComplete(2, 1, 5), Quiet)], [(ModelComplete(0, 0, 5), Forming)];
    RunSnoc(Uneven, Starts, ModelComplete(2, 1, 5), Quiet, Asleep0);
    RunSnoc(Uneven, Starts + fourth, ModelComplete(0, 0, 5), Forming, Awake0);
    RunSnoc(Uneven, Starts + fourth + fifth, ModelComplete(3, 1, 5), Boundary, BothRunning);
  }
}
