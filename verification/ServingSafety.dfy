/** What every run of the event loop without the HBF runtime keeps. */
module ServingSafety {
  import opened Wrappers
  import opened Controls
  import opened DpWaves
  import opened WaveSafety
  import opened Serving

  // ---------------------------------------------------------------- the invariant, part by part

  /** A backend event is owed whose wake has not fired: a dispatched batch that no endpoint has reported,
      a transfer whose callback has not come, or an exact-time control. */
  ghost predicate WakeOwed(w: Work, jobs: Transfers, exact: Schedule) {
    || (exists k :: k in w.inflight && w.inflight[k].dispatched && w.inflight[k].ends == {})
    || (exists j :: jobs.Owes(j))
    || exact.HasPending()
  }

  ghost predicate Woken(w: Work, jobs: Transfers, exact: Schedule, parked: set<nat>) {
    parked == {} || WakeOwed(w, jobs, exact)
  }

  /** Every transfer whose callback has come is consumed. */
  predicate AllIssued(jobs: Transfers) { jobs.pending.Keys !! jobs.answered.Keys }

  ghost predicate Inv(setup: Setup, s: State) {
    && Waves(setup.config, s.work)
    && s.exact.Valid()
    && AllIssued(s.jobs)
    && Woken(s.work, s.jobs, s.exact, s.parked)
  }

  lemma InitKeeps(setup: Setup)
    ensures Inv(setup, Init())
  {}

  // ---------------------------------------------------------------- the pieces

  lemma AnswerFrame(setup: Setup, s: State, env: Env, command: Command)
    ensures var t := Answer(setup, s, env, command); (t.work, t.shutdown) == (s.work, s.shutdown)
  {}

  lemma FlushFrame(setup: Setup, s: State, first: bool)
    ensures FlushBuckets(setup, s, first) == s.(meter := FlushBuckets(setup, s, first).meter)
  {}

  lemma AnswerKeeps(setup: Setup, s: State, env: Env, command: Command)
    requires Inv(setup, s)
    ensures Inv(setup, Answer(setup, s, env, command))
  {
    if env.nextExact.Some? { ArmedKeepsValid(s.exact, env.nextExact.value, s.clock.current); }
    hide Waves;
  }

  lemma FlushKeeps(setup: Setup, s: State, first: bool)
    requires Inv(setup, s)
    ensures Inv(setup, FlushBuckets(setup, s, first))
  {
    hide Waves, Woken;
  }

  lemma RouteKeeps(setup: Setup, s: State, env: Env)
    requires Inv(setup, s)
    ensures Inv(setup, RouteArrivals(s, env))
  {
    hide Waves;
    var t := RouteArrivals(s, env);
    forall j | s.jobs.Owes(j) ensures t.jobs.Owes(j) {}
  }

  /** A report leaves the other batches as they were. */
  lemma ReportFrame(config: Config, w: Work, inst: nat, sys: int, id: int, k: Key)
    requires inst < |config.instances| && k in w.inflight && k != Key(inst, id - 1)
    ensures k in Report(config, w, inst, sys, id).0.inflight && Report(config, w, inst, sys, id).0.inflight[k] == w.inflight[k]
  {}

  lemma ReportKeepsWakes(setup: Setup, s: State, env: Env, inst: nat, sys: int, id: int)
    requires inst < |setup.config.instances| && Inv(setup, s)
    ensures var t := TakeReport(setup, s, env, inst, sys, id); Woken(t.work, t.jobs, t.exact, t.parked)
  {
    hide Waves, Report;
    var t := TakeReport(setup, s, env, inst, sys, id);
    if !Opens(s.work, inst, id) {
      forall j | s.jobs.Owes(j) ensures t.jobs.Owes(j) {}
      forall k | k in s.work.inflight && s.work.inflight[k].dispatched && s.work.inflight[k].ends == {}
        ensures k in t.work.inflight && t.work.inflight[k].dispatched && t.work.inflight[k].ends == {} {
        ReportFrame(setup.config, s.work, inst, sys, id, k);
      }
    }
  }

  lemma TakeReportKeeps(setup: Setup, s: State, env: Env, inst: nat, sys: int, id: int)
    requires inst < |setup.config.instances| && Inv(setup, s) && Faithful(s.work, inst, sys, id)
    ensures Inv(setup, TakeReport(setup, s, env, inst, sys, id))
  {
    ReportKeepsWaves(setup.config, s.work, inst, sys, id);
    ReportKeepsWakes(setup, s, env, inst, sys, id);
    hide Waves, Woken, Report;
  }

  // ---------------------------------------------------------------- dispatching

  /** Batch by batch, `v` continues `w`: nothing leaves, no report and no dispatch is forgotten, and unless
      one was picked up, each is with the endpoints it was with. */
  ghost predicate Continues(w: Work, v: Work, picked: bool) {
    forall k {:trigger k in v.inflight} {:trigger k in w.inflight} :: k in w.inflight ==>
      && k in v.inflight && v.inflight[k].ends == w.inflight[k].ends && (w.inflight[k].dispatched ==> v.inflight[k].dispatched)
      && (picked || v.inflight[k].fired == w.inflight[k].fired)
  }

  lemma AddContinues(config: Config, w: Work, inst: nat, shape: Shape, sys: int)
    requires Sound(config, w, {})
    ensures Continues(w, AddBatch(w, inst, shape, sys), false)
  {
    FreshId(config, w, inst);
    hide Sound;
  }

  lemma LaunchContinues(w: Work, k: Key)
    requires k in w.inflight
    ensures Continues(w, Launch(w, k), false)
  {}

  lemma PadContinues(config: Config, w: Work, g: nat, inst: nat)
    requires g < |config.groups|
    ensures Continues(w, Fire(config, w, g, inst), false)
  {
    forall k | k in w.inflight
      ensures k in Fire(config, w, g, inst).inflight && Fire(config, w, g, inst).inflight[k].ends == w.inflight[k].ends
           && (w.inflight[k].dispatched ==> Fire(config, w, g, inst).inflight[k].dispatched)
           && Fire(config, w, g, inst).inflight[k].fired == w.inflight[k].fired {
      PadWaveAt(config, w, g, k);
    }
    hide PadWave;
  }

  lemma JoinContinues(config: Config, w: Work, inst: nat, id: int, blocked: bool)
    requires inst in config.groupOf && config.groupOf[inst] < |config.groups|
    ensures Continues(w, Join(config, w, inst, id, blocked), false)
  {
    var g, entered := config.groupOf[inst], Enter(w, inst, id);
    PadContinues(config, entered, g, inst);
    var fired := Fire(config, entered, g, inst);
    if Key(inst, id) in fired.inflight { LaunchContinues(fired, Key(inst, id)); }
    hide Fire, Full, Launch;
  }

  lemma DispatchContinues(config: Config, w: Work, inst: nat, sys: int, id: int, choice: Choice)
    requires config.Valid() && inst < |config.instances| && Waves(config, w)
    ensures Continues(w, Dispatch(config, w, inst, sys, id, choice).0, choice.mayForm && sys != config.instances[inst].start)
  {
    var formed := if choice.mayForm then Form(config, w, inst, sys, id, choice.shape) else None;
    hide Waves, Join, AddBatch, Launch, Continues;
    SameContinues(w);
    if formed.Some? {
      if sys == config.instances[inst].start {
        AddedContinues(config, w, inst, choice.shape.value, sys, choice.fabricBlocked);
      } else {
        PickContinues(w, Key(inst, id), sys);
      }
    } else if inst in w.ready && !choice.engineBlocked {
      var k, v := Key(inst, w.ready[inst]), w.(ready := w.ready - {inst});
      ReadyContinues(w, inst);
      if k in v.inflight { LaunchContinues(v, k); ContinuesChain(w, v, Launch(v, k)); }
    } else if inst in config.groupOf {
      AddedContinues(config, w, inst, DummyShape, sys, choice.fabricBlocked);
    }
  }

  lemma AddedContinues(config: Config, w: Work, inst: nat, shape: Shape, sys: int, blocked: bool)
    requires config.Valid() && inst < |config.instances| && Waves(config, w)
    ensures var v, k := AddBatch(w, inst, shape, sys), Key(inst, w.NextId(inst));
      && Continues(w, Launch(v, k), false)
      && (inst in config.groupOf ==> Continues(w, Join(config, v, inst, k.id, blocked), false))
  {
    var v, k := AddBatch(w, inst, shape, sys), Key(inst, w.NextId(inst));
    AddContinues(config, w, inst, shape, sys);
    LaunchContinues(v, k);
    hide Waves, Join, AddBatch, Launch, Continues;
    ContinuesChain(w, v, Launch(v, k));
    if inst in config.groupOf {
      JoinContinues(config, v, inst, k.id, blocked);
      ContinuesChain(w, v, Join(config, v, inst, k.id, blocked));
    }
  }

  lemma ContinuesChain(w: Work, v: Work, u: Work)
    requires Continues(w, v, false) && Continues(v, u, false)
    ensures Continues(w, u, false)
  {}

  lemma SameContinues(w: Work)
    ensures forall picked :: Continues(w, w, picked)
  {}

  lemma ReadyContinues(w: Work, inst: nat)
    ensures Continues(w, w.(ready := w.ready - {inst}), false) && forall v :: Continues(w, v, false) ==> Continues(w, v, true)
  {}

  lemma PickContinues(w: Work, k: Key, sys: int)
    requires k in w.inflight
    ensures Continues(w, w.(inflight := w.inflight[k := w.inflight[k].(fired := w.inflight[k].fired + {sys})]), true)
  {}

  lemma DispatchedKeeps(setup: Setup, s: State, inst: nat, sys: int, id: int, choice: Choice)
    requires setup.config.Valid() && setup.config.SingleEndpointMembers() && inst < |setup.config.instances| && Inv(setup, s)
    ensures Inv(setup, s.(work := Dispatch(setup.config, s.work, inst, sys, id, choice).0))
  {
    DispatchKeeps(setup.config, s.work, inst, sys, id, choice);
    DispatchContinues(setup.config, s.work, inst, sys, id, choice);
    hide Waves, Dispatch;
  }

  /** A callback that was answered with a workload, or whose batch waits, leaves its instance busy: the
      loop's later tests for a finished or idle instance cannot hold. */
  lemma AnsweredIsBusy(config: Config, w: Work, inst: nat, sys: int, id: int, choice: Choice)
    requires config.Valid() && inst < |config.instances| && Waves(config, w)
    requires !Dispatch(config, w, inst, sys, id, choice).1.Nothing?
    ensures !Dispatch(config, w, inst, sys, id, choice).0.Idle(inst)
  {
    var v := Dispatch(config, w, inst, sys, id, choice).0;
    var formed := if choice.mayForm then Form(config, w, inst, sys, id, choice.shape) else None;
    var k := if formed.Some? then Key(inst, formed.value.1)
             else if inst in w.ready && !choice.engineBlocked then Key(inst, w.ready[inst]) else Key(inst, w.NextId(inst));
    assert k in v.inflight by {
      if formed.None? && !(inst in w.ready && !choice.engineBlocked) {
        JoinContinues(config, AddBatch(w, inst, DummyShape, sys), inst, k.id, choice.fabricBlocked);
      } else if formed.Some? && sys == config.instances[inst].start && inst in config.groupOf {
        JoinContinues(config, AddBatch(w, inst, choice.shape.value, sys), inst, k.id, choice.fabricBlocked);
      }
      hide Waves, Join;
    }
    assert k in v.Of(inst);
  }

  // ---------------------------------------------------------------- waiting and parking

  /** When nothing waits for a wave, a batch in flight is one the backend has. */
  lemma InflightMeansDispatched(config: Config, w: Work, k: Key)
    requires Waves(config, w) && w.pending == map[] && w.ready == map[] && k in w.inflight
    ensures w.inflight[k].dispatched
  {
    assert BatchOk(config, w, {}, k);
  }

  /** The two guards of the loop are enough: an endpoint group parks only when a wake is owed. */
  lemma ParkIsSafe(setup: Setup, s: State)
    requires Waves(setup.config, s.work) && AllIssued(s.jobs)
    requires s.work.pending == map[] && s.work.ready == map[] && !PartlyReported(s.work)
    requires DispatchedWork(setup, s.work) || s.jobs.HasPending() || s.exact.HasPending()
    ensures WakeOwed(s.work, s.jobs, s.exact)
  {
    if DispatchedWork(setup, s.work) {
      var k :| k in s.work.inflight && (!setup.manager || s.work.inflight[k].dispatched);
      InflightMeansDispatched(setup.config, s.work, k);
    } else if !s.exact.HasPending() {
      SomeJob(s.jobs.pending);
      var j :| j in s.jobs.pending;
      assert s.jobs.Owes(j);
    }
    hide Waves;
  }

  lemma SomeJob(jobs: map<int, Issue>)
    ensures jobs == map[] || exists j :: j in jobs
  {
    if !(exists j :: j in jobs) { assert jobs == map[]; }
  }

  lemma IdleKeeps(setup: Setup, s: State, env: Env, inst: nat, sys: int)
    requires inst < |setup.config.instances| && Inv(setup, s)
    ensures Inv(setup, Idle(setup, s, env, inst, sys))
  {
    hide Waves, Answer;
    if s.work.pending != map[] || s.work.ready != map[] {
      AnswerKeeps(setup, s, env, Pass);
    } else {
      var wakeup := DispatchedWork(setup, s.work) || s.jobs.HasPending() || s.exact.HasPending();
      var command := IdleCommand(setup, sys == setup.config.instances[inst].start, wakeup, PartlyReported(s.work));
      var parked := if command.Park? then s.(parked := s.parked + {inst}) else s;
      if command.Park? { ParkIsSafe(setup, s); }
      AnswerKeeps(setup, parked, env, command);
      if MayAdvance(s, env) {
        var target := env.nextIdle.value;
        if setup.backend.Analytical? {
          AnswerKeeps(setup, s.(clock := s.clock.(current := target, floor := target)), env, AdvanceTo(target));
        } else {
          var delta := PollDelta(s.clock, target, setup.backend.quantum);
          AnswerKeeps(setup, s.(clock := s.clock.(current := s.clock.current + delta, offset := s.clock.offset + delta)), env, command);
        }
      }
      hide WakeOwed, DispatchedWork, PartlyReported;
    }
  }

  lemma MarkDoneKeeps(setup: Setup, s: State, env: Env, inst: nat, sys: int)
    requires inst < |setup.config.instances| && Inv(setup, s)
    ensures Inv(setup, MarkDone(setup, s, env, inst, sys))
  {
    hide Waves, Woken, Answer;
    AnswerKeeps(setup, s.(shutdown := Asleep(setup, s.shutdown, inst, sys)), env, Done);
    hide Asleep;
  }

  lemma RestKeeps(setup: Setup, s: State, env: Env, inst: nat, sys: int)
    requires inst < |setup.config.instances| && Inv(setup, s)
    ensures Inv(setup, Rest(setup, s, env, inst, sys))
  {
    AnswerKeeps(setup, s, env, Pass);
    IdleKeeps(setup, s, env, inst, sys);
    MarkDoneKeeps(setup, s, env, inst, sys);
    hide Inv, Answer, Idle, MarkDone, MayBeDone, GroupEmpty;
  }

  lemma RespondKeeps(setup: Setup, s: State, env: Env, inst: nat, sys: int, id: int)
    requires setup.config.Valid() && setup.config.SingleEndpointMembers() && inst < |setup.config.instances| && Inv(setup, s)
    ensures Inv(setup, Respond(setup, s, env, inst, sys, id))
  {
    var choice := ChoiceNow(setup, s, env, inst);
    DispatchedKeeps(setup, s, inst, sys, id, choice);
    var (work, reply) := Dispatch(setup.config, s.work, inst, sys, id, choice);
    hide Inv, Dispatch, ChoiceNow, FlushBuckets, Answer, Rest;
    var t, first := s.(work := work), sys == setup.config.instances[inst].start;
    match reply {
      case Ran(k) =>
        AnswerKeeps(setup, t, env, Workload(k));
        FlushKeeps(setup, Answer(setup, t, env, Workload(k)), first);
      case Waits =>
        AnswerKeeps(setup, t, env, Pass);
        FlushKeeps(setup, Answer(setup, t, env, Pass), first);
      case Nothing =>
        FlushKeeps(setup, t, first);
        RestKeeps(setup, FlushBuckets(setup, t, first), env, inst, sys);
    }
  }

  // ---------------------------------------------------------------- the steps

  /** What the loop relies on the backend and the KV manager for: an endpoint reports only a batch the
      backend handed to it, and a completed transfer is consumed by the routing pass of its own callback. */
  predicate Contract(setup: Setup, s: State, event: Event, env: Env) {
    match event
    case ModelComplete(sys, id, _) => sys in setup.config.owner ==> Faithful(s.work, setup.config.owner[sys], sys, id)
    case TransferComplete(job, _) => job in env.routed.consumed
    case ControlEvent(_, _) => true
  }

  lemma LeaveKeeps(setup: Setup, s: State, early: bool)
    requires Inv(setup, s)
    ensures Inv(setup, Leave(s, early))
  {
    hide Waves, Woken;
  }

  lemma ContinueKeeps(setup: Setup, s: State, env: Env)
    requires Inv(setup, s)
    ensures Inv(setup, ContinueOrLeave(setup, s, env))
  {
    LeaveKeeps(setup, s, true);
    AnswerKeeps(setup, s, env, Continue);
    hide Inv, Answer, Leave, Drained;
  }

  lemma ModelCompleteKeeps(setup: Setup, s: State, env: Env, sys: int, id: int, cycle: int)
    requires setup.config.Valid() && setup.config.SingleEndpointMembers() && Inv(setup, s)
    requires sys in setup.config.owner && Faithful(s.work, setup.config.owner[sys], sys, id)
    ensures Inv(setup, OnModelComplete(setup, s, env, sys, id, cycle))
  {
    var clock, inst := Reported(setup, s.clock, cycle), setup.config.owner[sys];
    assert Inv(setup, Fail(s)) by { hide Waves, Woken; }
    if clock.Some? {
      var t := s.(clock := clock.value);
      assert Inv(setup, t) by { hide Waves, Woken; }
      hide Inv, Reported, TakeReport, Respond, RouteArrivals, Leave, Drained;
      TakeReportKeeps(setup, t, env, inst, sys, id);
      var a := TakeReport(setup, t, env, inst, sys, id);
      LeaveKeeps(setup, a, true);
      RouteKeeps(setup, a, env);
      RespondKeeps(setup, RouteArrivals(a, env), env, inst, sys, id);
    }
  }

  lemma ControlKeeps(setup: Setup, s: State, env: Env, eventId: EventId, time: int)
    requires setup.config.Valid() && Inv(setup, s)
    ensures Inv(setup, OnControl(setup, s, env, eventId, time))
  {
    CompletedKeepsValid(s.exact, eventId, time);
    assert Inv(setup, Fail(s)) by { hide Waves, Woken; }
    var clock, v := Absolute(s.clock, time), Completed(s.exact, eventId, time);
    if clock.Some? && v.Ok? {
      var a := s.(clock := clock.value, exact := v.value.0, parked := if v.value.1 then {} else s.parked);
      assert Inv(setup, a) by { hide Waves; }
      hide Inv, Completed, Absolute, ContinueOrLeave, RouteArrivals;
      RouteKeeps(setup, a, env);
      ContinueKeeps(setup, RouteArrivals(a, env), env);
    }
  }

  lemma TransferKeeps(setup: Setup, s: State, env: Env, job: int, callback: Callback)
    requires setup.config.Valid() && Inv(setup, s) && job in env.routed.consumed
    ensures Inv(setup, OnTransfer(setup, s, env, job, callback))
  {
    assert Inv(setup, Fail(s)) by { hide Waves, Woken; }
    var clock := Absolute(s.clock, callback.completion);
    var jobs := Called(s.jobs, job, callback, s.stop);
    if clock.Some? && jobs.Some? {
      var a := s.(clock := clock.value, parked := if job in s.jobs.answered then s.parked else {}, jobs := jobs.value);
      var t := RouteArrivals(a, env);
      assert Inv(setup, t) by {
        hide Waves;
        forall j | job in s.jobs.answered && s.jobs.Owes(j) ensures t.jobs.Owes(j) {}
      }
      hide Inv, Absolute, ContinueOrLeave, RouteArrivals;
      ContinueKeeps(setup, t, env);
    }
  }

  lemma StepKeeps(setup: Setup, s: State, event: Event, env: Env)
    requires setup.config.Valid() && setup.config.SingleEndpointMembers() && Inv(setup, s) && Contract(setup, s, event, env)
    ensures Inv(setup, Step(setup, s, event, env))
  {
    assert Inv(setup, Fail(s)) by { hide Waves, Woken; }
    hide Inv, OnModelComplete, OnControl, OnTransfer, Faithful;
    if s.status.Running? {
      match event {
        case ModelComplete(sys, id, cycle) =>
          if sys in setup.config.owner { ModelCompleteKeeps(setup, s, env, sys, id, cycle); }
          else { UnknownFails(setup, s, env, sys, id, cycle); }
        case ControlEvent(eventId, time) => ControlKeeps(setup, s, env, eventId, time);
        case TransferComplete(job, callback) => TransferKeeps(setup, s, env, job, callback);
      }
    }
  }

  lemma UnknownFails(setup: Setup, s: State, env: Env, sys: int, id: int, cycle: int)
    requires setup.config.Valid() && sys !in setup.config.owner
    ensures OnModelComplete(setup, s, env, sys, id, cycle) == Fail(s)
  {}
}
