/** The two ways a run is left (serving/__main__.py, lines 1558-1569 and 2486-2529): the drain exit, when
  nothing is owed, and normal completion, when the last endpoint of the last instance has finished. Normal
  completion asks for batches only, so a control or a transfer may still be owed.
 */
module ServingExit {
  import opened Wrappers
  import opened Controls
  import opened DpWaves
  import opened WaveSafety
  import opened Serving
  import opened ServingSafety
  import opened ServingRuns
  import opened ServingBooks
  import opened ServingDrain

  /** Something was started and has not ended. */
  predicate Outstanding(s: State) {
    s.work.inflight != map[] || s.work.pending != map[] || s.work.ready != map[] || s.jobs.HasPending() || s.exact.HasPending()
  }

  /** In this state the poll of endpoint `sys` ends the run: the scheduler has nothing for it, its instance
      may be done, its group is empty, and it is the last endpoint of the last instance. */
  ghost predicate LastPoll(setup: Setup, u: State, env: Env, inst: nat, sys: int, id: int)
    requires setup.config.Valid() && inst < |setup.config.instances|
  {
    && Dispatch(setup.config, u.work, inst, sys, id, ChoiceNow(setup, u, env, inst)).1.Nothing?
    && MayBeDone(setup, u, env, inst) && GroupEmpty(setup, u, env, inst)
    && |Asleep(setup, u.shutdown, inst, sys).done| == |setup.config.instances|
  }

  /** The callback is a report whose poll ends the run. */
  ghost predicate Finishes(setup: Setup, s: State, event: Event, env: Env)
    requires setup.config.Valid()
  {
    && event.ModelComplete? && event.sys in setup.config.owner && Reported(setup, s.clock, event.cycle).Some?
    && LastPoll(setup, Polled(setup, s, env, event.sys, event.id, event.cycle), env, setup.config.owner[event.sys], event.sys, event.id)
  }

  function PolledAt(setup: Setup, s: State, event: Event, env: Env): State
    requires setup.config.Valid() && Finishes(setup, s, event, env)
  {
    Polled(setup, s, env, event.sys, event.id, event.cycle)
  }

  // ---------------------------------------------------------------- one poll

  lemma AnswerStays(setup: Setup, s: State, env: Env, command: Command)
    ensures !Answer(setup, s, env, command).status.Exited? || s.status.Exited?
  {}

  lemma IdleStays(setup: Setup, s: State, env: Env, inst: nat, sys: int)
    requires inst < |setup.config.instances| && s.status.Running?
    ensures !Idle(setup, s, env, inst, sys).status.Exited?
  {
    hide Answer, IdleCommand;
    forall u: State, command | u.status.Running? ensures !Answer(setup, u, env, command).status.Exited? { AnswerStays(setup, u, env, command); }
  }

  lemma RestExits(setup: Setup, s: State, env: Env, inst: nat, sys: int)
    requires inst < |setup.config.instances| && s.status.Running?
    ensures var t := Rest(setup, s, env, inst, sys);
      && (t.status.Exited? <==>
           MayBeDone(setup, s, env, inst) && GroupEmpty(setup, s, env, inst)
           && |Asleep(setup, s.shutdown, inst, sys).done| == |setup.config.instances|)
      && (t.status.Exited? ==> (t.work, t.jobs, t.exact) == (s.work, s.jobs, s.exact))
  {
    hide Answer, Idle, Asleep, MayBeDone, GroupEmpty;
    IdleStays(setup, s, env, inst, sys);
    AnswerStays(setup, s, env, Pass);
    AnswerStays(setup, s.(shutdown := Asleep(setup, s.shutdown, inst, sys)), env, Done);
  }

  lemma RespondExits(setup: Setup, s: State, env: Env, inst: nat, sys: int, id: int)
    requires setup.config.Valid() && inst < |setup.config.instances| && s.status.Running? && Waves(setup.config, s.work)
    ensures var t := Respond(setup, s, env, inst, sys, id);
      && (t.status.Exited? <==> LastPoll(setup, s, env, inst, sys, id))
      && (t.status.Exited? ==> (t.work, t.jobs, t.exact) == (s.work, s.jobs, s.exact))
  {
    hide Dispatch, ChoiceNow, Answer, Rest, FlushBuckets, Waves, Asleep, GroupEmpty;
    var (work, reply) := Dispatch(setup.config, s.work, inst, sys, id, ChoiceNow(setup, s, env, inst));
    var t, first := s.(work := work), sys == setup.config.instances[inst].start;
    match reply {
      case Ran(k) =>
        AnswerStays(setup, t, env, Workload(k));
        FlushFrame(setup, Answer(setup, t, env, Workload(k)), first);
      case Waits =>
        AnswerStays(setup, t, env, Pass);
        FlushFrame(setup, Answer(setup, t, env, Pass), first);
      case Nothing =>
        NothingChanges(setup.config, s.work, inst, sys, id, ChoiceNow(setup, s, env, inst));
        FlushFrame(setup, s, first);
        RestExits(setup, FlushBuckets(setup, s, first), env, inst, sys);
        GroupEmptyFrame(setup, s, FlushBuckets(setup, s, first), env, inst);
    }
  }

  lemma GroupEmptyFrame(setup: Setup, s: State, t: State, env: Env, inst: nat)
    requires s.work == t.work
    ensures GroupEmpty(setup, s, env, inst) == GroupEmpty(setup, t, env, inst)
  {}

  // ---------------------------------------------------------------- one callback

  lemma ModelCompleteExits(setup: Setup, s: State, env: Env, sys: int, id: int, cycle: int)
    requires setup.config.Valid() && setup.config.SingleEndpointMembers() && Inv(setup, s) && s.status.Running?
    requires sys in setup.config.owner && Faithful(s.work, setup.config.owner[sys], sys, id) && Reported(setup, s.clock, cycle).Some?
    ensures var t, u := OnModelComplete(setup, s, env, sys, id, cycle), Polled(setup, s, env, sys, id, cycle);
      && (t.status.Exited? ==> Drained(t) || LastPoll(setup, u, env, setup.config.owner[sys], sys, id))
      && (t.status.Exited? && Outstanding(t) <==> LastPoll(setup, u, env, setup.config.owner[sys], sys, id) && Outstanding(u))
      && (t.status.Exited? && Outstanding(t) ==> (t.work, t.jobs, t.exact) == (u.work, u.jobs, u.exact))
  {
    var inst, b := setup.config.owner[sys], s.(clock := Reported(setup, s.clock, cycle).value);
    assert Inv(setup, b) by { hide Waves, Woken; }
    TakeReportKeeps(setup, b, env, inst, sys, id);
    var a := TakeReport(setup, b, env, inst, sys, id);
    assert a.status.Running?;
    hide TakeReport, Reported, Respond, Faithful, Woken, Waves, LastPoll;
    FrozenSame(a, env);
    RouteKeeps(setup, a, env);
    assert RouteArrivals(a, env).status.Running?;
    hide RouteArrivals;
    RespondExits(setup, RouteArrivals(a, env), env, inst, sys, id);
  }

  lemma FrozenSame(a: State, env: Env)
    ensures a.stop ==> RouteArrivals(a, env) == a
    ensures Drained(a) ==> a.stop && !Outstanding(a)
  {}

  lemma ContinueExits(setup: Setup, s: State, env: Env)
    requires s.status.Running?
    ensures var t := ContinueOrLeave(setup, s, env); t.status.Exited? ==> Drained(t) && !Outstanding(t)
  {
    AnswerStays(setup, s, env, Continue);
    hide Answer;
  }

  /** Every exit is a drain exit with nothing owed, or the poll of the last endpoint of the last instance;
      and a callback leaves something behind exactly when it is such a poll and something is outstanding
      then. What is left behind is what was outstanding. */
  lemma ExitsOwing(setup: Setup, s: State, event: Event, env: Env)
    requires setup.config.Valid() && setup.config.SingleEndpointMembers() && Inv(setup, s) && Contract(setup, s, event, env)
    requires s.status.Running?
    ensures var t := Step(setup, s, event, env);
      && (t.status.Exited? ==> Drained(t) || Finishes(setup, s, event, env))
      && (t.status.Exited? && Outstanding(t) <==> Finishes(setup, s, event, env) && Outstanding(PolledAt(setup, s, event, env)))
      && (t.status.Exited? && Outstanding(t) ==>
           var u := PolledAt(setup, s, event, env); (t.work, t.jobs, t.exact) == (u.work, u.jobs, u.exact))
  {
    match event {
      case ModelComplete(sys, id, cycle) =>
        hide Outstanding, LastPoll, Drained, Inv, Polled, TakeReport, Respond, Faithful, Reported;
        if sys in setup.config.owner && Reported(setup, s.clock, cycle).Some? {
          ModelCompleteExits(setup, s, env, sys, id, cycle);
          hide OnModelComplete;
        }
      case ControlEvent(eventId, time) =>
        hide Outstanding, Drained, Inv, Completed, ContinueOrLeave;
        if Absolute(s.clock, time).Some? && Completed(s.exact, eventId, time).Ok? {
          var v := Completed(s.exact, eventId, time).value;
          var a := s.(clock := Absolute(s.clock, time).value, exact := v.0, parked := if v.1 then {} else s.parked);
          assert RouteArrivals(a, env).status.Running?;
          ContinueExits(setup, RouteArrivals(a, env), env);
        }
      case TransferComplete(job, callback) =>
        hide Outstanding, Drained, Inv, Called, ContinueOrLeave;
        if Absolute(s.clock, callback.completion).Some? && Called(s.jobs, job, callback, s.stop).Some? {
          var a := s.(clock := Absolute(s.clock, callback.completion).value, jobs := Called(s.jobs, job, callback, s.stop).value,
                      parked := if job in s.jobs.answered then s.parked else {});
          assert RouteArrivals(a, env).status.Running?;
          ContinueExits(setup, RouteArrivals(a, env), env);
        }
    }
  }

  // ---------------------------------------------------------------- no batch is left behind

  /** A finished instance reports no more: all its endpoints were told so and sleep. */
  predicate Awake(setup: Setup, s: State, event: Event) {
    event.ModelComplete? && event.sys in setup.config.owner ==> setup.config.owner[event.sys] !in s.shutdown.done
  }

  /** A finished instance has nothing in flight. */
  ghost predicate Resting(s: State) { forall i :: i in s.shutdown.done ==> s.work.Idle(i) }

  lemma ReportRests(config: Config, w: Work, inst: nat, sys: int, id: int, i: nat)
    requires inst < |config.instances| && w.Idle(i)
    ensures Report(config, w, inst, sys, id).0.Idle(i)
  {
    var v := Report(config, w, inst, sys, id).0;
    ReportTables(config, w, inst, sys, id);
    hide Report;
    forall k | k in v.Of(i) ensures k in w.Of(i) {}
  }

  /** Scheduling gives batches to the polling instance only. */
  lemma DispatchRests(config: Config, w: Work, inst: nat, sys: int, id: int, choice: Choice, i: nat)
    requires config.Valid() && inst < |config.instances| && w.Idle(i) && i != inst
    ensures Dispatch(config, w, inst, sys, id, choice).0.Idle(i)
  {
    var v := Dispatch(config, w, inst, sys, id, choice).0;
    forall k | k in v.inflight ensures k in w.inflight || k.inst == inst { DispatchAdds(config, w, inst, sys, id, choice, k); }
    hide Dispatch;
    forall k | k in v.Of(i) ensures k in w.Of(i) {}
  }

  lemma JoinAdds(config: Config, w: Work, inst: nat, id: int, blocked: bool)
    requires inst in config.groupOf && config.groupOf[inst] < |config.groups|
    ensures Join(config, w, inst, id, blocked).inflight.Keys == w.inflight.Keys
  {
    hide Longest, Padded;
  }

  lemma DispatchAdds(config: Config, w: Work, inst: nat, sys: int, id: int, choice: Choice, k: Key)
    requires config.Valid() && inst < |config.instances| && k in Dispatch(config, w, inst, sys, id, choice).0.inflight
    ensures k in w.inflight || k.inst == inst
  {
    var formed := if choice.mayForm then Form(config, w, inst, sys, id, choice.shape) else None;
    hide Join;
    if formed.Some? && sys == config.instances[inst].start {
      if inst in config.groupOf { JoinAdds(config, AddBatch(w, inst, choice.shape.value, sys), inst, w.NextId(inst), choice.fabricBlocked); }
    } else if formed.None? && inst in config.groupOf {
      JoinAdds(config, AddBatch(w, inst, DummyShape, sys), inst, w.NextId(inst), choice.fabricBlocked);
    }
  }

  /** Only a poll that finds its instance idle marks it as done. */
  lemma RestRests(setup: Setup, s: State, env: Env, inst: nat, sys: int)
    requires inst < |setup.config.instances| && Resting(s)
    ensures Resting(Rest(setup, s, env, inst, sys))
  {
    IdleFrame(setup, s, env, inst, sys);
    RestingFrame(s, Idle(setup, s, env, inst, sys));
    AnswerFrame(setup, s, env, Pass);
    RestingFrame(s, Answer(setup, s, env, Pass));
    if MayBeDone(setup, s, env, inst) { MarkDoneRests(setup, s, env, inst, sys); }
    hide Resting, Idle, MarkDone, MayBeDone, GroupEmpty, Answer;
  }

  lemma IdleFrame(setup: Setup, s: State, env: Env, inst: nat, sys: int)
    requires inst < |setup.config.instances|
    ensures var t := Idle(setup, s, env, inst, sys); (t.work, t.shutdown) == (s.work, s.shutdown)
  {
    hide DispatchedWork, PartlyReported, IdleCommand, MayAdvance, Armed;
  }

  lemma MarkDoneRests(setup: Setup, s: State, env: Env, inst: nat, sys: int)
    requires inst < |setup.config.instances| && Resting(s) && MayBeDone(setup, s, env, inst)
    ensures Resting(MarkDone(setup, s, env, inst, sys))
  {
    var t := s.(shutdown := Asleep(setup, s.shutdown, inst, sys));
    assert s.work.Idle(inst) && forall i :: i in t.shutdown.done ==> i in s.shutdown.done || i == inst;
    AnswerFrame(setup, t, env, Done);
    hide Answer, Asleep;
  }

  lemma RestingFrame(s: State, t: State)
    requires Resting(s) && (t.work, t.shutdown) == (s.work, s.shutdown)
    ensures Resting(t)
  {}

  lemma RespondRests(setup: Setup, s: State, env: Env, inst: nat, sys: int, id: int)
    requires setup.config.Valid() && inst < |setup.config.instances| && Resting(s) && inst !in s.shutdown.done
    ensures Resting(Respond(setup, s, env, inst, sys, id))
  {
    var choice := ChoiceNow(setup, s, env, inst);
    var (work, reply) := Dispatch(setup.config, s.work, inst, sys, id, choice);
    var t, first := s.(work := work), sys == setup.config.instances[inst].start;
    forall i | i in t.shutdown.done ensures t.work.Idle(i) { DispatchRests(setup.config, s.work, inst, sys, id, choice, i); }
    hide Dispatch, ChoiceNow, Answer, Rest, FlushBuckets, Resting;
    assert Resting(t) by { RestingHolds(t); }
    match reply {
      case Ran(k) =>
        AnswerFrame(setup, t, env, Workload(k));
        FlushFrame(setup, Answer(setup, t, env, Workload(k)), first);
        RestingFrame(t, FlushBuckets(setup, Answer(setup, t, env, Workload(k)), first));
      case Waits =>
        AnswerFrame(setup, t, env, Pass);
        FlushFrame(setup, Answer(setup, t, env, Pass), first);
        RestingFrame(t, FlushBuckets(setup, Answer(setup, t, env, Pass), first));
      case Nothing =>
        FlushFrame(setup, t, first);
        RestingFrame(t, FlushBuckets(setup, t, first));
        RestRests(setup, FlushBuckets(setup, t, first), env, inst, sys);
    }
  }

  lemma RestingHolds(s: State)
    requires forall i :: i in s.shutdown.done ==> s.work.Idle(i)
    ensures Resting(s)
  {}

  /** Recording a report and routing leave a finished instance idle. */
  lemma TakenRests(setup: Setup, s: State, env: Env, sys: int, id: int, cycle: int)
    requires setup.config.Valid() && sys in setup.config.owner && Reported(setup, s.clock, cycle).Some? && Resting(s)
    ensures var b, inst := s.(clock := Reported(setup, s.clock, cycle).value), setup.config.owner[sys];
      var a, u := TakeReport(setup, b, env, inst, sys, id), Polled(setup, s, env, sys, id, cycle);
      Resting(a) && Resting(u) && u.work == a.work && a.shutdown == u.shutdown == s.shutdown
  {
    var b, inst := s.(clock := Reported(setup, s.clock, cycle).value), setup.config.owner[sys];
    var a := TakeReport(setup, b, env, inst, sys, id);
    forall i | i in a.shutdown.done ensures a.work.Idle(i) { ReportRests(setup.config, s.work, inst, sys, id, i); }
    hide Report;
  }

  lemma StepRests(setup: Setup, s: State, event: Event, env: Env)
    requires setup.config.Valid() && Resting(s) && Awake(setup, s, event)
    ensures Resting(Step(setup, s, event, env))
  {
    match event {
      case ModelComplete(sys, id, cycle) =>
        RestingFrame(s, Fail(s));
        if sys in setup.config.owner && Reported(setup, s.clock, cycle).Some? {
          TakenRests(setup, s, env, sys, id, cycle);
          var inst, b := setup.config.owner[sys], s.(clock := Reported(setup, s.clock, cycle).value);
          var a := TakeReport(setup, b, env, inst, sys, id);
          hide TakeReport, RouteArrivals, Respond, Drained, Resting, Reported;
          RestingFrame(a, Leave(a, true));
          RespondRests(setup, RouteArrivals(a, env), env, inst, sys, id);
        }
      case ControlEvent(eventId, time) =>
        var t := Step(setup, s, event, env);
        ContinueFrame(setup, s, env);
        hide Drained, Answer, Completed, Resting;
        RestingFrame(s, t);
      case TransferComplete(job, callback) =>
        var t := Step(setup, s, event, env);
        ContinueFrame(setup, s, env);
        hide Drained, Answer, Called, Resting;
        RestingFrame(s, t);
    }
  }

  lemma ContinueFrame(setup: Setup, s: State, env: Env)
    ensures forall u: State {:trigger Answer(setup, u, env, Continue)} ::
      (Answer(setup, u, env, Continue).work, Answer(setup, u, env, Continue).shutdown) == (u.work, u.shutdown)
  {}

  /** When the last instance finishes, all are done, so none has a batch. */
  lemma LastPollIsEmpty(setup: Setup, u: State, env: Env, inst: nat, sys: int, id: int)
    requires setup.config.Valid() && inst < |setup.config.instances| && Waves(setup.config, u.work)
    requires Resting(u) && Ordered(setup, u.shutdown) && LastPoll(setup, u, env, inst, sys, id)
    ensures u.work.inflight == map[] && u.work.pending == map[] && u.work.ready == map[]
  {
    var d := Asleep(setup, u.shutdown, inst, sys);
    AsleepBooks(setup, u.shutdown, inst, sys);
    AllDone(setup, d);
    hide Staged, Dispatch, GroupEmpty, Prefills, ChoiceNow;
    forall i | 0 <= i < |setup.config.instances| ensures u.work.Idle(i) { assert i in d.done; }
    hide Asleep, Ordered, Resting;
    IdleMeansEmpty(setup.config, u.work);
  }

  lemma IdleMeansEmpty(config: Config, w: Work)
    requires Waves(config, w) && forall i :: 0 <= i < |config.instances| ==> w.Idle(i)
    ensures w.inflight == map[] && w.pending == map[] && w.ready == map[]
  {
    forall k ensures k !in w.inflight {
      assert k in w.inflight ==> BatchOk(config, w, {}, k);
      assert k in w.inflight ==> w.Idle(k.inst);
      assert k in w.inflight ==> k in w.Of(k.inst);
    }
    forall i ensures i !in w.pending && i !in w.ready {
      assert i in w.pending ==> EntryOk(config, w, Key(i, w.pending[i]));
      assert i in w.ready ==> EntryOk(config, w, Key(i, w.ready[i]));
    }
  }

  // ---------------------------------------------------------------- every run

  predicate Sleeps(setup: Setup, s: State, events: seq<(Event, Env)>)
    requires setup.config.Valid()
  {
    events == [] ||
    (var n := |events| - 1;
     Sleeps(setup, s, events[..n]) && Awake(setup, Run(setup, s, events[..n]), events[n].0))
  }

  lemma {:induction false} RunRests(setup: Setup, events: seq<(Event, Env)>)
    requires setup.config.Valid() && Sleeps(setup, Init(), events)
    ensures Resting(Run(setup, Init(), events))
  {
    if events != [] {
      var n := |events| - 1;
      RunRests(setup, events[..n]);
      StepRests(setup, Run(setup, Init(), events[..n]), events[n].0, events[n].1);
      hide Resting, Step, Awake;
    }
  }

  /** In every run, a callback after which the loop has left with something outstanding is exactly the poll of
      the last endpoint of the last instance with a control or a transfer pending at that moment; a batch
      is never left behind. */
  lemma ExitOwesNoBatch(setup: Setup, events: seq<(Event, Env)>, event: Event, env: Env)
    requires setup.config.Valid() && setup.config.SingleEndpointMembers()
    requires Obeys(setup, Init(), events) && Sleeps(setup, Init(), events)
    requires var s := Run(setup, Init(), events); s.status.Running? && Contract(setup, s, event, env) && Awake(setup, s, event)
    ensures var s := Run(setup, Init(), events); var t := Step(setup, s, event, env);
      && (t.status.Exited? ==> t.work.inflight == map[] && t.work.pending == map[] && t.work.ready == map[])
      && (t.status.Exited? && Outstanding(t) <==>
           Finishes(setup, s, event, env)
           && (PolledAt(setup, s, event, env).jobs.HasPending() || PolledAt(setup, s, event, env).exact.HasPending()))
  {
    var s := Run(setup, Init(), events);
    RunKeeps(setup, events);
    RunRests(setup, events);
    RunBooks(setup, events);
    ExitsOwing(setup, s, event, env);
    hide Run, Step, Obeys, Sleeps, Contract, Awake, Conserved, Ordered, InStep, Resting, LastPoll, Waves, Woken;
    if Finishes(setup, s, event, env) {
      PolledKeeps(setup, s, env, event.sys, event.id, event.cycle);
      LastPollIsEmpty(setup, PolledAt(setup, s, event, env), env, setup.config.owner[event.sys], event.sys, event.id);
    }
  }

  lemma PolledKeeps(setup: Setup, s: State, env: Env, sys: int, id: int, cycle: int)
    requires setup.config.Valid() && sys in setup.config.owner && Reported(setup, s.clock, cycle).Some?
    requires Inv(setup, s) && Resting(s) && Faithful(s.work, setup.config.owner[sys], sys, id)
    ensures var u := Polled(setup, s, env, sys, id, cycle);
      Waves(setup.config, u.work) && Resting(u) && u.shutdown == s.shutdown
  {
    TakenRests(setup, s, env, sys, id, cycle);
    ReportKeepsWaves(setup.config, s.work, setup.config.owner[sys], sys, id);
    hide Resting, Waves, Report;
  }
}
