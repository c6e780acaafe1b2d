/** Time, tokens and shutdown over the event loop: what holds of every run, whatever the backend reports. */
module ServingBooks {
  import opened Wrappers
  import opened Controls
  import opened DpWaves
  import opened Sets
  import opened Serving

  predicate InStep(setup: Setup, c: Clock) { setup.backend.Analytical? ==> c.current == c.floor && 0 <= c.floor }

  function Prompts(buckets: seq<(int, int)>): int {
    if buckets == [] then 0 else Prompts(buckets[..|buckets| - 1]) + buckets[|buckets| - 1].0
  }

  function Generated(buckets: seq<(int, int)>): int {
    if buckets == [] then 0 else Generated(buckets[..|buckets| - 1]) + buckets[|buckets| - 1].1
  }

  /** The flushed buckets and the open one add up to the totals. */
  ghost predicate Conserved(m: Meter) {
    Prompts(m.buckets) + m.promptOpen == m.totalPrompt && Generated(m.buckets) + m.genOpen == m.totalGen
  }

  function Decodes(config: Config): set<nat> {
    set i | 0 <= i < |config.instances| && config.instances[i].role == Decode
  }

  /** The prefill and decode lists cover every instance. */
  predicate Partitioned(config: Config) {
    forall i :: 0 <= i < |config.instances| ==> config.instances[i].role != Colocated
  }

  function Elements(done: seq<nat>): set<nat> { set i | i in done }

  /** An instance is done at most once. */
  ghost predicate Once(setup: Setup, d: Shutdown) {
    && (forall i, j :: 0 <= i < j < |d.done| ==> d.done[i] != d.done[j])
    && (forall i :: i in d.done ==> i < |setup.config.instances|)
  }

  /** A decode instance is done only after every prefill instance. */
  ghost predicate Staged(setup: Setup, d: Shutdown) {
    && (d.prefillDone ==> Prefills(setup.config) <= Elements(d.done))
    && (!d.prefillDone ==> forall i :: i in d.done ==> i !in Decodes(setup.config))
  }

  ghost predicate Ordered(setup: Setup, d: Shutdown) {
    Once(setup, d) && (Partitioned(setup.config) ==> Staged(setup, d))
  }

  ghost predicate Books(setup: Setup, s: State) {
    && InStep(setup, s.clock) && Conserved(s.meter) && Ordered(setup, s.shutdown)
    && (s.status.Exited? ==> s.earlyStopped || |s.shutdown.done| == |setup.config.instances|)
  }

  /** What one callback may do to time, the freeze, and the answers sent. */
  ghost predicate Moves(setup: Setup, s: State, t: State, answers: nat) {
    && (setup.backend.Analytical? && InStep(setup, s.clock) ==> t.clock.floor >= s.clock.floor)
    && (s.stop ==> t.stop)
    && |t.sent| == |s.sent| + answers && s.sent <= t.sent
  }

  // ---------------------------------------------------------------- the pieces

  lemma AnswerBooks(setup: Setup, s: State, env: Env, command: Command)
    ensures var t := Answer(setup, s, env, command);
      && (t.clock, t.meter, t.shutdown, t.stop) == (s.clock, s.meter, s.shutdown, s.stop)
      && t.sent == s.sent + [command]
      && (t.status == s.status || t.status.Failed?)
  {}

  lemma FlushBooks(setup: Setup, s: State, first: bool)
    requires Books(setup, s)
    ensures Books(setup, FlushBuckets(setup, s, first)) && Moves(setup, s, FlushBuckets(setup, s, first), 0)
  {
    var m := s.meter;
    assert (m.buckets + [(m.promptOpen, m.genOpen)])[..|m.buckets|] == m.buckets;
    hide Ordered;
  }

  lemma TakeReportBooks(setup: Setup, s: State, env: Env, inst: nat, sys: int, id: int)
    requires inst < |setup.config.instances| && Books(setup, s)
    ensures var t := TakeReport(setup, s, env, inst, sys, id); Books(setup, t) && Moves(setup, s, t, 0)
  {
    hide Ordered, Report;
  }

  lemma {:induction false} DistinctSize(done: seq<nat>)
    requires forall i, j :: 0 <= i < j < |done| ==> done[i] != done[j]
    ensures |Elements(done)| == |done|
  {
    if done != [] {
      var n := |done| - 1;
      DistinctSize(done[..n]);
      assert Elements(done) == Elements(done[..n]) + {done[n]};
    }
  }

  /** Until the prefill stage is over only prefill instances finish, so counting them decides it. */
  lemma AsleepBooks(setup: Setup, d: Shutdown, inst: nat, sys: int)
    requires inst < |setup.config.instances| && inst !in d.done
    requires setup.config.instances[inst].role != Decode || d.prefillDone
    requires Ordered(setup, d)
    ensures Ordered(setup, Asleep(setup, d, inst, sys))
  {
    var e := Asleep(setup, d, inst, sys);
    assert forall i :: i in e.done ==> i in d.done || i == inst;
    assert forall i :: i in d.done ==> i in e.done;
    if !d.prefillDone && Partitioned(setup.config) {
      forall i | i in e.done ensures i in Prefills(setup.config) && i !in Decodes(setup.config) {}
      assert Elements(e.done) <= Prefills(setup.config);
      DistinctSize(e.done);
      if |e.done| == |Prefills(setup.config)| { SubsetCardinality(Elements(e.done), Prefills(setup.config)); }
    }
  }

  lemma MarkDoneBooks(setup: Setup, s: State, env: Env, inst: nat, sys: int)
    requires inst < |setup.config.instances| && Books(setup, s) && s.status.Running? && MayBeDone(setup, s, env, inst)
    ensures var t := MarkDone(setup, s, env, inst, sys); Books(setup, t) && Moves(setup, s, t, 1)
  {
    AsleepBooks(setup, s.shutdown, inst, sys);
    AnswerBooks(setup, s.(shutdown := Asleep(setup, s.shutdown, inst, sys)), env, Done);
    hide Answer, Asleep, Ordered, Conserved;
  }

  lemma IdleBooks(setup: Setup, s: State, env: Env, inst: nat, sys: int)
    requires inst < |setup.config.instances| && Books(setup, s) && s.status.Running?
    ensures var t := Idle(setup, s, env, inst, sys); Books(setup, t) && Moves(setup, s, t, 1)
  {
    hide DispatchedWork, PartlyReported, IdleCommand, Ordered, Conserved, Armed;
    forall u: State, command | (u.clock, u.meter, u.shutdown, u.stop, u.sent, u.status) == (s.clock, s.meter, s.shutdown, s.stop, s.sent, s.status)
      ensures Books(setup, Answer(setup, u, env, command)) && Moves(setup, s, Answer(setup, u, env, command), 1) {
      AnswerBooks(setup, u, env, command);
    }
    hide Answer, Ordered, Conserved;
  }

  lemma RestBooks(setup: Setup, s: State, env: Env, inst: nat, sys: int)
    requires inst < |setup.config.instances| && Books(setup, s) && s.status.Running?
    ensures var t := Rest(setup, s, env, inst, sys); Books(setup, t) && Moves(setup, s, t, 1)
  {
    AnswerBooks(setup, s, env, Pass);
    IdleBooks(setup, s, env, inst, sys);
    if MayBeDone(setup, s, env, inst) { MarkDoneBooks(setup, s, env, inst, sys); }
    hide Ordered, Conserved, Answer, Idle, MarkDone, MayBeDone, GroupEmpty;
  }

  lemma RespondBooks(setup: Setup, s: State, env: Env, inst: nat, sys: int, id: int)
    requires setup.config.Valid() && inst < |setup.config.instances| && Books(setup, s) && s.status.Running?
    ensures var t := Respond(setup, s, env, inst, sys, id); Books(setup, t) && Moves(setup, s, t, 1)
  {
    var (work, reply) := Dispatch(setup.config, s.work, inst, sys, id, ChoiceNow(setup, s, env, inst));
    var t, first := s.(work := work), sys == setup.config.instances[inst].start;
    assert FlushBuckets(setup, t, first).status == t.status;
    hide Dispatch, ChoiceNow, Ordered, Conserved, FlushBuckets, Answer, Rest;
    match reply {
      case Ran(k) =>
        AnswerBooks(setup, t, env, Workload(k));
        FlushBooks(setup, Answer(setup, t, env, Workload(k)), first);
      case Waits =>
        AnswerBooks(setup, t, env, Pass);
        FlushBooks(setup, Answer(setup, t, env, Pass), first);
      case Nothing =>
        FlushBooks(setup, t, first);
        RestBooks(setup, FlushBuckets(setup, t, first), env, inst, sys);
    }
  }

  lemma ContinueBooks(setup: Setup, s: State, env: Env)
    requires Books(setup, s) && s.status.Running?
    ensures var t := ContinueOrLeave(setup, s, env); Books(setup, t) && Moves(setup, s, t, 1)
  {
    AnswerBooks(setup, s, env, Continue);
    hide Answer, Ordered, Conserved, Drained;
  }

  lemma ModelCompleteBooks(setup: Setup, s: State, env: Env, sys: int, id: int, cycle: int)
    requires setup.config.Valid() && Books(setup, s) && s.status.Running? && Reported(setup, s.clock, cycle).Some? && sys in setup.config.owner
    ensures var t := OnModelComplete(setup, s, env, sys, id, cycle); Books(setup, t) && Moves(setup, s, t, 1)
  {
    var inst, b := setup.config.owner[sys], s.(clock := Reported(setup, s.clock, cycle).value);
    assert Books(setup, b) by { hide Ordered, Conserved; }
    TakeReportBooks(setup, b, env, inst, sys, id);
    var a := TakeReport(setup, b, env, inst, sys, id);
    var c := RouteArrivals(a, env);
    assert (c.clock, c.meter, c.shutdown, c.stop, c.sent) == (a.clock, a.meter, a.shutdown, a.stop, a.sent);
    hide TakeReport, RouteArrivals, Drained, Respond, Ordered, Conserved;
    RespondBooks(setup, c, env, inst, sys, id);
  }

  lemma ControlBooks(setup: Setup, s: State, env: Env, eventId: EventId, time: int)
    requires setup.config.Valid() && Books(setup, s) && s.status.Running?
    ensures var t := OnControl(setup, s, env, eventId, time); t.status.Failed? || (Books(setup, t) && Moves(setup, s, t, 1))
  {
    var clock, v := Absolute(s.clock, time), Completed(s.exact, eventId, time);
    hide Completed, Ordered, Conserved;
    if clock.Some? && v.Ok? {
      var a := s.(clock := clock.value, exact := v.value.0, parked := if v.value.1 then {} else s.parked);
      ContinueBooks(setup, RouteArrivals(a, env), env);
      hide ContinueOrLeave;
    }
  }

  lemma TransferBooks(setup: Setup, s: State, env: Env, job: int, callback: Callback)
    requires setup.config.Valid() && Books(setup, s) && s.status.Running?
    ensures var t := OnTransfer(setup, s, env, job, callback); t.status.Failed? || (Books(setup, t) && Moves(setup, s, t, 1))
  {
    var clock := Absolute(s.clock, callback.completion);
    hide Ordered, Conserved;
    var jobs := Called(s.jobs, job, callback, s.stop);
    if clock.Some? && jobs.Some? {
      var a := s.(clock := clock.value, parked := if job in s.jobs.answered then s.parked else {}, jobs := jobs.value);
      ContinueBooks(setup, RouteArrivals(a, env), env);
      hide ContinueOrLeave;
    }
  }

  /** Every callback the loop accepts keeps the books and is answered exactly once. */
  lemma StepBooks(setup: Setup, s: State, event: Event, env: Env)
    requires setup.config.Valid() && Books(setup, s) && s.status.Running?
    ensures var t := Step(setup, s, event, env); t.status.Failed? || (Books(setup, t) && Moves(setup, s, t, 1))
  {
    match event {
      case ModelComplete(sys, id, cycle) =>
        if Reported(setup, s.clock, cycle).Some? && sys in setup.config.owner { ModelCompleteBooks(setup, s, env, sys, id, cycle); }
      case ControlEvent(eventId, time) => ControlBooks(setup, s, env, eventId, time);
      case TransferComplete(job, callback) => TransferBooks(setup, s, env, job, callback);
    }
    hide TakeReport, Respond, OnControl, OnTransfer, Books, Moves;
  }

  // ---------------------------------------------------------------- every run

  lemma {:induction false} RunBooks(setup: Setup, events: seq<(Event, Env)>)
    requires setup.config.Valid() && !Run(setup, Init(), events).status.Failed?
    ensures Books(setup, Run(setup, Init(), events))
  {
    if events != [] {
      var n := |events| - 1;
      RunBooks(setup, events[..n]);
      if Run(setup, Init(), events[..n]).status.Running? { StepBooks(setup, Run(setup, Init(), events[..n]), events[n].0, events[n].1); }
      hide Books, Step;
    }
  }

  /** Flushed buckets and the open bucket always add up to the totals. */
  lemma TokensAreConserved(setup: Setup, events: seq<(Event, Env)>)
    requires setup.config.Valid() && !Run(setup, Init(), events).status.Failed?
    ensures var m := Run(setup, Init(), events).meter;
      Prompts(m.buckets) + m.promptOpen == m.totalPrompt && Generated(m.buckets) + m.genOpen == m.totalGen
  {
    RunBooks(setup, events);
    hide Run, Prompts, Generated, Ordered;
  }

  /** A decode instance finishes only after every prefill instance. */
  lemma PrefillFinishesFirst(setup: Setup, events: seq<(Event, Env)>)
    requires setup.config.Valid() && Partitioned(setup.config) && !Run(setup, Init(), events).status.Failed?
    ensures var d := Run(setup, Init(), events).shutdown;
      forall i :: i in d.done && i in Decodes(setup.config) ==> forall p :: p in Prefills(setup.config) ==> p in d.done
  {
    RunBooks(setup, events);
    hide Run, Conserved, InStep;
  }

  /** A run that was not cut short leaves after each instance has finished exactly once. */
  lemma NormalExitIsComplete(setup: Setup, events: seq<(Event, Env)>)
    requires setup.config.Valid()
    requires Run(setup, Init(), events).status.Exited? && !Run(setup, Init(), events).earlyStopped
    ensures var d := Run(setup, Init(), events).shutdown;
      && (forall i :: 0 <= i < |setup.config.instances| ==> i in d.done)
      && (forall i, j :: 0 <= i < j < |d.done| ==> d.done[i] != d.done[j])
  {
    RunBooks(setup, events);
    AllDone(setup, Run(setup, Init(), events).shutdown);
    hide Run, Conserved, InStep, Staged;
  }

  lemma AllDone(setup: Setup, d: Shutdown)
    requires Once(setup, d) && |d.done| == |setup.config.instances|
    ensures forall i :: 0 <= i < |setup.config.instances| ==> i in d.done
  {
    DistinctSize(d.done);
    SubsetCardinality(Elements(d.done), Below(|setup.config.instances|));
    forall i | 0 <= i < |setup.config.instances| ensures i in d.done { assert i in Elements(d.done); }
  }

  function Below(n: nat): (r: set<nat>)
    ensures |r| == n && forall i: nat :: i in r <==> i < n
  {
    if n == 0 then {} else Below(n - 1) + {n - 1}
  }

  /** The loop answers every callback with exactly one endpoint command. */
  lemma {:induction false} AnsweredOnce(setup: Setup, events: seq<(Event, Env)>)
    requires setup.config.Valid() && !Run(setup, Init(), events).status.Failed?
    ensures |Run(setup, Init(), events).sent| <= |events|
    ensures Run(setup, Init(), events).status.Running? ==> |Run(setup, Init(), events).sent| == |events|
  {
    hide Step, Books;
    if events != [] {
      var m := |events| - 1;
      var mid := Run(setup, Init(), events[..m]);
      if !mid.status.Running? { StepAfterEnd(setup, mid, events[m].0, events[m].1); }
      AnsweredOnce(setup, events[..m]);
      if mid.status.Running? {
        RunBooks(setup, events[..m]);
        StepBooks(setup, mid, events[m].0, events[m].1);
      }
    }
  }

  /** On an analytical backend logical time never runs backwards, and a frozen source stays frozen. */
  lemma {:induction false} TimeMovesForward(setup: Setup, events: seq<(Event, Env)>, n: nat)
    requires setup.config.Valid() && n <= |events| && !Run(setup, Init(), events).status.Failed?
    ensures setup.backend.Analytical? ==> Run(setup, Init(), events[..n]).clock.floor <= Run(setup, Init(), events).clock.floor
    ensures Run(setup, Init(), events[..n]).stop ==> Run(setup, Init(), events).stop
    decreases |events|
  {
    hide Step, Conserved, Ordered;
    if n == |events| {
      assert events[..n] == events;
    } else {
      var m := |events| - 1;
      var mid := Run(setup, Init(), events[..m]);
      assert events[..m][..n] == events[..n];
      if !mid.status.Running? { StepAfterEnd(setup, mid, events[m].0, events[m].1); }
      TimeMovesForward(setup, events[..m], n);
      if mid.status.Running? {
        RunBooks(setup, events[..m]);
        StepBooks(setup, mid, events[m].0, events[m].1);
      }
    }
  }

  lemma StepAfterEnd(setup: Setup, s: State, event: Event, env: Env)
    requires setup.config.Valid() && !s.status.Running?
    ensures Step(setup, s, event, env) == s
  {}
}
