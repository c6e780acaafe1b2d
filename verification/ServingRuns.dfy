/** Runs of the event loop without the HBF runtime: the theorems about every reachable state. */
module ServingRuns {
  import opened Wrappers
  import opened Controls
  import opened DpWaves
  import opened WaveSafety
  import opened Serving
  import opened ServingSafety

  /** Every callback of the run keeps the contract in the state it finds. */
  predicate Obeys(setup: Setup, s: State, events: seq<(Event, Env)>)
    requires setup.config.Valid()
  {
    events == [] ||
    (var n := |events| - 1;
     Obeys(setup, s, events[..n]) && Contract(setup, Run(setup, s, events[..n]), events[n].0, events[n].1))
  }

  /** One more callback. */
  lemma RunSnoc(setup: Setup, events: seq<(Event, Env)>, event: Event, env: Env, s: State)
    requires setup.config.Valid() && Run(setup, Init(), events) == s
    ensures Run(setup, Init(), events + [(event, env)]) == Step(setup, s, event, env)
    ensures Obeys(setup, Init(), events) && Contract(setup, s, event, env) ==> Obeys(setup, Init(), events + [(event, env)])
  {
    hide Step, Contract;
    assert (events + [(event, env)])[..|events|] == events;
  }

  lemma {:induction false} RunKeeps(setup: Setup, events: seq<(Event, Env)>)
    requires setup.config.Valid() && setup.config.SingleEndpointMembers() && Obeys(setup, Init(), events)
    ensures Inv(setup, Run(setup, Init(), events))
  {
    if events == [] {
      InitKeeps(setup);
    } else {
      var n := |events| - 1;
      RunKeeps(setup, events[..n]);
      StepKeeps(setup, Run(setup, Init(), events[..n]), events[n].0, events[n].1);
      hide Inv, Step, Contract;
    }
  }

  lemma WaveEntry(config: Config, w: Work, i: nat)
    requires Waves(config, w) && (i in w.pending || i in w.ready)
    ensures var k := Key(i, if i in w.pending then w.pending[i] else w.ready[i]);
      && i in config.groupOf && w.Of(i) == {k} && k in w.inflight && !w.inflight[k].dispatched && k !in w.starts
  {
    var k := Key(i, if i in w.pending then w.pending[i] else w.ready[i]);
    assert EntryOk(config, w, k);
    assert BatchOk(config, w, {}, k);
    forall l | l in w.Of(i) ensures l == k { assert Rivals(config, l, k); }
    assert k in w.Of(i);
  }

  /** In every reachable state an instance waits in at most one table, with the one batch it has and the
      backend does not have yet; no wave is complete; and no graph was handed to the backend twice. */
  lemma WavesEverywhere(setup: Setup, events: seq<(Event, Env)>)
    requires setup.config.Valid() && setup.config.SingleEndpointMembers() && Obeys(setup, Init(), events)
    ensures var w := Run(setup, Init(), events).work;
      && (forall i :: i in w.pending ==> i !in w.ready && i in setup.config.groupOf && !Full(setup.config, w, setup.config.groupOf[i]))
      && (forall i :: i in w.pending || i in w.ready ==>
            var k := Key(i, if i in w.pending then w.pending[i] else w.ready[i]);
            w.Of(i) == {k} && k in w.inflight && !w.inflight[k].dispatched && k !in w.starts)
      && (forall i, j :: 0 <= i < j < |w.starts| ==> w.starts[i] != w.starts[j])
  {
    RunKeeps(setup, events);
    var w := Run(setup, Init(), events).work;
    hide Run;
    forall i | i in w.pending || i in w.ready
      ensures i in setup.config.groupOf
      ensures var k := Key(i, if i in w.pending then w.pending[i] else w.ready[i]);
            w.Of(i) == {k} && k in w.inflight && !w.inflight[k].dispatched && k !in w.starts {
      WaveEntry(setup.config, w, i);
    }
    forall i | i in w.pending ensures !Full(setup.config, w, setup.config.groupOf[i]) {
      FullMeansAll(setup.config, w, setup.config.groupOf[i]);
    }
    hide Full;
  }

  // ---------------------------------------------------------------- firings

  /** The batch with which this callback's instance joins its group's wave, if it does: the one the scheduler
      forms, or a dummy for an open wave. */
  function JoinShape(config: Config, w: Work, inst: nat, sys: int, id: int, choice: Choice): Option<Shape>
    requires config.Valid() && inst < |config.instances|
  {
    var formed := if choice.mayForm then Form(config, w, inst, sys, id, choice.shape) else None;
    if inst !in config.groupOf || sys != config.instances[inst].start then None
    else if formed.Some? then choice.shape
    else if choice.engineBlocked || inst in w.ready || !w.Idle(inst) || !w.WaveOpen(config, inst) then None
    else Some(DummyShape)
  }

  lemma DispatchFires(config: Config, w: Work, inst: nat, sys: int, id: int, choice: Choice)
    requires config.Valid() && config.SingleEndpointMembers() && inst < |config.instances| && Waves(config, w)
    requires JoinShape(config, w, inst, sys, id, choice).Some?
    requires config.Members(config.groupOf[inst]) <= w.pending.Keys + {inst}
    ensures FiredAs(config, AddBatch(w, inst, JoinShape(config, w, inst, sys, id, choice).value, sys), Key(inst, w.NextId(inst)),
                    choice.fabricBlocked, Dispatch(config, w, inst, sys, id, choice).0)
  {
    var shape, key := JoinShape(config, w, inst, sys, id, choice).value, Key(inst, w.NextId(inst));
    var added := AddBatch(w, inst, shape, sys);
    DispatchJoins(config, w, inst, sys, id, choice);
    assert added.pending == w.pending;
    hide Dispatch, Join, Sound, AddBatch, FiredAs, JoinShape;
    AddKeeps(config, w, inst, shape, sys);
    WaveFires(config, added, key, choice.fabricBlocked);
  }

  lemma DispatchJoins(config: Config, w: Work, inst: nat, sys: int, id: int, choice: Choice)
    requires config.Valid() && config.SingleEndpointMembers() && inst < |config.instances|
    requires JoinShape(config, w, inst, sys, id, choice).Some?
    ensures w.Idle(inst) && sys == config.instances[inst].start
    ensures Dispatch(config, w, inst, sys, id, choice).0
         == Join(config, AddBatch(w, inst, JoinShape(config, w, inst, sys, id, choice).value, sys), inst, w.NextId(inst), choice.fabricBlocked)
  {
    hide Join;
  }

  lemma AnswersKeepWork(setup: Setup, s: State, env: Env, inst: nat, sys: int, id: int)
    requires setup.config.Valid() && inst < |setup.config.instances|
    ensures Respond(setup, s, env, inst, sys, id).work == Dispatch(setup.config, s.work, inst, sys, id, ChoiceNow(setup, s, env, inst)).0
  {
    var (work, reply) := Dispatch(setup.config, s.work, inst, sys, id, ChoiceNow(setup, s, env, inst));
    var t, first := s.(work := work), sys == setup.config.instances[inst].start;
    hide Dispatch, ChoiceNow, Answer, FlushBuckets, Rest;
    match reply {
      case Ran(k) =>
        AnswerFrame(setup, t, env, Workload(k));
        FlushFrame(setup, Answer(setup, t, env, Workload(k)), first);
      case Waits =>
        AnswerFrame(setup, t, env, Pass);
        FlushFrame(setup, Answer(setup, t, env, Pass), first);
      case Nothing =>
        FlushFrame(setup, t, first);
        RestKeepsWork(setup, FlushBuckets(setup, t, first), env, inst, sys);
    }
  }

  lemma RestKeepsWork(setup: Setup, s: State, env: Env, inst: nat, sys: int)
    requires inst < |setup.config.instances|
    ensures Rest(setup, s, env, inst, sys).work == s.work
  {
    hide Armed, DispatchedWork, PartlyReported, GroupEmpty, MayBeDone, Asleep, IdleCommand;
  }

  /** Whenever, in any reachable state, the poll of a callback completes a wave, that wave fires whole. */
  lemma FiringsAreWhole(setup: Setup, events: seq<(Event, Env)>, sys: int, id: int, cycle: int, env: Env)
    requires setup.config.Valid() && setup.config.SingleEndpointMembers() && Obeys(setup, Init(), events)
    requires var s := Run(setup, Init(), events);
      && s.status.Running? && Contract(setup, s, ModelComplete(sys, id, cycle), env)
      && sys in setup.config.owner && Reported(setup, s.clock, cycle).Some?
    requires var u, inst := Polled(setup, Run(setup, Init(), events), env, sys, id, cycle), setup.config.owner[sys];
      && JoinShape(setup.config, u.work, inst, sys, id, ChoiceNow(setup, u, env, inst)).Some?
      && setup.config.Members(setup.config.groupOf[inst]) <= u.work.pending.Keys + {inst}
    ensures var s, inst := Run(setup, Init(), events), setup.config.owner[sys];
      var u := Polled(setup, s, env, sys, id, cycle);
      var choice := ChoiceNow(setup, u, env, inst);
      FiredAs(setup.config, AddBatch(u.work, inst, JoinShape(setup.config, u.work, inst, sys, id, choice).value, sys),
              Key(inst, u.work.NextId(inst)), choice.fabricBlocked, Step(setup, s, ModelComplete(sys, id, cycle), env).work)
  {
    var s, inst := Run(setup, Init(), events), setup.config.owner[sys];
    RunKeeps(setup, events);
    hide Run, Obeys, FiredAs;
    PolledAnswers(setup, s, env, sys, id, cycle);
    var u := Polled(setup, s, env, sys, id, cycle);
    hide Polled, Step, Waves, Woken, JoinShape, Dispatch, Reported, ChoiceNow;
    DispatchFires(setup.config, u.work, inst, sys, id, ChoiceNow(setup, u, env, inst));
  }

  /** A poll that joins a wave is answered: the run was not drained. */
  lemma PolledAnswers(setup: Setup, s: State, env: Env, sys: int, id: int, cycle: int)
    requires setup.config.Valid() && Inv(setup, s) && s.status.Running?
    requires sys in setup.config.owner && Reported(setup, s.clock, cycle).Some? && Faithful(s.work, setup.config.owner[sys], sys, id)
    ensures var u, inst := Polled(setup, s, env, sys, id, cycle), setup.config.owner[sys];
      && Waves(setup.config, u.work)
      && (JoinShape(setup.config, u.work, inst, sys, id, ChoiceNow(setup, u, env, inst)).Some? ==>
           Step(setup, s, ModelComplete(sys, id, cycle), env).work
           == Dispatch(setup.config, u.work, inst, sys, id, ChoiceNow(setup, u, env, inst)).0)
  {
    var inst, b := setup.config.owner[sys], s.(clock := Reported(setup, s.clock, cycle).value);
    var a, u := TakeReport(setup, b, env, inst, sys, id), Polled(setup, s, env, sys, id, cycle);
    ReportKeepsWaves(setup.config, s.work, inst, sys, id);
    assert u.work == a.work == Report(setup.config, s.work, inst, sys, id).0;
    assert u.stop == a.stop;
    AnswersKeepWork(setup, u, env, inst, sys, id);
    DrainedJoinsNothing(setup, u, env, inst, sys, id);
    hide TakeReport, Report, Reported, RouteArrivals, Respond, Dispatch, Waves, JoinShape, ChoiceNow;
  }

  lemma DrainedJoinsNothing(setup: Setup, u: State, env: Env, inst: nat, sys: int, id: int)
    requires setup.config.Valid() && inst < |setup.config.instances|
    ensures u.stop && u.work.pending == map[] ==>
      JoinShape(setup.config, u.work, inst, sys, id, ChoiceNow(setup, u, env, inst)).None?
  {
    hide Form;
  }

  /** A parked endpoint group always has a wake to come. */
  lemma NoLostWakeup(setup: Setup, events: seq<(Event, Env)>)
    requires setup.config.Valid() && setup.config.SingleEndpointMembers() && Obeys(setup, Init(), events)
    ensures var s := Run(setup, Init(), events); s.parked != {} ==> WakeOwed(s.work, s.jobs, s.exact)
  {
    RunKeeps(setup, events);
    hide Run, Waves;
  }
}
