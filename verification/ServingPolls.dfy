/** Evaluating single callbacks and short runs of the event loop without the HBF runtime. */
module ServingPolls {
  import opened Wrappers
  import opened Controls
  import opened DpWaves
  import opened WaveSafety
  import opened Serving
  import opened ServingSafety
  import opened ServingRuns

  /** The batch adds no tokens, and nothing older arrives. */
  predicate Plain(env: Env) { env.prompt == 0 && env.generated == 0 && env.older == Routing(map[], {}) }

  /** The state in which a plain report is answered, when it leaves the batches as in `w`. */
  function Recorded(setup: Setup, s: State, env: Env, inst: nat, id: int, cycle: int, w: Work, completed: bool): State
    requires Reported(setup, s.clock, cycle).Some?
  {
    var stop := s.stop || (completed && env.boundary);
    s.(clock := Reported(setup, s.clock, cycle).value, work := w, stop := stop,
       parked := if Opens(s.work, inst, id) then {} else s.parked,
       jobs := if stop then s.jobs else Routed(s.jobs, env.routed))
  }

  /** A plain report, given what it does to the batches and what the scheduler then does. */
  lemma PollStep(setup: Setup, s: State, env: Env, sys: int, id: int, cycle: int, w: Work, completed: bool, u: State, v: Work, reply: Reply)
    requires setup.config.Valid() && s.status.Running? && sys in setup.config.owner && Plain(env)
    requires Reported(setup, s.clock, cycle).Some?
    requires var inst := setup.config.owner[sys];
      && Report(setup.config, s.work, inst, sys, id) == (w, completed)
      && u == Recorded(setup, s, env, inst, id, cycle, w, completed) && !Drained(u)
      && Dispatch(setup.config, w, inst, sys, id, ChoiceNow(setup, u, env, inst)) == (v, reply)
      && u.clock.current as real <= s.meter.lastLog + setup.interval
    ensures var inst, t := setup.config.owner[sys], u.(work := v);
      Step(setup, s, ModelComplete(sys, id, cycle), env)
      == match reply
         case Ran(k) => Answer(setup, t, env, Workload(k))
         case Waits => Answer(setup, t, env, Pass)
         case Nothing => Rest(setup, t, env, inst, sys)
  {
    var inst, b := setup.config.owner[sys], s.(clock := Reported(setup, s.clock, cycle).value);
    PollRecords(setup, s, env, sys, id, cycle, w, completed, u);
    PollResponds(setup, u, env, inst, sys, id, v, reply);
    hide TakeReport, RouteArrivals, Respond, Answer, Rest, Reported, Dispatch, Report, Recorded;
    StopKeepsDrained(TakeReport(setup, b, env, inst, sys, id), env);
  }

  lemma StopKeepsDrained(a: State, env: Env)
    ensures Drained(a) ==> Drained(RouteArrivals(a, env))
  {}

  lemma PollRecords(setup: Setup, s: State, env: Env, sys: int, id: int, cycle: int, w: Work, completed: bool, u: State)
    requires setup.config.Valid() && sys in setup.config.owner && Plain(env) && Reported(setup, s.clock, cycle).Some?
    requires Report(setup.config, s.work, setup.config.owner[sys], sys, id) == (w, completed)
    requires u == Recorded(setup, s, env, setup.config.owner[sys], id, cycle, w, completed)
    ensures RouteArrivals(TakeReport(setup, s.(clock := Reported(setup, s.clock, cycle).value), env, setup.config.owner[sys], sys, id), env) == u
  {
    NothingRouted(s.jobs);
    hide Report, Reported, Routed;
  }

  lemma NothingRouted(jobs: Transfers)
    ensures Routed(jobs, Routing(map[], {})) == jobs
  {}

  lemma PollResponds(setup: Setup, u: State, env: Env, inst: nat, sys: int, id: int, v: Work, reply: Reply)
    requires setup.config.Valid() && inst < |setup.config.instances|
    requires Dispatch(setup.config, u.work, inst, sys, id, ChoiceNow(setup, u, env, inst)) == (v, reply)
    requires u.clock.current as real <= u.meter.lastLog + setup.interval
    ensures var t := u.(work := v);
      Respond(setup, u, env, inst, sys, id)
      == match reply
         case Ran(k) => Answer(setup, t, env, Workload(k))
         case Waits => Answer(setup, t, env, Pass)
         case Nothing => Rest(setup, t, env, inst, sys)
  {
    var t := u.(work := v);
    AnswerMeter(setup, t, env);
    hide Dispatch, ChoiceNow, Answer, Rest;
  }

  lemma AnswerMeter(setup: Setup, s: State, env: Env)
    ensures forall command :: Answer(setup, s, env, command).meter == s.meter && Answer(setup, s, env, command).clock == s.clock
  {}

  /** An instance that is not finished and finds nothing to run, with no wakeup to jump to, parks or waits. */
  lemma RestIdles(setup: Setup, s: State, env: Env, inst: nat, sys: int)
    requires inst < |setup.config.instances| && !env.routerIdle && env.nextIdle.None? && env.nextExact.None?
    requires s.work.pending == map[] && s.work.ready == map[]
    ensures var command := IdleCommand(setup, sys == setup.config.instances[inst].start,
                                       DispatchedWork(setup, s.work) || s.jobs.HasPending() || s.exact.HasPending(), PartlyReported(s.work));
      Rest(setup, s, env, inst, sys) == s.(parked := if command.Park? then s.parked + {inst} else s.parked, sent := s.sent + [command])
  {
    hide DispatchedWork, PartlyReported, Asleep, GroupEmpty;
  }

  /** Answers without a control to arm. */
  lemma PlainAnswer(setup: Setup, s: State, env: Env, command: Command)
    requires env.nextExact.None?
    ensures Answer(setup, s, env, command) == s.(sent := s.sent + [command])
  {}

  // ---------------------------------------------------------------- reports and dispatches

  /** A callback that names no batch in flight reports nothing. */
  lemma NoReport(config: Config, w: Work, inst: nat, sys: int, id: int)
    requires inst < |config.instances| && Key(inst, id - 1) !in w.inflight
    ensures Report(config, w, inst, sys, id) == (w, false)
  {}

  /** The report that completes a batch takes it out. */
  lemma LastReport(config: Config, w: Work, inst: nat, sys: int, id: int)
    requires inst < |config.instances| && Key(inst, id - 1) in w.inflight && sys !in w.inflight[Key(inst, id - 1)].ends
    requires config.instances[inst].Endpoints() <= w.inflight[Key(inst, id - 1)].ends + {sys}
    ensures Report(config, w, inst, sys, id) == (w.(inflight := w.inflight - {Key(inst, id - 1)}), true)
  {}

  /** Any other report of a batch is noted. */
  lemma PartReport(config: Config, w: Work, inst: nat, sys: int, id: int)
    requires inst < |config.instances| && Key(inst, id - 1) in w.inflight && sys !in w.inflight[Key(inst, id - 1)].ends
    requires !(config.instances[inst].Endpoints() <= w.inflight[Key(inst, id - 1)].ends + {sys})
    ensures var k := Key(inst, id - 1);
      Report(config, w, inst, sys, id) == (w.(inflight := w.inflight[k := w.inflight[k].(ends := w.inflight[k].ends + {sys})]), false)
  {}

  /** Nothing is ready, no wave is open, and the scheduler has nothing. */
  lemma NothingToRun(config: Config, w: Work, inst: nat, sys: int, id: int, choice: Choice)
    requires config.Valid() && inst < |config.instances| && inst !in w.ready && w.pending == map[]
    requires choice.mayForm ==> if sys == config.instances[inst].start then choice.shape.None? else Key(inst, id) !in w.inflight
    ensures Dispatch(config, w, inst, sys, id, choice) == (w, Nothing)
  {}

  /** The first endpoint of an instance outside all groups starts a batch. */
  lemma StartsBatch(config: Config, w: Work, inst: nat, id: int, choice: Choice)
    requires config.Valid() && inst < |config.instances| && inst !in config.groupOf && choice.mayForm && choice.shape.Some?
    requires w.Idle(inst) && config.instances[inst].stages > 0
    ensures var k, shape, sys := Key(inst, w.NextId(inst)), choice.shape.value, config.instances[inst].start;
      Dispatch(config, w, inst, sys, id, choice)
      == (w.(lastId := w.lastId[inst := k.id], starts := w.starts + [k],
             inflight := w.inflight[k := Batch(shape.totalLen, shape.kvLen, shape.numDecode, {}, {sys}, true)]), Ran(k))
  {
    var k, sys := Key(inst, w.NextId(inst)), config.instances[inst].start;
    var added := AddBatch(w, inst, choice.shape.value, sys);
    assert |w.Of(inst)| == 0;
    assert Launch(added, k).inflight == w.inflight[k := added.inflight[k].(dispatched := true)];
  }

  /** A later endpoint picks up a batch. */
  lemma PicksUp(config: Config, w: Work, inst: nat, sys: int, id: int, choice: Choice)
    requires config.Valid() && inst < |config.instances| && sys != config.instances[inst].start && choice.mayForm
    requires Key(inst, id) in w.inflight && sys !in w.inflight[Key(inst, id)].fired
    ensures var k := Key(inst, id);
      Dispatch(config, w, inst, sys, id, choice)
      == (w.(inflight := w.inflight[k := w.inflight[k].(fired := w.inflight[k].fired + {sys})]), Ran(k))
  {}

  /** A member whose group is not complete waits with its new batch. */
  lemma JoinsWave(config: Config, w: Work, inst: nat, id: int, choice: Choice)
    requires config.Valid() && inst < |config.instances| && inst in config.groupOf && choice.mayForm && choice.shape.Some?
    requires |w.Of(inst)| < config.instances[inst].stages
    requires !(config.Members(config.groupOf[inst]) <= w.pending.Keys + {inst})
    ensures var k, shape, sys := Key(inst, w.NextId(inst)), choice.shape.value, config.instances[inst].start;
      Dispatch(config, w, inst, sys, id, choice)
      == (w.(lastId := w.lastId[inst := k.id], pending := w.pending[inst := k.id],
             inflight := w.inflight[k := Batch(shape.totalLen, shape.kvLen, shape.numDecode, {}, {sys}, false)]), Waits)
  {
    var k, sys := Key(inst, w.NextId(inst)), config.instances[inst].start;
    var entered := Enter(AddBatch(w, inst, choice.shape.value, sys), inst, k.id);
    assert entered.pending.Keys == w.pending.Keys + {inst};
    FullMeansAll(config, entered, config.groupOf[inst]);
  }

  /** An instance outside all groups that may be done is put to sleep. */
  lemma RestFinishes(setup: Setup, s: State, env: Env, inst: nat, sys: int)
    requires inst < |setup.config.instances| && inst !in setup.config.groupOf && MayBeDone(setup, s, env, inst)
    ensures Rest(setup, s, env, inst, sys) == MarkDone(setup, s, env, inst, sys)
  {}

  // ---------------------------------------------------------------- runs

  lemma NothingRun(setup: Setup)
    requires setup.config.Valid()
    ensures Run(setup, Init(), []) == Init() && Obeys(setup, Init(), [])
  {}

  /** The first callback of a run. */
  lemma RunOne(setup: Setup, event: Event, env: Env)
    requires setup.config.Valid()
    ensures Run(setup, Init(), [(event, env)]) == Step(setup, Init(), event, env)
    ensures Contract(setup, Init(), event, env) ==> Obeys(setup, Init(), [(event, env)])
  {
    hide Step, Contract, Run, Obeys;
    NothingRun(setup);
    RunSnoc(setup, [], event, env, Init());
    assert [] + [(event, env)] == [(event, env)];
  }
}
