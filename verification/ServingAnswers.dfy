/** Exactly how the event loop without the HBF runtime answers (serving/__main__.py, lines 2348-2683), and what it
  adds up. The conditions are about the fields of the state and what the environment answers.
 */
module ServingAnswers {
  import opened Wrappers
  import opened Controls
  import opened DpWaves
  import opened WaveSafety
  import opened Serving

  function LastCommand(s: State): Command
    requires s.sent != []
  {
    s.sent[|s.sent| - 1]
  }

  // ---------------------------------------------------------------- scheduling

  /** The scheduler is consulted while the source runs, and in a frozen run for a group whose wave is open and that
      this member has not joined; transfers and the fabric hold an instance back only with a KV manager. */
  lemma ConsultsExactly(setup: Setup, s: State, env: Env, inst: nat)
    ensures var c := ChoiceNow(setup, s, env, inst);
      && (c.mayForm <==>
            !s.stop || (inst in setup.config.groupOf && inst !in s.work.pending
                        && exists i :: i in s.work.pending && i in setup.config.groupOf
                                       && setup.config.groupOf[i] == setup.config.groupOf[inst]))
      && c.shape == env.choice.shape
      && (c.engineBlocked <==> setup.manager && env.choice.engineBlocked) && (c.fabricBlocked <==> setup.manager && env.choice.fabricBlocked)
  {
    if inst in setup.config.groupOf { OpenSame(setup.config, s.work, setup.config.groupOf[inst]); }
  }

  lemma OpenSame(config: Config, w: Work, g: nat)
    ensures w.Waiting(config, g) != {} <==> exists i :: i in w.pending && i in config.groupOf && config.groupOf[i] == g
  {
    if i :| i in w.pending && i in config.groupOf && config.groupOf[i] == g { assert i in w.Waiting(config, g); }
  }

  /** The batch that the scheduler forms for a first endpoint. */
  function NewBatch(shape: Shape, sys: int, dispatched: bool): Batch {
    Batch(shape.totalLen, shape.kvLen, shape.numDecode, {}, {sys}, dispatched)
  }

  predicate FormsBatch(config: Config, w: Work, inst: nat, sys: int, id: int, choice: Choice)
    requires inst < |config.instances|
  {
    && choice.mayForm
    && if sys == config.instances[inst].start then
         choice.shape.Some? && |set k | k in w.inflight && k.inst == inst| < config.instances[inst].stages
       else Key(inst, id) in w.inflight && sys !in w.inflight[Key(inst, id)].fired
  }

  /** A member of an open wave whose own queue is empty fills its place. */
  predicate FillsWave(config: Config, w: Work, inst: nat, sys: int, choice: Choice)
    requires inst < |config.instances|
  {
    && inst in config.groupOf && !choice.engineBlocked && sys == config.instances[inst].start
    && (forall k :: k in w.inflight ==> k.inst != inst)
    && exists i :: i in w.pending && i in config.groupOf && config.groupOf[i] == config.groupOf[inst]
  }

  /** A member joins its wave with a new batch: it waits until every other member has one, and then runs unless
      the fabric holds it. */
  ghost predicate JoinsExactly(config: Config, w: Work, inst: nat, sys: int, shape: Shape, blocked: bool, v: Work, reply: Reply)
    requires inst in config.groupOf
  {
    var next := if inst in w.lastId then w.lastId[inst] + 1 else 0;
    var complete := forall i :: i in config.groupOf && config.groupOf[i] == config.groupOf[inst] && i != inst ==> i in w.pending;
    if !complete then
      && reply == Waits
      && v == w.(lastId := w.lastId[inst := next], pending := w.pending[inst := next],
                 inflight := w.inflight[Key(inst, next) := NewBatch(shape, sys, false)])
    else
      && reply == (if blocked then Waits else Ran(Key(inst, next)))
      && v.lastId == w.lastId[inst := next]
      && (forall i :: i in v.pending <==> i in w.pending && !(i in config.groupOf && config.groupOf[i] == config.groupOf[inst]) && i != inst)
      && (if blocked then v.starts == w.starts && inst in v.ready && v.ready[inst] == next else v.starts == w.starts + [Key(inst, next)])
  }

  /** What scheduling does at a poll: run a new batch, hand over a batch that is ready, fill an open wave with a
      one-token decode, or nothing. Each happens exactly under its condition. */
  lemma SchedulesExactly(config: Config, w: Work, inst: nat, sys: int, id: int, choice: Choice)
    requires config.Valid() && inst < |config.instances|
    ensures var (v, reply) := Dispatch(config, w, inst, sys, id, choice);
      var first, next := sys == config.instances[inst].start, if inst in w.lastId then w.lastId[inst] + 1 else 0;
      if FormsBatch(config, w, inst, sys, id, choice) then
        if !first then
          var k := Key(inst, id);
          reply == Ran(k) && v == w.(inflight := w.inflight[k := w.inflight[k].(fired := w.inflight[k].fired + {sys})])
        else if inst !in config.groupOf then
          && reply == Ran(Key(inst, next))
          && v == w.(lastId := w.lastId[inst := next], starts := w.starts + [Key(inst, next)],
                     inflight := w.inflight[Key(inst, next) := NewBatch(choice.shape.value, sys, true)])
        else JoinsExactly(config, w, inst, sys, choice.shape.value, choice.fabricBlocked, v, reply)
      else if inst in w.ready && !choice.engineBlocked then
        var k := Key(inst, w.ready[inst]);
        if k !in w.inflight then reply == Nothing && v == w.(ready := w.ready - {inst})
        else
          && reply == Ran(k)
          && v == w.(ready := w.ready - {inst}, starts := w.starts + [k], inflight := w.inflight[k := w.inflight[k].(dispatched := true)])
      else if FillsWave(config, w, inst, sys, choice) then
        JoinsExactly(config, w, inst, sys, Shape(1, 1, 1), choice.fabricBlocked, v, reply)
      else reply == Nothing && v == w
  {
    hide JoinsExactly, Join, Full, Work.Idle, Work.WaveOpen, Work.Waiting, FillsWave;
    assert w.Of(inst) == set k | k in w.inflight && k.inst == inst;
    FillsSame(config, w, inst, sys, choice);
    if inst in config.groupOf {
      if sys == config.instances[inst].start && choice.shape.Some? { JoinedExactly(config, w, inst, sys, choice.shape.value, choice.fabricBlocked); }
      JoinedExactly(config, w, inst, sys, DummyShape, choice.fabricBlocked);
    } else if sys == config.instances[inst].start && choice.shape.Some? {
      LaunchNew(w, inst, choice.shape.value, sys);
    }
  }

  lemma LaunchNew(w: Work, inst: nat, shape: Shape, sys: int)
    ensures var next := if inst in w.lastId then w.lastId[inst] + 1 else 0;
      Launch(AddBatch(w, inst, shape, sys), Key(inst, next))
      == w.(lastId := w.lastId[inst := next], starts := w.starts + [Key(inst, next)],
            inflight := w.inflight[Key(inst, next) := NewBatch(shape, sys, true)])
  {
    var k := Key(inst, w.NextId(inst));
    assert w.inflight[k := NewBatch(shape, sys, false)][k := NewBatch(shape, sys, true)] == w.inflight[k := NewBatch(shape, sys, true)];
  }

  lemma FillsSame(config: Config, w: Work, inst: nat, sys: int, choice: Choice)
    requires inst < |config.instances|
    ensures FillsWave(config, w, inst, sys, choice) <==>
      inst in config.groupOf && !choice.engineBlocked && sys == config.instances[inst].start && w.Idle(inst) && w.WaveOpen(config, inst)
  {
    IdleSame(w, inst);
    if inst in config.groupOf { OpenSame(config, w, config.groupOf[inst]); }
    hide Work.Idle, Work.Waiting;
  }

  lemma JoinedExactly(config: Config, w: Work, inst: nat, sys: int, shape: Shape, blocked: bool)
    requires config.Valid() && inst in config.groupOf
    ensures var (v, reply) := Joined(config, AddBatch(w, inst, shape, sys), inst, w.NextId(inst), blocked);
      JoinsExactly(config, w, inst, sys, shape, blocked, v, reply)
  {
    hide PadWave, Full, Work.Waiting, Config.Members, RunOrHold, Fire;
    var g, next, added := config.groupOf[inst], w.NextId(inst), AddBatch(w, inst, shape, sys);
    var entered := Enter(added, inst, next);
    FullMeansAll(config, entered, g);
    MembersWait(config, w, entered, inst);
    FiredTables(config, entered, inst, next, blocked);
  }

  /** The member that completes a wave leaves none of it waiting, and runs unless it is held. */
  lemma FiredTables(config: Config, w: Work, inst: nat, id: int, blocked: bool)
    requires inst in config.groupOf && config.groupOf[inst] < |config.groups| && Key(inst, id) in w.inflight && inst in w.pending
    ensures var g := config.groupOf[inst];
      var v := RunOrHold(Fire(config, w, g, inst), Key(inst, id), blocked);
      && v.lastId == w.lastId
      && (forall i :: i in v.pending <==> i in w.pending && !(i in config.groupOf && config.groupOf[i] == g))
      && (if blocked then v.starts == w.starts && inst in v.ready && v.ready[inst] == id else v.starts == w.starts + [Key(inst, id)])
  {
    hide PadWave;
    PadWaveKeys(config, w, config.groupOf[inst]);
  }

  lemma PadWaveKeys(config: Config, w: Work, g: nat)
    requires g < |config.groups|
    ensures PadWave(config, w, g).Keys == w.inflight.Keys
  {
    hide Longest, Padded;
  }

  lemma MembersWait(config: Config, w: Work, entered: Work, inst: nat)
    requires inst in config.groupOf && entered.pending.Keys == w.pending.Keys + {inst}
    ensures config.Members(config.groupOf[inst]) <= entered.pending.Keys
      <==> forall i :: i in config.groupOf && config.groupOf[i] == config.groupOf[inst] && i != inst ==> i in w.pending
  {
    var g := config.groupOf[inst];
    forall i ensures i in config.Members(g) <==> i in config.groupOf && config.groupOf[i] == g {}
    if config.Members(g) <= entered.pending.Keys {
      forall i | i in config.groupOf && config.groupOf[i] == g && i != inst ensures i in w.pending { assert i in config.Members(g); }
    }
  }

  // ---------------------------------------------------------------- any answer

  predicate NothingOwed(s: State) { s.work.inflight == map[] && s.jobs.pending == map[] && s.exact.pendingById == map[] }

  /** An answer other than an exit or an advance arms a known later wakeup, while the source runs and the backend
      has something else to do. */
  lemma AnswerArms(setup: Setup, s: State, env: Env, command: Command)
    requires s.status.Running? && s.clock.current >= 0
    ensures var t := Answer(setup, s, env, command);
      && t.sent == s.sent + [command]
      && (t.work, t.jobs, t.clock, t.meter, t.shutdown, t.stop, t.parked, t.earlyStopped)
         == (s.work, s.jobs, s.clock, s.meter, s.shutdown, s.stop, s.parked, s.earlyStopped)
      && (if setup.external && !command.Exit? && !command.AdvanceTo? && !s.stop && !NothingOwed(s) && env.nextExact.Some?
          then env.nextExact.value > s.clock.current ==> t.status.Running? && env.nextExact.value in t.exact.pendingByTime
          else t.exact == s.exact && t.status.Running?)
  {
    hide Armed;
    if env.nextExact.Some? && env.nextExact.value > s.clock.current { ArmedLater(s.exact, env.nextExact.value, s.clock.current); }
  }

  lemma ArmedLater(s: Schedule, time: int, now: int)
    requires 0 <= now < time
    ensures Armed(s, time, now).Ok? && time in Armed(s, time, now).value.0.pendingByTime
  {}

  lemma AnswerSends(setup: Setup, s: State, env: Env, command: Command)
    ensures var t := Answer(setup, s, env, command);
      && t.sent == s.sent + [command] && (t.status == s.status || t.status.Failed?)
      && (t.work, t.jobs, t.clock, t.meter, t.shutdown, t.stop, t.parked, t.earlyStopped)
         == (s.work, s.jobs, s.clock, s.meter, s.shutdown, s.stop, s.parked, s.earlyStopped)
  {
    hide Armed;
  }

  // ---------------------------------------------------------------- nothing to run

  /** The instance has nothing left to do: decode waits for the end of prefill. */
  predicate IsOver(setup: Setup, s: State, env: Env, inst: nat)
    requires inst < |setup.config.instances|
  {
    && (setup.config.instances[inst].role.Decode? ==> s.shutdown.prefillDone) && inst !in s.shutdown.done
    && inst in env.emptyQueues && env.routerIdle && forall k :: k in s.work.inflight ==> k.inst != inst
  }

  /** No member of the instance's group has anything left either. */
  predicate PeersAreOver(setup: Setup, s: State, env: Env, inst: nat) {
    inst in setup.config.groupOf ==>
      forall j :: j in setup.config.groupOf && setup.config.groupOf[j] == setup.config.groupOf[inst] ==>
        j in env.emptyQueues && forall k :: k in s.work.inflight ==> k.inst != j
  }

  /** A later source of work is known, and nothing else is to come before it. */
  predicate CanJump(s: State, env: Env) {
    env.nextIdle.Some? && env.nextIdle.value > s.clock.current && NothingOwed(s)
  }

  /** The backend has something that will wake a parked group, and no report of a batch is still to come in the
      present completion generation. Without a manager a batch counts before it is handed over. */
  predicate WillBeWoken(setup: Setup, s: State) {
    && ((exists k :: k in s.work.inflight && (setup.manager ==> s.work.inflight[k].dispatched))
        || s.jobs.pending != map[] || s.exact.pendingById != map[])
    && forall k :: k in s.work.inflight ==> s.work.inflight[k].ends == {}
  }

  /** How a poll that finds nothing to run is answered. */
  predicate RestsExactly(setup: Setup, s: State, env: Env, inst: nat, sys: int, t: State)
    requires inst < |setup.config.instances| && t.sent != []
  {
    var last, analytical := LastCommand(t), setup.backend.Analytical?;
    && t.sent == s.sent + [last]
    && if IsOver(setup, s, env, inst) then
         if PeersAreOver(setup, s, env, inst) then SleepsExactly(setup, s, inst, sys, t) else last == Pass && t.clock == s.clock
       else if s.work.pending != map[] || s.work.ready != map[] then last == Pass && t.clock == s.clock
       else if CanJump(s, env) then
         if analytical then last == AdvanceTo(env.nextIdle.value) && t.clock == s.clock.(current := env.nextIdle.value, floor := env.nextIdle.value)
         else
           && last == Pass && t.clock.current == env.nextIdle.value - setup.backend.quantum && t.clock.floor == s.clock.floor
           && t.clock.offset - s.clock.offset == t.clock.current - s.clock.current
       else
         && last == (if analytical && sys == setup.config.instances[inst].start && WillBeWoken(setup, s) then Park else Pass)
         && t.clock == s.clock
  }

  /** One endpoint goes to sleep; both of them finish the instance, and the last instance ends the run. The decode
      stage is released when as many instances are finished as there are prefill instances. */
  predicate SleepsExactly(setup: Setup, s: State, inst: nat, sys: int, t: State)
    requires inst < |setup.config.instances| && t.sent != []
  {
    var asleep := (if inst in s.shutdown.doneNpus then s.shutdown.doneNpus[inst] else {}) + {sys};
    var done := s.shutdown.done + if |asleep| == (if setup.config.instances[inst].npus == 1 then 1 else 2) then [inst] else [];
    && t.shutdown.doneNpus == s.shutdown.doneNpus[inst := asleep] && t.shutdown.done == done && t.clock == s.clock
    && (t.shutdown.prefillDone <==>
          s.shutdown.prefillDone || |done| == |set i | 0 <= i < |setup.config.instances| && setup.config.instances[i].role.Prefill?|)
    && (if |done| == |setup.config.instances| then LastCommand(t) == Exit && t.status.Exited? else LastCommand(t) == Done && !t.status.Exited?)
  }

  lemma MarkDoneSleeps(setup: Setup, s: State, env: Env, inst: nat, sys: int)
    requires inst < |setup.config.instances| && s.status.Running?
    ensures var t := MarkDone(setup, s, env, inst, sys); t.sent == s.sent + [t.sent[|t.sent| - 1]] && SleepsExactly(setup, s, inst, sys, t)
  {
    hide Answer, Asleep;
    AsleepIs(setup, s.shutdown, inst, sys);
    AnswerSends(setup, s.(shutdown := Asleep(setup, s.shutdown, inst, sys)), env, Done);
  }

  lemma AsleepIs(setup: Setup, d: Shutdown, inst: nat, sys: int)
    requires inst < |setup.config.instances|
    ensures var t, asleep := Asleep(setup, d, inst, sys), (if inst in d.doneNpus then d.doneNpus[inst] else {}) + {sys};
      && t.doneNpus == d.doneNpus[inst := asleep]
      && t.done == d.done + (if |asleep| == (if setup.config.instances[inst].npus == 1 then 1 else 2) then [inst] else [])
      && (t.prefillDone <==>
            d.prefillDone || |t.done| == |set i | 0 <= i < |setup.config.instances| && setup.config.instances[i].role.Prefill?|)
  {
    assert {} + {sys} == {sys} && d.done + [] == d.done;
    assert Prefills(setup.config) == set i | 0 <= i < |setup.config.instances| && setup.config.instances[i].role.Prefill?;
  }

  lemma IdleSame(w: Work, inst: nat)
    ensures w.Idle(inst) <==> forall k :: k in w.inflight ==> k.inst != inst
  {
    assert forall k :: k in w.Of(inst) <==> k in w.inflight && k.inst == inst;
    if w.Idle(inst) {
      forall k | k in w.inflight ensures k.inst != inst { assert k in w.Of(inst) <==> k.inst == inst; }
    }
  }

  lemma OverSame(setup: Setup, s: State, env: Env, inst: nat)
    requires inst < |setup.config.instances|
    ensures MayBeDone(setup, s, env, inst) <==> IsOver(setup, s, env, inst)
    ensures GroupEmpty(setup, s, env, inst) <==> PeersAreOver(setup, s, env, inst)
  {
    forall j: nat ensures s.work.Idle(j) <==> forall k :: k in s.work.inflight ==> k.inst != j { IdleSame(s.work, j); }
    hide Work.Idle;
  }

  lemma ParkSame(setup: Setup, s: State, first: bool)
    ensures IdleCommand(setup, first, DispatchedWork(setup, s.work) || s.jobs.HasPending() || s.exact.HasPending(), PartlyReported(s.work))
         == if setup.backend.Analytical? && first && WillBeWoken(setup, s) then Park else Pass
  {}

  lemma IdleRests(setup: Setup, s: State, env: Env, inst: nat, sys: int)
    requires inst < |setup.config.instances| && !IsOver(setup, s, env, inst)
    ensures var t := Idle(setup, s, env, inst, sys); t.sent != [] && RestsExactly(setup, s, env, inst, sys, t)
  {
    hide Answer, IsOver, PeersAreOver, WillBeWoken, DispatchedWork, PartlyReported, IdleCommand, SleepsExactly;
    ParkSame(setup, s, sys == setup.config.instances[inst].start);
    forall u, command {:trigger Answer(setup, u, env, command)}
      ensures Answer(setup, u, env, command).sent == u.sent + [command] && Answer(setup, u, env, command).clock == u.clock {
      AnswerSends(setup, u, env, command);
    }
  }

  /** A poll that finds nothing to run: sleep, wait, jump to the next known source of work, park or pass. Each
      happens exactly under its condition. */
  lemma RestAnswers(setup: Setup, s: State, env: Env, inst: nat, sys: int)
    requires inst < |setup.config.instances| && s.status.Running?
    ensures var t := Rest(setup, s, env, inst, sys); t.sent != [] && RestsExactly(setup, s, env, inst, sys, t)
  {
    hide Answer, Idle, MarkDone, MayBeDone, GroupEmpty, IsOver, PeersAreOver, CanJump, SleepsExactly, WillBeWoken;
    OverSame(setup, s, env, inst);
    AnswerSends(setup, s, env, Pass);
    MarkDoneSleeps(setup, s, env, inst, sys);
    if !IsOver(setup, s, env, inst) { IdleRests(setup, s, env, inst, sys); }
  }

  // ---------------------------------------------------------------- a model report

  /** The state in which a report that lets the run go on is answered, scheduled and with a due bucket flushed. */
  function Scheduled(setup: Setup, s: State, env: Env, sys: int, id: int, cycle: int): State
    requires setup.config.Valid() && sys in setup.config.owner && Reported(setup, s.clock, cycle).Some?
  {
    var inst, u := setup.config.owner[sys], Polled(setup, s, env, sys, id, cycle);
    u.(work := Dispatch(setup.config, u.work, inst, sys, id, ChoiceNow(setup, u, env, inst)).0)
  }

  /** The first endpoint's answer closes the open bucket once its interval is over. */
  lemma FlushAnswers(setup: Setup, s: State, first: bool)
    ensures var t := FlushBuckets(setup, s, first); t.(meter := s.meter) == s
    ensures var m, n := s.meter, FlushBuckets(setup, s, first).meter;
      if first && s.clock.current as real > m.lastLog + setup.interval then
        n == m.(buckets := m.buckets + [(m.promptOpen, m.genOpen)], lastLog := m.lastLog + setup.interval, promptOpen := 0, genOpen := 0)
      else n == m
  {}

  /** One bucket has been closed per interval up to the last one. */
  predicate OnTime(setup: Setup, m: Meter) { m.lastLog == |m.buckets| as real * setup.interval }

  lemma FlushOnTime(setup: Setup, s: State, first: bool)
    requires OnTime(setup, s.meter)
    ensures OnTime(setup, FlushBuckets(setup, s, first).meter)
  {
    var n := |s.meter.buckets|;
    assert (n + 1) as real * setup.interval == n as real * setup.interval + setup.interval;
  }

  /** Every report that is taken gets one answer: the workload that scheduling hands out, an order to wait for the
      wave, or, when there is nothing to run, the answer of RestsExactly. */
  lemma ReportAnswers(setup: Setup, s: State, env: Env, sys: int, id: int, cycle: int)
    requires setup.config.Valid() && s.status.Running? && sys in setup.config.owner && Reported(setup, s.clock, cycle).Some?
    requires var b := s.(clock := Reported(setup, s.clock, cycle).value);
      !Drained(TakeReport(setup, b, env, setup.config.owner[sys], sys, id))
    ensures var inst, u := setup.config.owner[sys], Polled(setup, s, env, sys, id, cycle);
      var v, t := Scheduled(setup, s, env, sys, id, cycle), Step(setup, s, ModelComplete(sys, id, cycle), env);
      && t.sent != [] && t.sent == s.sent + [LastCommand(t)]
      && match Dispatch(setup.config, u.work, inst, sys, id, ChoiceNow(setup, u, env, inst)).1
         case Ran(k) => LastCommand(t) == Workload(k) && t.work == v.work && t.clock == v.clock
         case Waits => LastCommand(t) == Pass && t.work == v.work && t.clock == v.clock
         case Nothing => RestsExactly(setup, v, env, inst, sys, t)
  {
    hide Answer, Rest, Dispatch, ChoiceNow, RestsExactly, FlushBuckets, TakeReport, RouteArrivals, Drained, Reported;
    var inst, u := setup.config.owner[sys], Polled(setup, s, env, sys, id, cycle);
    var v, first := Scheduled(setup, s, env, sys, id, cycle), sys == setup.config.instances[inst].start;
    PolledIs(setup, s, env, sys, id, cycle);
    RespondAnswers(setup, u, env, inst, sys, id);
  }

  lemma PolledIs(setup: Setup, s: State, env: Env, sys: int, id: int, cycle: int)
    requires setup.config.Valid() && s.status.Running? && sys in setup.config.owner && Reported(setup, s.clock, cycle).Some?
    ensures var u := Polled(setup, s, env, sys, id, cycle); u.sent == s.sent && u.status == s.status
  {
    hide Report, Reported;
  }

  lemma RespondAnswers(setup: Setup, u: State, env: Env, inst: nat, sys: int, id: int)
    requires setup.config.Valid() && inst < |setup.config.instances| && u.status.Running?
    ensures var (work, reply) := Dispatch(setup.config, u.work, inst, sys, id, ChoiceNow(setup, u, env, inst));
      var v, t := u.(work := work), Respond(setup, u, env, inst, sys, id);
      && t.sent != [] && t.sent == u.sent + [LastCommand(t)]
      && match reply
         case Ran(k) => LastCommand(t) == Workload(k) && t.work == v.work && t.clock == v.clock
         case Waits => LastCommand(t) == Pass && t.work == v.work && t.clock == v.clock
         case Nothing => RestsExactly(setup, v, env, inst, sys, t)
  {
    hide Answer, Rest, Dispatch, ChoiceNow, RestsExactly, FlushBuckets;
    var (work, reply) := Dispatch(setup.config, u.work, inst, sys, id, ChoiceNow(setup, u, env, inst));
    var v, first := u.(work := work), sys == setup.config.instances[inst].start;
    match reply {
      case Ran(k) =>
        AnswerSends(setup, v, env, Workload(k));
        FlushAnswers(setup, Answer(setup, v, env, Workload(k)), first);
      case Waits =>
        AnswerSends(setup, v, env, Pass);
        FlushAnswers(setup, Answer(setup, v, env, Pass), first);
      case Nothing =>
        FlushAnswers(setup, v, first);
        var w := FlushBuckets(setup, v, first);
        RestAnswers(setup, w, env, inst, sys);
        MeterIsNotAsked(setup, v, w, env, inst, sys, Rest(setup, w, env, inst, sys));
    }
  }

  lemma MeterIsNotAsked(setup: Setup, s: State, u: State, env: Env, inst: nat, sys: int, t: State)
    requires inst < |setup.config.instances| && t.sent != [] && u.(meter := s.meter) == s
    ensures RestsExactly(setup, u, env, inst, sys, t) ==> RestsExactly(setup, s, env, inst, sys, t)
    ensures RestsExactly(setup, u, env, inst, sys, t) ==> t.sent == s.sent + [LastCommand(t)]
  {}

  /** An analytical loop with nothing to run and nothing outstanding jumps to the next known source of work. */
  lemma JumpsToNextSource(setup: Setup, s: State, env: Env, sys: int, id: int, cycle: int)
    requires setup.config.Valid() && setup.backend.Analytical? && s.status.Running? && sys in setup.config.owner
    requires 0 <= cycle && s.clock.floor <= cycle
    requires var inst, u := setup.config.owner[sys], Polled(setup, s, env, sys, id, cycle);
      && Dispatch(setup.config, u.work, inst, sys, id, ChoiceNow(setup, u, env, inst)) == (u.work, Nothing)
      && u.work.pending == map[] && u.work.ready == map[] && u.work.inflight == map[] && u.jobs.pending == map[] && u.exact.pendingById == map[]
      && (inst in u.shutdown.done || inst !in env.emptyQueues || !env.routerIdle || (setup.config.instances[inst].role.Decode? && !u.shutdown.prefillDone))
    requires !Polled(setup, s, env, sys, id, cycle).stop && env.nextIdle.Some? && env.nextIdle.value > cycle
    ensures var t, w := Step(setup, s, ModelComplete(sys, id, cycle), env), env.nextIdle.value;
      t.sent == s.sent + [AdvanceTo(w)] && t.clock.current == w && t.clock.floor == w
  {
    hide Answer, Rest, Dispatch, ChoiceNow, RouteArrivals, Report, Step;
    RunningIsNotDrained(setup, s, env, sys, id, cycle);
    ReportAnswers(setup, s, env, sys, id, cycle);
  }

  lemma RunningIsNotDrained(setup: Setup, s: State, env: Env, sys: int, id: int, cycle: int)
    requires setup.config.Valid() && sys in setup.config.owner && Reported(setup, s.clock, cycle).Some?
    requires !Polled(setup, s, env, sys, id, cycle).stop
    ensures var b := s.(clock := Reported(setup, s.clock, cycle).value);
      !Drained(TakeReport(setup, b, env, setup.config.owner[sys], sys, id))
    ensures Polled(setup, s, env, sys, id, cycle).clock == Reported(setup, s.clock, cycle).value
  {
    hide Report, Reported, Routed;
  }

  /** The report after which a frozen run holds and owes nothing is answered by the exit. */
  lemma ReportLeaves(setup: Setup, s: State, env: Env, sys: int, id: int, cycle: int)
    requires setup.config.Valid() && s.status.Running? && sys in setup.config.owner && Reported(setup, s.clock, cycle).Some?
    ensures var a := TakeReport(setup, s.(clock := Reported(setup, s.clock, cycle).value), env, setup.config.owner[sys], sys, id);
      a.stop && NothingOwed(a) && a.work.pending == map[] && a.work.ready == map[] ==>
        Step(setup, s, ModelComplete(sys, id, cycle), env) == a.(sent := s.sent + [Exit], earlyStopped := true, status := Exited)
  {
    hide Respond, Report, Routed, Reported;
  }

  /** A routing pass makes every job it issues pending, and takes out the answered jobs that it consumes. */
  lemma RoutesExactly(s: State, env: Env)
    ensures var t := RouteArrivals(s, env);
      && t == s.(jobs := t.jobs) && t.jobs.answered == s.jobs.answered
      && forall job ::
           if s.stop then (job in t.jobs.pending <==> job in s.jobs.pending)
           else (job in t.jobs.pending <==>
                   (job in s.jobs.pending && !(job in env.routed.consumed && job in s.jobs.answered))
                   || (job in env.routed.issued && job !in s.jobs.answered))
  {}

  // ---------------------------------------------------------------- other callbacks

  /** After a control or a transfer the run leaves exactly when its source is frozen and nothing is owed or held. */
  lemma ContinuesOrLeaves(setup: Setup, s: State, env: Env)
    requires s.status.Running?
    ensures var t := ContinueOrLeave(setup, s, env);
      if s.stop && NothingOwed(s) && s.work.pending == map[] && s.work.ready == map[]
      then t == s.(sent := s.sent + [Exit], earlyStopped := true, status := Exited)
      else t == Answer(setup, s, env, Continue) && t.sent == s.sent + [Continue] && !t.status.Exited?
  {
    hide Armed;
  }

  /** A transfer callback is accepted when the job is pending and unanswered, reports what was issued and is in
      causal order, or when it repeats an accepted one that the run still keeps; nothing else is. */
  lemma CallsExactly(jobs: Transfers, job: int, callback: Callback, frozen: bool)
    ensures Called(jobs, job, callback, frozen).Some? <==>
      if job in jobs.answered then jobs.answered[job] == callback && (frozen ==> job in jobs.pending)
      else job in jobs.pending && jobs.pending[job] == callback.issue && callback.issue.arrival <= callback.start <= callback.completion
    ensures Called(jobs, job, callback, frozen).Some? ==>
      var t := Called(jobs, job, callback, frozen).value;
      t.answered == jobs.answered[job := callback] && t.pending == if frozen then jobs.pending - {job} else jobs.pending
  {}

  /** An accepted transfer callback takes its time; the first one wakes the parked groups, a repeat wakes nobody. */
  lemma TransferWakes(setup: Setup, s: State, env: Env, job: int, callback: Callback)
    requires setup.external && s.status.Running? && 0 <= callback.completion && s.clock.floor <= callback.completion
    ensures var t, jobs := OnTransfer(setup, s, env, job, callback), Called(s.jobs, job, callback, s.stop);
      if jobs.None? then t == s.(status := Failed)
      else
        && t.clock == s.clock.(current := callback.completion, floor := callback.completion)
        && t.parked == (if job in s.jobs.answered then s.parked else {})
        && t.jobs == (if s.stop then jobs.value else Routed(jobs.value, env.routed)) && t.work == s.work
  {
    hide Called, Routed, Drained, Answer;
    forall u: State {:trigger Answer(setup, u, env, Continue)}
      ensures Answer(setup, u, env, Continue).(sent := u.sent, status := u.status, exact := u.exact) == u {
      AnswerSends(setup, u, env, Continue);
    }
  }

  // ---------------------------------------------------------------- sums over a run

  /** The first and the last NPU of an instance report; a prefill graph spans its decode peer. */
  function Reporters(i: Instance): set<int> {
    {i.start, if i.role.Prefill? then i.start + 2 * i.npus - 1 else i.start + i.npus - 1}
  }

  /** The report completes its batch: the last of the two endpoints reports it. */
  predicate CompletesBatch(setup: Setup, s: State, sys: int, id: int, cycle: int) {
    && s.status.Running? && sys in setup.config.owner && setup.config.owner[sys] < |setup.config.instances|
    && (setup.backend.Analytical? ==> cycle >= 0 && cycle >= s.clock.floor)
    && var k := Key(setup.config.owner[sys], id - 1);
       k in s.work.inflight && sys !in s.work.inflight[k].ends
       && Reporters(setup.config.instances[k.inst]) <= s.work.inflight[k].ends + {sys}
  }

  function PromptOf(setup: Setup, s: State, event: Event, env: Env): int {
    if event.ModelComplete? && CompletesBatch(setup, s, event.sys, event.id, event.cycle) then env.prompt else 0
  }

  function GeneratedOf(setup: Setup, s: State, event: Event, env: Env): int {
    if event.ModelComplete? && CompletesBatch(setup, s, event.sys, event.id, event.cycle) then env.generated else 0
  }

  /** The prompt tokens and the generated tokens of the batches that complete in a run. */
  function PromptTokens(setup: Setup, events: seq<(Event, Env)>): int
    requires setup.config.Valid()
  {
    if events == [] then 0
    else
      var n := |events| - 1;
      PromptTokens(setup, events[..n]) + PromptOf(setup, Run(setup, Init(), events[..n]), events[n].0, events[n].1)
  }

  function GeneratedTokens(setup: Setup, events: seq<(Event, Env)>): int
    requires setup.config.Valid()
  {
    if events == [] then 0
    else
      var n := |events| - 1;
      GeneratedTokens(setup, events[..n]) + GeneratedOf(setup, Run(setup, Init(), events[..n]), events[n].0, events[n].1)
  }

  predicate SameTotals(s: State, t: State) {
    (t.meter.totalPrompt, t.meter.totalGen) == (s.meter.totalPrompt, s.meter.totalGen)
  }

  /** Recording a report: the batch ends, its tokens count, and the source may freeze, when both endpoints have
      reported it; its first report opens a completion generation, which wakes the parked groups. */
  lemma RecordsExactly(setup: Setup, s: State, env: Env, inst: nat, sys: int, id: int)
    requires inst < |setup.config.instances|
    ensures var t, k := TakeReport(setup, s, env, inst, sys, id), Key(inst, id - 1);
      var reports := k in s.work.inflight && sys !in s.work.inflight[k].ends;
      var completes := reports && Reporters(setup.config.instances[inst]) <= s.work.inflight[k].ends + {sys};
      && t.work == (if !reports then s.work else if completes then s.work.(inflight := s.work.inflight - {k})
                    else s.work.(inflight := s.work.inflight[k := s.work.inflight[k].(ends := s.work.inflight[k].ends + {sys})]))
      && t.meter.totalPrompt == s.meter.totalPrompt + (if completes then env.prompt else 0)
      && t.meter.totalGen == s.meter.totalGen + (if completes then env.generated else 0)
      && t.meter.promptOpen == s.meter.promptOpen + (if completes then env.prompt else 0)
      && t.meter.genOpen == s.meter.genOpen + (if completes then env.generated else 0)
      && t.stop == (s.stop || (completes && env.boundary))
      && t.jobs == (if !s.stop && s.clock.current > 0 then Routed(s.jobs, env.older) else s.jobs)
      && t.parked == if k in s.work.inflight && s.work.inflight[k].ends == {} then {} else s.parked
  {
    assert Reporters(setup.config.instances[inst]) == setup.config.instances[inst].Endpoints();
    hide Routed;
  }

  lemma RestMeter(setup: Setup, s: State, env: Env, inst: nat, sys: int)
    requires inst < |setup.config.instances|
    ensures Rest(setup, s, env, inst, sys).meter == s.meter
  {
    hide Answer, Asleep, DispatchedWork, PartlyReported, IdleCommand, MayAdvance, GroupEmpty, MayBeDone;
    forall u, command {:trigger Answer(setup, u, env, command)} ensures Answer(setup, u, env, command).meter == u.meter {
      AnswerSends(setup, u, env, command);
    }
  }

  lemma RespondTotals(setup: Setup, s: State, env: Env, inst: nat, sys: int, id: int)
    requires setup.config.Valid() && inst < |setup.config.instances|
    ensures SameTotals(s, Respond(setup, s, env, inst, sys, id))
    ensures OnTime(setup, s.meter) ==> OnTime(setup, Respond(setup, s, env, inst, sys, id).meter)
  {
    hide Answer, Rest, Dispatch, ChoiceNow, FlushBuckets, OnTime;
    var (work, reply) := Dispatch(setup.config, s.work, inst, sys, id, ChoiceNow(setup, s, env, inst));
    var t, first := s.(work := work), sys == setup.config.instances[inst].start;
    var u := match reply case Ran(k) => Answer(setup, t, env, Workload(k)) case Waits => Answer(setup, t, env, Pass) case Nothing => t;
    if reply.Ran? { AnswerSends(setup, t, env, Workload(reply.k)); }
    if reply.Waits? { AnswerSends(setup, t, env, Pass); }
    FlushAnswers(setup, u, first);
    if OnTime(setup, s.meter) { FlushOnTime(setup, u, first); }
    if reply.Nothing? { RestMeter(setup, FlushBuckets(setup, t, first), env, inst, sys); }
  }

  lemma ModelCompleteTotals(setup: Setup, s: State, env: Env, sys: int, id: int, cycle: int)
    requires setup.config.Valid() && s.status.Running?
    ensures var t, event := OnModelComplete(setup, s, env, sys, id, cycle), ModelComplete(sys, id, cycle);
      && t.meter.totalPrompt == s.meter.totalPrompt + PromptOf(setup, s, event, env)
      && t.meter.totalGen == s.meter.totalGen + GeneratedOf(setup, s, event, env)
      && (OnTime(setup, s.meter) ==> OnTime(setup, t.meter))
  {
    hide TakeReport, RouteArrivals, Respond, Drained, OnTime;
    if sys in setup.config.owner && Reported(setup, s.clock, cycle).Some? {
      var inst, b := setup.config.owner[sys], s.(clock := Reported(setup, s.clock, cycle).value);
      var a := TakeReport(setup, b, env, inst, sys, id);
      RecordsExactly(setup, b, env, inst, sys, id);
      RespondTotals(setup, RouteArrivals(a, env), env, inst, sys, id);
      RouteMeter(a, env);
      TakeReportOnTime(setup, b, env, inst, sys, id);
    }
  }

  lemma TakeReportOnTime(setup: Setup, s: State, env: Env, inst: nat, sys: int, id: int)
    requires inst < |setup.config.instances|
    ensures OnTime(setup, s.meter) <==> OnTime(setup, TakeReport(setup, s, env, inst, sys, id).meter)
  {
    hide Report, Routed;
  }

  lemma RouteMeter(s: State, env: Env)
    ensures RouteArrivals(s, env).meter == s.meter
  {}

  lemma StepTotals(setup: Setup, s: State, event: Event, env: Env)
    requires setup.config.Valid()
    ensures var t := Step(setup, s, event, env);
      && t.meter.totalPrompt == s.meter.totalPrompt + PromptOf(setup, s, event, env)
      && t.meter.totalGen == s.meter.totalGen + GeneratedOf(setup, s, event, env)
      && (OnTime(setup, s.meter) ==> OnTime(setup, t.meter))
  {
    hide OnModelComplete, OnControl, OnTransfer, OnTime;
    if s.status.Running? {
      match event {
        case ModelComplete(sys, id, cycle) => ModelCompleteTotals(setup, s, env, sys, id, cycle);
        case ControlEvent(eventId, time) => ControlTotals(setup, s, env, eventId, time);
        case TransferComplete(job, callback) => TransferTotals(setup, s, env, job, callback);
      }
    }
  }

  lemma ControlTotals(setup: Setup, s: State, env: Env, eventId: EventId, time: int)
    ensures OnControl(setup, s, env, eventId, time).meter == s.meter
  {
    hide Answer, Completed, Drained;
    ContinueTotals(setup, env);
  }

  lemma TransferTotals(setup: Setup, s: State, env: Env, job: int, callback: Callback)
    ensures OnTransfer(setup, s, env, job, callback).meter == s.meter
  {
    hide Answer, Called, Drained;
    ContinueTotals(setup, env);
  }

  lemma ContinueTotals(setup: Setup, env: Env)
    ensures forall s: State {:trigger Answer(setup, s, env, Continue)} :: Answer(setup, s, env, Continue).meter == s.meter
  {
    hide Armed;
  }

  /** In every run each closed bucket stands for one interval, and the next one starts where it ended. */
  lemma {:induction false} BucketsAreIntervals(setup: Setup, events: seq<(Event, Env)>)
    requires setup.config.Valid()
    ensures OnTime(setup, Run(setup, Init(), events).meter)
  {
    if events == [] {
      assert OnTime(setup, Init().meter);
    } else {
      var n := |events| - 1;
      BucketsAreIntervals(setup, events[..n]);
      StepTotals(setup, Run(setup, Init(), events[..n]), events[n].0, events[n].1);
      hide Step, PromptOf, GeneratedOf, OnTime;
    }
  }

  /** In every run the totals are the prompt tokens and the generated tokens of the batches that completed. */
  lemma {:induction false} TotalsAreSums(setup: Setup, events: seq<(Event, Env)>)
    requires setup.config.Valid()
    ensures var m := Run(setup, Init(), events).meter;
      && m.totalPrompt == PromptTokens(setup, events) && m.totalGen == GeneratedTokens(setup, events)
  {
    if events != [] {
      var n := |events| - 1;
      TotalsAreSums(setup, events[..n]);
      StepTotals(setup, Run(setup, Init(), events[..n]), events[n].0, events[n].1);
      hide Step, PromptOf, GeneratedOf, OnTime;
    }
  }
}
