/** The drain after the measurement freeze (serving/__main__.py, lines 299-330, 1481-1490, 1558-1569,
  2080-2102 and 2133-2138): nothing new is started, every productive callback brings the end nearer, and
  the drain exit is taken as soon as, and only when, nothing is owed. The other exit, by normal completion,
  is the subject of ServingExit. */
module ServingDrain {
  import opened Wrappers
  import opened Controls
  import opened DpWaves
  import opened Sets
  import opened WaveSafety
  import opened Serving
  import opened ServingSafety

  // ---------------------------------------------------------------- what is still to come

  /** Members that an open wave is waiting for. */
  function Missing(config: Config, w: Work): set<nat> {
    set i | i in config.groupOf && w.WaveOpen(config, i) && i !in w.pending
  }

  /** Batches that wait to be handed over, by instance. */
  function Held(w: Work): set<nat> { w.pending.Keys + w.ready.Keys }

  /** Reports the backend still owes: from endpoints that were given the batch and have not reported it. */
  function Owed(config: Config, w: Work): set<(Key, int)> {
    set k, e | k in w.inflight && w.inflight[k].dispatched && k.inst < |config.instances|
               && e in config.instances[k.inst].Endpoints() && e in w.inflight[k].fired && e !in w.inflight[k].ends :: (k, e)
  }

  /** Each missing member will still join, be handed over and report; each held batch will be handed over
      and report. */
  function Remaining(config: Config, w: Work): nat {
    3 * |Missing(config, w)| + 2 * |Held(w)| + |Owed(config, w)|
  }

  function ToCome(config: Config, s: State): nat {
    Remaining(config, s.work) + |s.exact.pendingById| + |s.jobs.pending|
  }

  // ---------------------------------------------------------------- one report

  lemma ReportOwes(config: Config, w: Work, inst: nat, sys: int, id: int)
    requires inst < |config.instances| && Waves(config, w) && Faithful(w, inst, sys, id)
    ensures var k, v := Key(inst, id - 1), Report(config, w, inst, sys, id).0;
      && Owed(config, v) == Owed(config, w) - {(k, sys)}
      && v.pending == w.pending && v.ready == w.ready
  {
    forall p ensures p in Owed(config, Report(config, w, inst, sys, id).0) <==> p in Owed(config, w) - {(Key(inst, id - 1), sys)} {
      ReportOwesAt(config, w, inst, sys, id, p);
    }
    hide Owed, Waves;
  }

  lemma ReportOwesAt(config: Config, w: Work, inst: nat, sys: int, id: int, p: (Key, int))
    requires inst < |config.instances| && Waves(config, w) && Faithful(w, inst, sys, id)
    ensures p in Owed(config, Report(config, w, inst, sys, id).0) <==> p in Owed(config, w) && p != (Key(inst, id - 1), sys)
  {
    if p.0 in w.inflight { assert BatchOk(config, w, {}, p.0); }
    hide Waves;
  }

  lemma ReportRemains(config: Config, w: Work, inst: nat, sys: int, id: int)
    requires inst < |config.instances| && Waves(config, w) && Faithful(w, inst, sys, id)
    ensures var v := Report(config, w, inst, sys, id).0;
      Remaining(config, v) == Remaining(config, w) - (if (Key(inst, id - 1), sys) in Owed(config, w) then 1 else 0)
  {
    var v := Report(config, w, inst, sys, id).0;
    ReportOwes(config, w, inst, sys, id);
    MissingByPending(config, w, v);
    hide Report, Waves, Owed, Missing;
  }

  lemma MissingByPending(config: Config, w: Work, v: Work)
    requires w.pending.Keys == v.pending.Keys
    ensures Missing(config, v) == Missing(config, w)
  {
    forall i ensures v.WaveOpen(config, i) <==> w.WaveOpen(config, i) {
      if i in config.groupOf { assert v.Waiting(config, config.groupOf[i]) == w.Waiting(config, config.groupOf[i]); }
    }
    hide Work.WaveOpen;
  }

  // ---------------------------------------------------------------- joining and handing over

  lemma EnterMissing(config: Config, w: Work, v: Work, inst: nat)
    requires config.Valid() && inst in config.groupOf && w.WaveOpen(config, inst) && inst !in w.pending
    requires v.pending.Keys == w.pending.Keys + {inst}
    ensures Missing(config, v) == Missing(config, w) - {inst} && |Missing(config, v)| == |Missing(config, w)| - 1
  {
    forall i | i in config.groupOf && i != inst ensures v.WaveOpen(config, i) <==> w.WaveOpen(config, i) {
      var g := config.groupOf[i];
      assert forall j :: j in v.Waiting(config, g) <==> j in w.Waiting(config, g) || (j == inst && config.groupOf[inst] == g);
      if g == config.groupOf[inst] {
        assert inst in v.Waiting(config, g);
      } else {
        assert v.Waiting(config, g) == w.Waiting(config, g);
      }
    }
    MissingLess(config, w, v, inst);
  }

  lemma MissingLess(config: Config, w: Work, v: Work, inst: nat)
    requires inst in config.groupOf && w.WaveOpen(config, inst) && inst !in w.pending
    requires forall i :: i in Missing(config, v) <==> i in Missing(config, w) && i != inst
    ensures Missing(config, v) == Missing(config, w) - {inst} && |Missing(config, v)| == |Missing(config, w)| - 1
  {
    assert inst in Missing(config, w);
    assert Missing(config, v) == Missing(config, w) - {inst};
  }

  lemma FireMissing(config: Config, w: Work, v: Work, inst: nat)
    requires config.Valid() && inst in config.groupOf && w.WaveOpen(config, inst) && inst !in w.pending
    requires config.Members(config.groupOf[inst]) <= w.pending.Keys + {inst}
    requires v.pending.Keys == w.pending.Keys - config.Members(config.groupOf[inst])
    ensures Missing(config, v) == Missing(config, w) - {inst} && |Missing(config, v)| == |Missing(config, w)| - 1
  {
    forall i | i in config.groupOf ensures i in Missing(config, v) <==> i in Missing(config, w) && i != inst {
      var g := config.groupOf[i];
      if g == config.groupOf[inst] {
        assert v.Waiting(config, g) == {};
        assert i in config.Members(g);
      } else {
        assert v.Waiting(config, g) == w.Waiting(config, g);
      }
    }
    MissingLess(config, w, v, inst);
  }

  /** The reports owed for a batch that has just been handed over: one per endpoint. */
  lemma LaunchOwes(config: Config, w: Work, k: Key)
    requires k in w.inflight && k.inst < |config.instances| && w.inflight[k].ends == {} && !w.inflight[k].dispatched
    requires config.instances[k.inst].start == config.instances[k.inst].Last() && config.instances[k.inst].start in w.inflight[k].fired
    ensures Owed(config, Launch(w, k)) == Owed(config, w) + {(k, config.instances[k.inst].start)}
    ensures (k, config.instances[k.inst].start) !in Owed(config, w)
  {
    var v, e := Launch(w, k), config.instances[k.inst].start;
    forall p | p in Owed(config, v) ensures p in Owed(config, w) + {(k, e)} {}
    forall p | p in Owed(config, w) + {(k, e)} ensures p in Owed(config, v) {}
  }

  /** Batches that are not handed over owe nothing. */
  lemma SameOwed(config: Config, w: Work, v: Work)
    requires forall k :: k in w.inflight && w.inflight[k].dispatched ==>
               k in v.inflight && v.inflight[k].dispatched && v.inflight[k].ends == w.inflight[k].ends && v.inflight[k].fired == w.inflight[k].fired
    requires forall k :: k in v.inflight && v.inflight[k].dispatched ==> k in w.inflight && w.inflight[k].dispatched
    ensures Owed(config, v) == Owed(config, w)
  {
    forall p | p in Owed(config, v) ensures p in Owed(config, w) {}
    forall p | p in Owed(config, w) ensures p in Owed(config, v) {}
  }

  lemma AddOwes(config: Config, w: Work, inst: nat, shape: Shape, sys: int)
    requires Waves(config, w)
    ensures Owed(config, AddBatch(w, inst, shape, sys)) == Owed(config, w)
  {
    FreshId(config, w, inst);
    SameOwed(config, w, AddBatch(w, inst, shape, sys));
    hide Waves, Sound, Owed;
  }

  lemma PadOwes(config: Config, w: Work, g: nat, inst: nat)
    requires g < |config.groups|
    ensures Owed(config, Fire(config, w, g, inst)) == Owed(config, w)
  {
    var v := Fire(config, w, g, inst);
    forall k | k in w.inflight ensures k in v.inflight && v.inflight[k].dispatched == w.inflight[k].dispatched && v.inflight[k].ends == w.inflight[k].ends
      && v.inflight[k].fired == w.inflight[k].fired {
      PadWaveAt(config, w, g, k);
    }
    assert v.inflight.Keys == w.inflight.Keys;
    SameOwed(config, w, v);
    hide Owed, PadWave;
  }

  lemma EnteredOwes(config: Config, w: Work, inst: nat, shape: Shape, sys: int)
    requires Waves(config, w)
    ensures Owed(config, Enter(AddBatch(w, inst, shape, sys), inst, w.NextId(inst))) == Owed(config, w)
  {
    var added := AddBatch(w, inst, shape, sys);
    AddOwes(config, w, inst, shape, sys);
    SameOwed(config, added, Enter(added, inst, w.NextId(inst)));
    hide Owed, Waves, AddBatch;
  }

  lemma JoinWaits(config: Config, w: Work, entered: Work, inst: nat)
    requires config.Valid() && inst in config.groupOf && w.WaveOpen(config, inst) && inst !in Held(w)
    requires entered.pending.Keys == w.pending.Keys + {inst} && entered.ready == w.ready
    requires Owed(config, entered) == Owed(config, w)
    ensures Remaining(config, entered) < Remaining(config, w)
  {
    EnterMissing(config, w, entered, inst);
    assert Held(entered) == Held(w) + {inst};
    hide Owed, Missing, Held;
  }

  lemma JoinFires(config: Config, w: Work, entered: Work, key: Key, blocked: bool)
    requires config.Valid() && config.SingleEndpointMembers() && key.inst in config.groupOf && w.WaveOpen(config, key.inst)
    requires key.inst !in w.pending && key.inst !in w.ready && Sound(config, entered, {}) && EntryOk(config, entered, key)
    requires entered.pending.Keys == w.pending.Keys + {key.inst} && entered.pending[key.inst] == key.id && entered.ready == w.ready
    requires config.Members(config.groupOf[key.inst]) <= entered.pending.Keys
    requires Owed(config, entered) == Owed(config, w)
    ensures Remaining(config, RunOrHold(Fire(config, entered, config.groupOf[key.inst], key.inst), key, blocked)) < Remaining(config, w)
  {
    var g := config.groupOf[key.inst];
    FireKeeps(config, entered, g, key.inst);
    PadOwes(config, entered, g, key.inst);
    FiredTables(config, w, entered, key.inst);
    assert BatchOk(config, Fire(config, entered, g, key.inst), {key}, key);
    hide Sound, Fire;
    var fired := Fire(config, entered, g, key.inst);
    var v := RunOrHold(fired, key, blocked);
    RunOrHoldCounts(config, fired, key, blocked);
    FireMissing(config, w, v, key.inst);
    hide Owed, Missing, Held, RunOrHold;
  }

  lemma RunOrHoldCounts(config: Config, w: Work, key: Key, blocked: bool)
    requires config.Valid() && config.SingleEndpointMembers() && EntryOk(config, w, key)
    requires key.inst !in w.pending && key.inst !in w.ready && config.instances[key.inst].start in w.inflight[key].fired
    ensures var v := RunOrHold(w, key, blocked);
      && v.pending == w.pending
      && |Held(v)| == |Held(w)| + (if blocked then 1 else 0)
      && |Owed(config, v)| == |Owed(config, w)| + (if blocked then 0 else 1)
  {
    var v := RunOrHold(w, key, blocked);
    if blocked {
      SameOwed(config, w, v);
      hide Owed;
      assert Held(v) == Held(w) + {key.inst};
    } else {
      LaunchOwes(config, w, key);
      hide Owed;
      assert Held(v) == Held(w);
    }
  }

  /** A missing member's batch joins the open wave. */
  lemma JoinRemains(config: Config, w: Work, inst: nat, shape: Shape, sys: int, blocked: bool)
    requires config.Valid() && config.SingleEndpointMembers() && Waves(config, w)
    requires inst in config.groupOf && w.Idle(inst) && w.WaveOpen(config, inst) && sys == config.instances[inst].start
    ensures var v := Join(config, AddBatch(w, inst, shape, sys), inst, w.NextId(inst), blocked);
      Remaining(config, v) < Remaining(config, w)
  {
    var added, key := AddBatch(w, inst, shape, sys), Key(inst, w.NextId(inst));
    var entered := Enter(added, inst, key.id);
    AddKeeps(config, w, inst, shape, sys);
    EnterKeeps(config, added, key);
    EnteredOwes(config, w, inst, shape, sys);
    FullMeansAll(config, entered, config.groupOf[inst]);
    assert entered.pending.Keys == w.pending.Keys + {inst} && entered.ready == w.ready && EntryOk(config, entered, key);
    hide Waves, Sound, AddBatch, Full, Owed, EntryOk, Fire, RunOrHold;
    if config.Members(config.groupOf[inst]) <= entered.pending.Keys {
      JoinFires(config, w, entered, key, blocked);
    } else {
      JoinWaits(config, w, entered, inst);
    }
  }

  /** Firing moves the other members from one table to the other. */
  lemma FiredTables(config: Config, w: Work, entered: Work, inst: nat)
    requires config.Valid() && inst in config.groupOf && inst !in w.pending && inst !in w.ready
    requires entered.pending.Keys == w.pending.Keys + {inst} && entered.ready == w.ready
    requires config.Members(config.groupOf[inst]) <= entered.pending.Keys
    ensures var fired := Fire(config, entered, config.groupOf[inst], inst);
      && fired.pending.Keys == w.pending.Keys - config.Members(config.groupOf[inst])
      && Held(fired) == Held(w) && inst !in Held(w)
  {
    var g := config.groupOf[inst];
    var fired := Fire(config, entered, g, inst);
    assert entered.Waiting(config, g) == config.Members(g);
    assert inst in config.Members(g);
    hide PadWave;
    assert fired.pending.Keys == entered.pending.Keys - config.Members(g);
    assert fired.ready.Keys == w.ready.Keys + (config.Members(g) - {inst});
  }

  lemma PickupRemains(config: Config, w: Work, inst: nat)
    requires config.Valid() && config.SingleEndpointMembers() && Waves(config, w) && inst in w.ready
    ensures var k := Key(inst, w.ready[inst]);
      && k in w.inflight
      && Remaining(config, Launch(w.(ready := w.ready - {inst}), k)) < Remaining(config, w)
  {
    var k, taken := Key(inst, w.ready[inst]), w.(ready := w.ready - {inst});
    ReadyEntry(config, w, inst);
    hide Waves, Owed, Missing, Held;
    LaunchOwes(config, taken, k);
    SameOwed(config, w, taken);
    PickupTables(config, w, Launch(taken, k), inst);
    hide Launch;
  }

  lemma ReadyEntry(config: Config, w: Work, inst: nat)
    requires config.Valid() && config.SingleEndpointMembers() && Waves(config, w) && inst in w.ready
    ensures var k := Key(inst, w.ready[inst]);
      && k in w.inflight && w.inflight[k].ends == {} && !w.inflight[k].dispatched && inst !in w.pending
      && inst < |config.instances| && config.instances[inst].start == config.instances[inst].Last()
      && config.instances[inst].start in w.inflight[k].fired
  {
    var k := Key(inst, w.ready[inst]);
    assert EntryOk(config, w, k);
    assert BatchOk(config, w, {}, k);
  }

  lemma HeldByReady(w: Work, v: Work, inst: nat)
    requires inst in w.ready && inst !in w.pending && v.pending == w.pending && v.ready == w.ready - {inst}
    ensures |Held(v)| == |Held(w)| - 1
  {
    assert Held(v) == Held(w) - {inst} && inst in Held(w);
  }

  lemma PickupTables(config: Config, w: Work, v: Work, inst: nat)
    requires inst in w.ready && inst !in w.pending && v.pending == w.pending && v.ready == w.ready - {inst}
    ensures Missing(config, v) == Missing(config, w) && |Held(v)| == |Held(w)| - 1
  {
    MissingByPending(config, w, v);
    HeldByReady(w, v, inst);
    hide Missing, Held;
  }

  /** In a frozen run every change that scheduling makes brings the end nearer. */
  lemma DispatchRemains(config: Config, w: Work, inst: nat, sys: int, id: int, choice: Choice)
    requires config.Valid() && config.SingleEndpointMembers() && Waves(config, w)
    requires sys in config.owner && config.owner[sys] == inst
    requires choice.mayForm ==> w.WaveOpen(config, inst) && inst !in w.pending
    ensures var v := Dispatch(config, w, inst, sys, id, choice).0;
      v == w || Remaining(config, v) < Remaining(config, w)
  {
    var formed := if choice.mayForm then Form(config, w, inst, sys, id, choice.shape) else None;
    if formed.Some? {
      assert sys == config.instances[inst].start;
      FormsWhenIdle(config, w, inst, sys, id, choice.shape);
      JoinRemains(config, w, inst, choice.shape.value, sys, choice.fabricBlocked);
    } else if inst in w.ready && !choice.engineBlocked {
      PickupRemains(config, w, inst);
    } else if inst in config.groupOf && !choice.engineBlocked && sys == config.instances[inst].start && w.Idle(inst)
              && w.WaveOpen(config, inst) {
      JoinRemains(config, w, inst, DummyShape, sys, choice.fabricBlocked);
    }
    hide Waves, Join, AddBatch, Launch, Remaining;
  }

  /** No wave starts: only groups whose wave was open have one open afterwards. */
  lemma NoNewWave(config: Config, w: Work, inst: nat, sys: int, id: int, choice: Choice, g: nat)
    requires config.Valid() && inst < |config.instances|
    requires choice.mayForm ==> w.WaveOpen(config, inst)
    requires w.Waiting(config, g) == {}
    ensures Dispatch(config, w, inst, sys, id, choice).0.Waiting(config, g) == {}
  {
  }

  // ---------------------------------------------------------------- a callback of a frozen run

  /** The waves and reports to come are the same, or fewer. */
  ghost predicate Nearer(config: Config, w: Work, v: Work) {
    || (v.pending == w.pending && v.ready == w.ready && Owed(config, v) == Owed(config, w) && Remaining(config, v) == Remaining(config, w))
    || Remaining(config, v) < Remaining(config, w)
  }

  /** What a callback of a frozen run may do: it arms nothing, issues nothing and starts no wave. While the
      run goes on something is still owed; it is left either because nothing is, or because the last
      instance has finished. */
  ghost predicate Draining(setup: Setup, s: State, t: State) {
    && t.stop
    && t.exact.pendingById.Keys <= s.exact.pendingById.Keys
    && t.jobs.pending.Keys <= s.jobs.pending.Keys
    && (forall g :: s.work.Waiting(setup.config, g) == {} ==> t.work.Waiting(setup.config, g) == {})
    && Nearer(setup.config, s.work, t.work)
    && (t.status.Running? ==> !Drained(t) && !t.earlyStopped)
    && (t.status.Exited? && t.earlyStopped ==> Drained(t))
    && (t.status.Exited? && !t.earlyStopped ==> |t.shutdown.done| == |setup.config.instances|)
  }

  /** What is to come never grows, and it falls whenever a table, an owed report, a control or a transfer
      changes. */
  lemma DrainFalls(setup: Setup, s: State, t: State)
    requires Draining(setup, s, t)
    ensures ToCome(setup.config, t) <= ToCome(setup.config, s)
    ensures (t.work.pending, t.work.ready, Owed(setup.config, t.work), t.exact.pendingById.Keys, t.jobs.pending.Keys)
         != (s.work.pending, s.work.ready, Owed(setup.config, s.work), s.exact.pendingById.Keys, s.jobs.pending.Keys)
         ==> ToCome(setup.config, t) < ToCome(setup.config, s)
  {
    SubsetCardinality(t.exact.pendingById.Keys, s.exact.pendingById.Keys);
    SubsetCardinality(t.jobs.pending.Keys, s.jobs.pending.Keys);
    assert |t.jobs.pending.Keys| == |t.jobs.pending| && |s.jobs.pending.Keys| == |s.jobs.pending|;
    assert |t.exact.pendingById.Keys| == |t.exact.pendingById| && |s.exact.pendingById.Keys| == |s.exact.pendingById|;
    hide Remaining, Owed, Drained;
  }

  /** Answering and idling leave the owed work alone when frozen. */
  ghost predicate SameWork(s: State, t: State) {
    (t.work, t.exact, t.jobs, t.stop) == (s.work, s.exact, s.jobs, s.stop)
  }

  lemma AnswerSame(setup: Setup, s: State, env: Env, command: Command)
    requires s.stop
    ensures var t := Answer(setup, s, env, command); SameWork(s, t) && t.status == s.status && t.earlyStopped == s.earlyStopped
  {}

  lemma RestSame(setup: Setup, s: State, env: Env, inst: nat, sys: int)
    requires s.stop && inst < |setup.config.instances|
    ensures var t := Rest(setup, s, env, inst, sys);
      && SameWork(s, t) && t.earlyStopped == s.earlyStopped
      && (t.status == s.status || (t.status.Exited? && |t.shutdown.done| == |setup.config.instances|))
  {
    hide DispatchedWork, PartlyReported, GroupEmpty, Prefills;
  }

  lemma RespondSame(setup: Setup, s: State, env: Env, inst: nat, sys: int, id: int)
    requires setup.config.Valid() && s.stop && inst < |setup.config.instances|
    ensures var t := Respond(setup, s, env, inst, sys, id);
      SameWork(s.(work := Dispatch(setup.config, s.work, inst, sys, id, ChoiceNow(setup, s, env, inst)).0), t)
      && t.earlyStopped == s.earlyStopped
      && (t.status == s.status || (t.status.Exited? && |t.shutdown.done| == |setup.config.instances|))
  {
    var (work, reply) := Dispatch(setup.config, s.work, inst, sys, id, ChoiceNow(setup, s, env, inst));
    var t, first := s.(work := work), sys == setup.config.instances[inst].start;
    hide Dispatch, ChoiceNow, Answer, Rest;
    match reply {
      case Ran(k) => AnswerSame(setup, t, env, Workload(k));
      case Waits => AnswerSame(setup, t, env, Pass);
      case Nothing => RestSame(setup, FlushBuckets(setup, t, first), env, inst, sys);
    }
  }

  lemma RespondDrains(setup: Setup, s: State, env: Env, inst: nat, sys: int, id: int)
    requires setup.config.Valid() && setup.config.SingleEndpointMembers() && Inv(setup, s)
    requires s.stop && !Drained(s) && !s.earlyStopped && s.status.Running?
    requires sys in setup.config.owner && setup.config.owner[sys] == inst
    ensures var t := Respond(setup, s, env, inst, sys, id);
      && t.stop && t.exact == s.exact && t.jobs == s.jobs && !t.earlyStopped && !Drained(t)
      && (t.status.Exited? ==> |t.shutdown.done| == |setup.config.instances|)
      && (t.work == s.work || Remaining(setup.config, t.work) < Remaining(setup.config, s.work))
      && (forall g :: s.work.Waiting(setup.config, g) == {} ==> t.work.Waiting(setup.config, g) == {})
  {
    var choice := ChoiceNow(setup, s, env, inst);
    RespondSame(setup, s, env, inst, sys, id);
    DispatchRemains(setup.config, s.work, inst, sys, id, choice);
    var (work, reply) := Dispatch(setup.config, s.work, inst, sys, id, choice);
    forall g | s.work.Waiting(setup.config, g) == {} ensures work.Waiting(setup.config, g) == {} {
      NoNewWave(setup.config, s.work, inst, sys, id, choice, g);
    }
    if reply.Nothing? {
      NothingChanges(setup.config, s.work, inst, sys, id, choice);
    } else {
      AnsweredIsBusy(setup.config, s.work, inst, sys, id, choice);
    }
    hide Respond, Dispatch, Remaining, Waves, ChoiceNow;
    assert work.inflight == map[] ==> work.Idle(inst);
  }

  lemma NothingChanges(config: Config, w: Work, inst: nat, sys: int, id: int, choice: Choice)
    requires config.Valid() && inst < |config.instances| && Waves(config, w)
    requires Dispatch(config, w, inst, sys, id, choice).1.Nothing?
    ensures Dispatch(config, w, inst, sys, id, choice).0 == w
  {
    if inst in w.ready { assert EntryOk(config, w, Key(inst, w.ready[inst])); }
  }

  lemma ReportNearer(config: Config, w: Work, inst: nat, sys: int, id: int)
    requires inst < |config.instances| && Waves(config, w) && Faithful(w, inst, sys, id)
    ensures Nearer(config, w, Report(config, w, inst, sys, id).0)
    ensures forall g :: w.Waiting(config, g) == Report(config, w, inst, sys, id).0.Waiting(config, g)
  {
    hide Report, Waves, Owed, Remaining, Faithful;
    ReportRemains(config, w, inst, sys, id);
    ReportOwes(config, w, inst, sys, id);
  }

  lemma NearerChain(config: Config, w: Work, v: Work, u: Work)
    requires Nearer(config, w, v) && (u == v || Remaining(config, u) < Remaining(config, v))
    ensures Nearer(config, w, u)
  {
    hide Remaining, Owed;
  }

  /** What a report leaves of a frozen state. */
  lemma Taken(setup: Setup, s: State, env: Env, sys: int, id: int, cycle: int) returns (a: State)
    requires setup.config.Valid() && Inv(setup, s) && s.stop
    requires sys in setup.config.owner && Faithful(s.work, setup.config.owner[sys], sys, id) && Reported(setup, s.clock, cycle).Some?
    ensures a == TakeReport(setup, s.(clock := Reported(setup, s.clock, cycle).value), env, setup.config.owner[sys], sys, id)
    ensures Inv(setup, a) && RouteArrivals(a, env) == a && a.work == Report(setup.config, s.work, setup.config.owner[sys], sys, id).0
    ensures (a.exact, a.jobs, a.stop, a.earlyStopped, a.status, a.shutdown) == (s.exact, s.jobs, s.stop, s.earlyStopped, s.status, s.shutdown)
  {
    var b, inst := s.(clock := Reported(setup, s.clock, cycle).value), setup.config.owner[sys];
    assert Inv(setup, b) by { hide Waves, Woken; }
    TakeReportKeeps(setup, b, env, inst, sys, id);
    a := TakeReport(setup, b, env, inst, sys, id);
    hide Report, Inv, Faithful;
  }

  lemma ModelCompleteDrains(setup: Setup, s: State, env: Env, sys: int, id: int, cycle: int)
    requires setup.config.Valid() && setup.config.SingleEndpointMembers() && Inv(setup, s) && s.stop && !s.earlyStopped && s.status.Running?
    requires sys in setup.config.owner && Faithful(s.work, setup.config.owner[sys], sys, id) && Reported(setup, s.clock, cycle).Some?
    ensures Draining(setup, s, OnModelComplete(setup, s, env, sys, id, cycle))
  {
    var config, inst := setup.config, setup.config.owner[sys];
    hide TakeReport, RouteArrivals, Respond, Report, Inv, Reported, Faithful, Nearer, Remaining;
    var a := Taken(setup, s, env, sys, id, cycle);
    ReportNearer(config, s.work, inst, sys, id);
    LeaveDrained(a);
    hide Drained;
    if !Drained(a) {
      RespondDrains(setup, a, env, inst, sys, id);
      NearerChain(config, s.work, a.work, Respond(setup, a, env, inst, sys, id).work);
    }
  }

  lemma LeaveDrained(s: State)
    ensures Drained(Leave(s, true)) == Drained(s)
  {}

  lemma ContinueDrains(setup: Setup, s: State, a: State, env: Env)
    requires s.stop && a.stop && !a.earlyStopped && a.work == s.work && a.status.Running?
    requires a.exact.pendingById.Keys <= s.exact.pendingById.Keys && a.jobs.pending.Keys <= s.jobs.pending.Keys
    ensures Draining(setup, s, ContinueOrLeave(setup, a, env))
  {
    AnswerSame(setup, a, env, Continue);
    hide Answer, Remaining, Owed;
  }

  /** Every callback of a frozen run drains it. */
  lemma StepDrains(setup: Setup, s: State, event: Event, env: Env)
    requires setup.config.Valid() && setup.config.SingleEndpointMembers() && Inv(setup, s) && Contract(setup, s, event, env)
    requires s.stop && s.status.Running? && !s.earlyStopped && !Step(setup, s, event, env).status.Failed?
    ensures Draining(setup, s, Step(setup, s, event, env))
  {
    match event {
      case ModelComplete(sys, id, cycle) =>
        ModelCompleteDrains(setup, s, env, sys, id, cycle);
        hide Draining, TakeReport, Respond, Inv, Faithful;
      case ControlEvent(eventId, time) =>
        var a := s.(clock := Absolute(s.clock, time).value, exact := Completed(s.exact, eventId, time).value.0,
                    parked := if Completed(s.exact, eventId, time).value.1 then {} else s.parked);
        assert RouteArrivals(a, env) == a && a.exact.pendingById.Keys <= s.exact.pendingById.Keys;
        ContinueDrains(setup, s, a, env);
        hide Draining, ContinueOrLeave, Inv;
      case TransferComplete(job, callback) =>
        var a := s.(clock := Absolute(s.clock, callback.completion).value, jobs := Called(s.jobs, job, callback, true).value,
                    parked := if job in s.jobs.answered then s.parked else {});
        assert RouteArrivals(a, env) == a;
        ContinueDrains(setup, s, a, env);
        hide Draining, ContinueOrLeave, Inv;
    }
  }

  // ---------------------------------------------------------------- the drain ends

  predicate Changed(setup: Setup, s: State, t: State) {
    (t.work.pending, t.work.ready, Owed(setup.config, t.work), t.exact.pendingById.Keys, t.jobs.pending.Keys)
    != (s.work.pending, s.work.ready, Owed(setup.config, s.work), s.exact.pendingById.Keys, s.jobs.pending.Keys)
  }

  /** How many callbacks of a run changed what is to come. */
  function Productive(setup: Setup, s: State, events: seq<(Event, Env)>): nat
    requires setup.config.Valid()
    decreases |events|
  {
    if events == [] then 0
    else
      var t := Step(setup, s, events[0].0, events[0].1);
      (if Changed(setup, s, t) then 1 else 0) + Productive(setup, t, events[1..])
  }

  predicate Keeps(setup: Setup, s: State, events: seq<(Event, Env)>)
    requires setup.config.Valid()
    decreases |events|
  {
    events == [] ||
    (var t := Step(setup, s, events[0].0, events[0].1);
     Contract(setup, s, events[0].0, events[0].1) && !t.status.Failed? && Keeps(setup, t, events[1..]))
  }

  /** A frozen run has no more productive callbacks than there were things to come. */
  lemma {:induction false} FrozenRunEnds(setup: Setup, s: State, events: seq<(Event, Env)>)
    requires setup.config.Valid() && setup.config.SingleEndpointMembers() && Inv(setup, s)
    requires s.stop && (s.status.Running? ==> !s.earlyStopped) && !s.status.Failed? && Keeps(setup, s, events)
    ensures Productive(setup, s, events) <= ToCome(setup.config, s)
    decreases |events|
  {
    if events != [] {
      var t := Step(setup, s, events[0].0, events[0].1);
      StepKeeps(setup, s, events[0].0, events[0].1);
      if s.status.Running? {
        StepDrains(setup, s, events[0].0, events[0].1);
        DrainFalls(setup, s, t);
      }
      assert t.stop && (t.status.Running? ==> !t.earlyStopped);
      hide Inv, Step, Draining, ToCome, Contract;
      FrozenRunEnds(setup, t, events[1..]);
    }
  }

  /** A poll of a member that is ready, or that an open wave waits for, brings the end nearer. */
  lemma PollAdvances(config: Config, w: Work, inst: nat, id: int, choice: Choice)
    requires config.Valid() && config.SingleEndpointMembers() && Waves(config, w) && inst < |config.instances|
    requires !choice.engineBlocked
    requires choice.mayForm ==> w.WaveOpen(config, inst) && inst !in w.pending
    requires inst in w.ready || (inst in Missing(config, w) && w.Idle(inst))
    ensures Remaining(config, Dispatch(config, w, inst, config.instances[inst].start, id, choice).0) < Remaining(config, w)
  {
    var sys := config.instances[inst].start;
    var formed := if choice.mayForm then Form(config, w, inst, sys, id, choice.shape) else None;
    if formed.Some? {
      FormsWhenIdle(config, w, inst, sys, id, choice.shape);
      JoinRemains(config, w, inst, choice.shape.value, sys, choice.fabricBlocked);
    } else if inst in w.ready {
      PickupRemains(config, w, inst);
    } else {
      JoinRemains(config, w, inst, DummyShape, sys, choice.fabricBlocked);
    }
    hide Waves, Join, AddBatch, Launch, Remaining;
  }
}
