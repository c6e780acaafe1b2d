/** Exactly when the HBF event loop does what: when it routes, dispatches, sleeps, jumps in time, arms a wakeup and
  leaves. The conditions are about the fields of the state and what the environment answers.
 */
module HbfLoopAnswers {
  import opened Wrappers
  import opened Controls
  import opened TieCommit
  import opened HbfLoop

  // ---------------------------------------------------------------- routing and reports

  /** Older arrivals are routed at a callback exactly when the source runs, no tie is open and time has begun. */
  lemma RoutesWhenOpen(s: State, env: Env)
    ensures RouteOlder(s, env).tie.router
         == if !s.tie.stopRequested && s.barrier.pending.None? && s.proxies == [] && s.current > 0 then env.routed else s.tie.router
    ensures RouteOlder(s, env) != s ==> RouteOlder(s, env) == s.(tie := s.tie.(router := env.routed), log := s.log + [Routed])
  {}

  /** The first and the last NPU of an instance report; a prefill graph spans its decode peer. */
  function Reporters(i: Instance): set<int> {
    {i.startNpu, if i.isPrefill then i.startNpu + 2 * i.npus - 1 else i.startNpu + i.npus - 1}
  }

  /** A report is recorded when it names the batch in flight and is this endpoint's first; the batch ends, and its
      requests wait for the barrier, when both endpoints have reported. */
  lemma ReportEffect(config: Config, s: State, env: Env, inst: nat, sys: int, id: int)
    requires inst < |config.instances|
    ensures var t := AddDone(config, s, env, inst, sys, id);
      if !(inst in s.inflight && s.inflight[inst].id == id - 1 && sys !in s.inflight[inst].ends) then t == s
      else
        var b, i := s.inflight[inst], config.instances[inst];
        if !(Reporters(i) <= b.ends + {sys}) then t == s.(inflight := s.inflight[inst := b.(ends := b.ends + {sys})])
        else
          && t.inflight == s.inflight - {inst}
          && t.prefill == s.prefill + (if i.isPrefill then env.finished else [])
          && t.gpu == s.gpu + (if i.isPrefill then [] else env.finished)
          && t.tie == s.tie.(requestCount := s.tie.requestCount + (if i.isPrefill then 0 else |env.finished|))
  {
    hide Tagged, DeferLog;
    if inst in s.inflight {
      var b, i := s.inflight[inst], config.instances[inst];
      assert Reporters(i) <= b.ends + {sys} <==> i.startNpu in b.ends + {sys} && i.LastNpu() in b.ends + {sys};
      assert s.gpu + [] == s.gpu && s.prefill + [] == s.prefill;
    }
  }

  /** Whether the barrier can close at this instant: none is pending at another one. */
  predicate CanArm(s: State) { s.barrier.pending.Some? ==> s.barrier.pending.value.1 == s.current }

  /** Every first report of an endpoint arms the barrier at its time, whether or not it ends the batch. */
  lemma FencesExactly(s: State, inst: nat, sys: int, id: int)
    requires s.status.Running? && s.current >= 0
    ensures var t := Fenced(s, inst, sys, id);
      if inst in s.inflight && s.inflight[inst].id == id - 1 && sys !in s.inflight[inst].ends then
        && (t.status.Running? <==> CanArm(s))
        && (t.status.Running? ==> t.barrier.pending.Some? && t.barrier.pending.value.1 == s.current)
        && t == s.(barrier := t.barrier, queued := t.queued, status := t.status)
      else t == s
  {
    hide BarrierArmed;
    ArmsExactly(s.barrier, s.current);
  }

  /** An HBF completion first routes older arrivals, then waits with the others for the barrier of its time. */
  lemma HbfWaitsExactly(s: State, env: Env, completion: int, completions: seq<Request>)
    requires s.status.Running? && completion >= 0 && completion >= s.floor
    ensures var a := s.(current := completion, floor := completion);
      var b, t := RouteOlder(a, env), OnHbfComplete(s, env, completion, completions);
      (!CanArm(b) ==> t.status.Failed?)
      && (CanArm(b) ==>
            && t.proxies == s.proxies + completions && (t.gpu, t.prefill, t.inflight) == (s.gpu, s.prefill, s.inflight)
            && t.barrier.pending.Some? && t.barrier.pending.value.1 == completion
            && t.tie == b.tie && (t.current, t.floor) == (completion, completion))
  {
    hide RouteOlder, ArmTie, Continue, Tagged, DeferLog;
    var b := RouteOlder(s.(current := completion, floor := completion), env);
    RouteKeeps(s.(current := completion, floor := completion), env);
    var c := b.(proxies := b.proxies + completions, log := b.log + DeferLog(Tagged(completions, Hbf), b.current));
    ArmTieExactly(c);
    ContinueFrame(ArmTie(c), env);
  }

  lemma RouteKeeps(s: State, env: Env)
    ensures var t := RouteOlder(s, env); t == s.(tie := t.tie, log := t.log)
  {}

  lemma ArmTieExactly(s: State)
    requires s.status.Running? && s.current >= 0
    ensures var t := ArmTie(s);
      && t == s.(barrier := t.barrier, queued := t.queued, status := t.status)
      && (if CanArm(s) then t.status.Running? && t.barrier.pending.Some? && t.barrier.pending.value.1 == s.current else t.status.Failed?)
  {
    hide BarrierArmed;
    ArmsExactly(s.barrier, s.current);
  }

  predicate SameWaiting(s: State, t: State) {
    (t.proxies, t.gpu, t.prefill, t.inflight, t.barrier, t.tie, t.current, t.floor)
    == (s.proxies, s.gpu, s.prefill, s.inflight, s.barrier, s.tie, s.current, s.floor)
  }

  lemma ContinueFrame(s: State, env: Env)
    ensures SameWaiting(s, Continue(s, env))
  {
    hide Flush;
    FlushFrame(s, env);
    FlushFrame(ExitIfDrained(s, env), env);
  }

  lemma FlushFrame(s: State, env: Env)
    ensures SameWaiting(s, Flush(s, env))
  {
    hide Armed, RequestLog;
  }

  // ---------------------------------------------------------------- control callbacks

  /** The barrier's callback commits what waits, clears the three lists, and routes arrivals unless the source is
      frozen now; a duplicate request is an error. */
  lemma CommitsExactly(config: Config, s: State, env: Env)
    ensures var c, t := Commit(s.tie, config.policy, s.gpu, s.proxies, s.prefill), CommitTie(config, s, env);
      if c.Err? then t == s.(status := Failed)
      else
        && t.gpu == [] && t.proxies == [] && t.prefill == []
        && t.tie == (if c.value.stopRequested then c.value else c.value.(router := env.routed))
        && (t.inflight, t.barrier, t.exact, t.current, t.status) == (s.inflight, s.barrier, s.exact, s.current, s.status)
  {
    hide Commit, InIdOrder, CommitLog, FreezeLog;
  }

  /** A control callback that is not the barrier's own closes an exact-time control and arms the barrier at its
      time, so that completions of the same instant are committed together; any other one is an error. */
  lemma ControlsExactly(config: Config, s: State, env: Env, eventId: EventId)
    requires s.status.Running? && s.current >= 0 && s.barrier.Valid()
    requires !(s.barrier.pending.Some? && s.barrier.pending.value.0 == eventId) && eventId !in s.barrier.completed
    ensures var c, t := Completed(s.exact, eventId, s.current), AnswerControl(config, s, env, eventId);
      (t.status.Running? <==> c.Ok? && CanArm(s))
      && (t.status.Running? ==>
            && t.exact == c.value.0 && t.barrier.pending.Some? && t.barrier.pending.value.1 == s.current
            && (t.tie, t.gpu, t.proxies, t.prefill, t.inflight, t.log) == (s.tie, s.gpu, s.proxies, s.prefill, s.inflight, s.log)
            && t.queued == s.queued + if s.barrier.pending.None? then [t.barrier.pending.value.0] else [])
  {
    hide Completed, BarrierArmed;
    ArmsExactly(s.barrier, s.current);
    assert s.queued + [] == s.queued;
  }

  lemma ArmsExactly(b: Barrier, now: int)
    requires now >= 0
    ensures var r := BarrierArmed(b, now);
      (r.Ok? <==> b.pending.Some? ==> b.pending.value.1 == now)
      && (r.Ok? ==> var t := r.value.0;
            && t.pending.Some? && t.pending.value.1 == now
            && r.value.1 == if b.pending.None? then Some(t.pending.value.0) else None)
  {}

  // ---------------------------------------------------------------- leaving and arming

  /** Nothing that was issued is owed. */
  predicate NothingOwed(s: State, env: Env) {
    s.inflight == map[] && s.exact.pendingById == map[] && !env.adapterBusy && s.proxies == [] && s.barrier.pending.None?
  }

  /** A frozen run leaves at the first callback after which nothing is owed. */
  lemma LeavesWhenDrained(s: State, env: Env)
    requires s.status.Running?
    ensures ExitIfDrained(s, env) == if s.tie.stopRequested && NothingOwed(s, env) then s.(log := s.log + [Left], status := Exited) else s
  {}

  /** An ordinary answer of a run that goes on arms a known later wakeup whenever the backend has something else
      to do. */
  lemma FlushArms(s: State, env: Env)
    requires s.status.Running? && s.current >= 0
    ensures var t := Flush(s, env);
      !s.tie.stopRequested && !NothingOwed(s, env) && env.nextExact.Some? && env.nextExact.value > s.current
      ==> t.status.Running? && env.nextExact.value in t.exact.pendingByTime
    ensures s.tie.stopRequested || NothingOwed(s, env) || env.nextExact.None? ==> Flush(s, env).exact == s.exact
  {
    hide RequestLog, Armed;
    if env.nextExact.Some? && env.nextExact.value > s.current { ArmedLater(s.exact, env.nextExact.value, s.current); }
  }

  lemma ArmedLater(s: Schedule, time: int, now: int)
    requires 0 <= now < time
    ensures Armed(s, time, now).Ok? && time in Armed(s, time, now).value.0.pendingByTime
  {}

  lemma FlushRuns(s: State, env: Env)
    ensures var t := Flush(s, env);
      (t.status == s.status || t.status.Failed?) && (t.doneNpus, t.done, t.prefillDone) == (s.doneNpus, s.done, s.prefillDone)
  {
    hide RequestLog, Armed;
  }

  lemma FlushSends(s: State, env: Env)
    ensures var t := Flush(s, env); t.queued == [] && t.log == s.log + RequestLog(s.queued)
  {
    hide RequestLog, Armed;
  }

  // ---------------------------------------------------------------- the answer to a model report

  /** The scheduler is asked only while the source runs and no tie is open; a first endpoint forms the next batch
      when the instance is idle, another one picks up the batch it has not been given. */
  predicate HasWork(config: Config, s: State, env: Env, inst: nat, sys: int, id: int)
    requires inst < |config.instances|
  {
    && s.barrier.pending.None? && !s.tie.stopRequested
    && if sys == config.instances[inst].startNpu then inst !in s.inflight && env.formsBatch
       else inst in s.inflight && s.inflight[inst].id == id && sys !in s.inflight[inst].fired
  }

  /** The instance has nothing left to do: decode waits for the end of prefill. */
  predicate IsOver(config: Config, s: State, env: Env, inst: nat)
    requires inst < |config.instances|
  {
    && (config.instances[inst].isPrefill || s.prefillDone) && inst !in s.done
    && env.queueEmpty && env.routerIdle && !env.adapterBusy
    && inst !in s.inflight && s.gpu == [] && s.proxies == [] && s.barrier.pending.None?
  }

  /** Time may jump: a later source is known and the backend owes nothing. */
  predicate CanJump(s: State, env: Env) {
    && env.nextIdle.Some? && env.nextIdle.value > s.current
    && s.inflight == map[] && !env.astraJobs && s.exact.pendingById == map[] && s.barrier.pending.None?
  }

  lemma Dispatches(config: Config, s: State, env: Env, inst: nat, sys: int, id: int)
    requires inst < |config.instances|
    ensures var formed := FormBatch(config, s, env, inst, sys, id);
      && (formed.Some? <==> HasWork(config, s, env, inst, sys, id))
      && (formed.Some? ==>
            var t, next := formed.value, if inst in s.lastId then s.lastId[inst] + 1 else 0;
            if sys == config.instances[inst].startNpu then
              t == s.(lastId := s.lastId[inst := next], inflight := s.inflight[inst := Batch(next, {}, {sys})])
            else t == s.(inflight := s.inflight[inst := s.inflight[inst].(fired := s.inflight[inst].fired + {sys})]))
  {}

  /** After its report has been recorded, a poll dispatches, puts an endpoint to sleep, jumps to the next known
      source of work, or is told to go on. Each happens exactly under its condition. */
  lemma AnswersExactly(config: Config, s: State, env: Env, inst: nat, sys: int, id: int)
    requires inst < |config.instances| && s.status.Running?
    ensures var t, told := Respond(config, s, env, inst, sys, id), RequestLog(s.queued);
      if HasWork(config, s, env, inst, sys, id) then
        t.log == s.log + [Dispatched] + told && t == Flush(FormBatch(config, s, env, inst, sys, id).value.(log := s.log + [Dispatched]), env)
      else if IsOver(config, s, env, inst) then SleepsExactly(config, s, env, inst, sys, t)
      else if CanJump(s, env) then
        t == s.(current := env.nextIdle.value, floor := env.nextIdle.value, log := s.log + [Advanced(env.nextIdle.value)])
      else t == Flush(s, env) && t.log == s.log + told
  {
    hide Armed, RequestLog, SleepsExactly, MarkDone, FormBatch, HasWork, Flush;
    FlushSends(s, env);
    Dispatches(config, s, env, inst, sys, id);
    var formed := FormBatch(config, s, env, inst, sys, id);
    if formed.Some? { FlushSends(Note(formed.value, Dispatched), env); }
    MarkDoneSleeps(config, s, env, inst, sys);
  }

  /** One endpoint goes to sleep; both of them finish the instance, and the last instance ends the run. The decode
      stage is released when as many instances are finished as there are prefill instances. */
  predicate SleepsExactly(config: Config, s: State, env: Env, inst: nat, sys: int, t: State)
    requires inst < |config.instances|
  {
    var asleep := (if inst in s.doneNpus then s.doneNpus[inst] else {}) + {sys};
    var done := s.done + if |asleep| == (if config.instances[inst].npus == 1 then 1 else 2) then [inst] else [];
    && t.doneNpus == s.doneNpus[inst := asleep] && t.done == done
    && (t.prefillDone <==> s.prefillDone || |done| == |set i | 0 <= i < |config.instances| && config.instances[i].isPrefill|)
    && (if |done| == |config.instances| then t.status.Exited? && t.log == s.log + [Left]
        else !t.status.Exited? && t.log == s.log + RequestLog(s.queued))
  }

  lemma MarkDoneSleeps(config: Config, s: State, env: Env, inst: nat, sys: int)
    requires inst < |config.instances| && s.status.Running?
    ensures SleepsExactly(config, s, env, inst, sys, MarkDone(config, s, env, inst, sys))
  {
    hide RequestLog, Flush;
    FlushSends(Asleep(config, s, inst, sys), env);
    FlushRuns(Asleep(config, s, inst, sys), env);
    assert {} + {sys} == {sys} && s.done + [] == s.done;
  }
}
