/** The barrier's callback is asked for: once a completion waits, the backend has been told exactly once to
  call back after the endpoints of that timestamp. */
module HbfLoopRequests {
  import opened Wrappers
  import opened Sorting
  import opened Controls
  import opened TieCommit
  import opened HbfLoop

  /** How often the callback was asked for. */
  function Asked(log: seq<Action>, id: EventId): nat { multiset(log)[Requested(id)] }

  /** The pending barrier's command is either queued or sent, once; callbacks not armed yet were never asked
      for. */
  ghost predicate Told(b: Barrier, queued: seq<EventId>, log: seq<Action>) {
    && (b.pending.None? ==> queued == [])
    && (b.pending.Some? ==>
          b.sequence > 0 && b.pending.value.0 == SameTime(b.sequence - 1)
          && if queued == [] then Asked(log, b.pending.value.0) == 1
             else queued == [b.pending.value.0] && Asked(log, b.pending.value.0) == 0)
    && (forall n: nat :: n >= b.sequence ==> Asked(log, SameTime(n)) == 0)
  }

  ghost predicate Quiet(log: seq<Action>) { forall a :: a in log ==> !a.Requested? }

  lemma AskedAppend(log: seq<Action>, more: seq<Action>)
    requires Quiet(more)
    ensures forall id :: Asked(log + more, id) == Asked(log, id)
  {
    forall id ensures Asked(log + more, id) == Asked(log, id) {
      assert Requested(id) !in more;
      assert multiset(log + more) == multiset(log) + multiset(more);
    }
  }

  lemma ToldQuietly(b: Barrier, queued: seq<EventId>, log: seq<Action>, more: seq<Action>)
    requires Told(b, queued, log) && Quiet(more)
    ensures Told(b, queued, log + more)
  {
    AskedAppend(log, more);
    hide Asked;
  }

  lemma ToldArm(b: Barrier, queued: seq<EventId>, log: seq<Action>, now: int)
    requires Told(b, queued, log) && BarrierArmed(b, now).Ok?
    ensures var v := BarrierArmed(b, now).value;
      Told(v.0, if v.1.Some? then queued + [v.1.value] else queued, log)
  {
    hide Asked;
  }

  lemma ToldSend(b: Barrier, queued: seq<EventId>, log: seq<Action>)
    requires Told(b, queued, log)
    ensures Told(b, [], log + RequestLog(queued))
  {
    if queued == [] {
      assert log + RequestLog(queued) == log;
    } else {
      assert RequestLog(queued) == [Requested(queued[0])];
      forall id ensures Asked(log + RequestLog(queued), id) == Asked(log, id) + if id == queued[0] then 1 else 0 {
        assert multiset(log + RequestLog(queued)) == multiset(log) + multiset{Requested(queued[0])};
      }
      hide Asked, RequestLog;
    }
  }

  lemma ToldComplete(b: Barrier, log: seq<Action>, id: EventId, now: int)
    requires Told(b, [], log) && BarrierCompleted(b, id, now).Ok?
    ensures Told(BarrierCompleted(b, id, now).value.0, [], log)
  {
    hide Asked;
  }

  // ---------------------------------------------------------------- the steps

  ghost predicate Informed(s: State) { Told(s.barrier, s.queued, s.log) }

  /** Between callbacks nothing is left in the queue. */
  ghost predicate Delivered(s: State) { Informed(s) && s.queued == [] }

  lemma FlushDelivers(s: State, env: Env)
    requires Informed(s)
    ensures Delivered(Flush(s, env))
  {
    ToldSend(s.barrier, s.queued, s.log);
    hide Told, RequestLog, Armed;
  }

  lemma NoteInforms(s: State, action: Action)
    requires Informed(s) && !action.Requested?
    ensures Informed(Note(s, action))
  {
    ToldQuietly(s.barrier, s.queued, s.log, [action]);
    hide Told;
  }

  lemma RouteOlderInforms(s: State, env: Env)
    requires Informed(s)
    ensures Informed(RouteOlder(s, env)) && RouteOlder(s, env).queued == s.queued
  {
    ToldQuietly(s.barrier, s.queued, s.log, [Routed]);
    hide Told;
  }

  lemma ArmTieInforms(s: State)
    requires Informed(s)
    ensures ArmTie(s).status.Failed? || Informed(ArmTie(s))
  {
    if BarrierArmed(s.barrier, s.current).Ok? { ToldArm(s.barrier, s.queued, s.log, s.current); }
    hide Told, BarrierArmed;
  }

  lemma AddDoneInforms(config: Config, s: State, env: Env, inst: nat, sys: int, id: int)
    requires Informed(s)
    ensures Informed(AddDone(config, s, env, inst, sys, id))
  {
    ToldQuietly(s.barrier, s.queued, s.log, DeferLog(Tagged(env.finished, Prefill), s.current));
    ToldQuietly(s.barrier, s.queued, s.log, DeferLog(Tagged(env.finished, Gpu), s.current));
    hide Told, DeferLog;
  }

  lemma ExitInforms(s: State, env: Env)
    requires Informed(s)
    ensures Informed(ExitIfDrained(s, env))
  {
    NoteInforms(s, Left);
    hide Informed;
  }

  lemma ContinueDelivers(s: State, env: Env)
    requires Informed(s)
    ensures var t := Continue(s, env); t.status.Running? ==> Delivered(t)
  {
    ExitInforms(s, env);
    FlushDelivers(ExitIfDrained(s, env), env);
    hide Informed, Flush, ExitIfDrained;
  }

  lemma RespondDelivers(config: Config, s: State, env: Env, inst: nat, sys: int, id: int)
    requires Informed(s) && inst < |config.instances|
    ensures var t := Respond(config, s, env, inst, sys, id); t.status.Running? ==> Delivered(t)
  {
    hide Told, Flush, Prefills;
    match FormBatch(config, s, env, inst, sys, id)
    case Some(t) =>
      assert Informed(t);
      NoteInforms(t, Dispatched);
      FlushDelivers(Note(t, Dispatched), env);
    case None =>
      FlushDelivers(s, env);
      FlushDelivers(Asleep(config, s, inst, sys), env);
      if Idle(s, env) != Flush(s, env) { ToldQuietly(s.barrier, s.queued, s.log, [Advanced(env.nextIdle.value)]); NothingQueued(s); }
  }

  lemma NothingQueued(s: State)
    requires Informed(s) && s.barrier.pending.None?
    ensures s.queued == []
  {}

  lemma ModelCompleteDelivers(config: Config, s: State, env: Env, sys: int, id: int, cycle: int)
    requires Delivered(s) && s.status.Running?
    ensures var t := OnModelComplete(config, s, env, sys, id, cycle); t.status.Running? ==> Delivered(t)
  {
    hide Told, TakeReport, Respond;
    var a := Reported(s, cycle);
    assert Informed(a);
    hide Informed, Delivered, Reported;
    if !a.status.Failed? && sys in config.owner && config.owner[sys] < |config.instances| {
      var d := TakeReport(config, a, env, config.owner[sys], sys, id);
      TakeReportInforms(config, a, env, config.owner[sys], sys, id);
      if d.status.Running? { RespondDelivers(config, d, env, config.owner[sys], sys, id); }
    }
  }

  lemma TakeReportInforms(config: Config, s: State, env: Env, inst: nat, sys: int, id: int)
    requires Informed(s)
    ensures var t := TakeReport(config, s, env, inst, sys, id); t.status.Failed? || Informed(t)
  {
    hide Informed, RouteOlder, ArmTie, AddDone, ExitIfDrained;
    RouteOlderInforms(s, env);
    ArmTieInforms(RouteOlder(s, env));
    var c := Fenced(RouteOlder(s, env), inst, sys, id);
    if Informed(c) {
      AddDoneInforms(config, c, env, inst, sys, id);
      ExitInforms(AddDone(config, c, env, inst, sys, id), env);
    }
  }

  lemma ControlDelivers(config: Config, s: State, env: Env, eventId: EventId, time: int)
    requires Delivered(s) && s.status.Running?
    ensures var t := OnControl(config, s, env, eventId, time); t.status.Running? ==> Delivered(t)
  {
    var a := Reported(s, time);
    assert Delivered(a) by { hide Told; }
    AnswerControlInforms(config, a, env, eventId);
    hide Delivered, Informed, AnswerControl, Continue, Reported;
    if AnswerControl(config, a, env, eventId).status.Running? { ContinueDelivers(AnswerControl(config, a, env, eventId), env); }
  }

  lemma AnswerControlInforms(config: Config, s: State, env: Env, eventId: EventId)
    requires Delivered(s)
    ensures var t := AnswerControl(config, s, env, eventId); t.status.Failed? || Informed(t)
  {
    hide Told, BarrierCompleted, Completed, ArmTie, CommitTie;
    if s.barrier.Owns(eventId) {
      if BarrierCompleted(s.barrier, eventId, s.current).Ok? {
        ToldComplete(s.barrier, s.log, eventId, s.current);
        CommitTieInforms(config, s.(barrier := BarrierCompleted(s.barrier, eventId, s.current).value.0), env);
      }
    } else if Completed(s.exact, eventId, s.current).Ok? {
      ArmTieInforms(s.(exact := Completed(s.exact, eventId, s.current).value.0));
    }
  }

  lemma CommitTieInforms(config: Config, s: State, env: Env)
    requires Informed(s)
    ensures var t := CommitTie(config, s, env); t.status.Failed? || Informed(t)
  {
    var c := Commit(s.tie, config.policy, s.gpu, s.proxies, s.prefill);
    if c.Ok? {
      var commits, froze := CommitLog(InIdOrder(s.Waiting()), s.tie.router, s.current), FreezeLog(s.tie, c.value);
      hide Told, Commit, InIdOrder, Items;
      ToldQuietly(s.barrier, s.queued, s.log, froze);
      ToldQuietly(s.barrier, s.queued, s.log + froze, commits);
      ToldQuietly(s.barrier, s.queued, s.log + froze + commits, [Routed]);
      hide CommitLog;
    }
  }

  lemma HbfCompleteDelivers(s: State, env: Env, completion: int, completions: seq<Request>)
    requires Delivered(s) && s.status.Running?
    ensures var t := OnHbfComplete(s, env, completion, completions); t.status.Running? ==> Delivered(t)
  {
    hide Told, Continue, BarrierArmed, RouteOlder;
    var a := Reported(s, completion);
    assert Informed(a);
    RouteOlderInforms(a, env);
    var b := RouteOlder(a, env);
    ToldQuietly(b.barrier, b.queued, b.log, DeferLog(Tagged(completions, Hbf), b.current));
    var c := b.(proxies := b.proxies + completions, log := b.log + DeferLog(Tagged(completions, Hbf), b.current));
    ArmTieInforms(c);
    hide Informed, ArmTie, DeferLog;
    if ArmTie(c).status.Running? { ContinueDelivers(ArmTie(c), env); }
  }

  lemma StepDelivers(config: Config, s: State, event: Event, env: Env)
    requires s.status.Running? ==> Delivered(s)
    ensures Step(config, s, event, env).status.Running? ==> Delivered(Step(config, s, event, env))
  {
    hide Delivered, OnModelComplete, OnControl, OnHbfComplete;
    if s.status.Running? {
      match event
      case ModelComplete(sys, id, cycle) => ModelCompleteDelivers(config, s, env, sys, id, cycle);
      case ControlEvent(eventId, time) => ControlDelivers(config, s, env, eventId, time);
      case HbfComplete(completion, completions) => HbfCompleteDelivers(s, env, completion, completions);
    }
  }

  lemma {:induction false} RunDelivers(config: Config, router: Router, events: seq<(Event, Env)>)
    ensures var s := Run(config, Init(config, router), events); s.status.Running? ==> Delivered(s)
  {
    if events != [] {
      var n := |events| - 1;
      RunDelivers(config, router, events[..n]);
      hide Delivered, Step;
      StepDelivers(config, Run(config, Init(config, router), events[..n]), events[n].0, events[n].1);
    }
  }

  /** In every reachable state the callback of a pending barrier has been requested from the backend, and
      exactly once: no tie waits for a callback nobody asked for. */
  lemma PendingBarrierIsRequested(config: Config, router: Router, events: seq<(Event, Env)>)
    requires Run(config, Init(config, router), events).status.Running?
    ensures var s := Run(config, Init(config, router), events);
      s.barrier.pending.Some? ==> Asked(s.log, s.barrier.pending.value.0) == 1
  {
    RunDelivers(config, router, events);
    hide Run, Asked;
  }
}
