/** No run of the HBF event loop does anything between a completion and its commit. */
module HbfLoopSafety {
  import opened Wrappers
  import opened Sorting
  import opened Controls
  import opened TieCommit
  import opened HbfLoop

  /** The open completions after one more action. */
  function After(open: multiset<(Item, int)>, action: Action): multiset<(Item, int)> {
    if action.Deferred? then open + multiset{(action.item, action.time)}
    else if action.Committed? then open - multiset{(action.item, action.time)}
    else open
  }

  /** The completions a log has deferred and not yet committed, each with its timestamp. */
  function Open(log: seq<Action>): multiset<(Item, int)> {
    if log == [] then multiset{} else After(Open(log[..|log| - 1]), log[|log| - 1])
  }

  /** What an action demands of the log before it: a commit needs its own deferral at the same
      timestamp; routing, dispatching, jumping in time and leaving need every tie to be closed; and
      after the freeze nothing is routed or dispatched. */
  predicate Allowed(log: seq<Action>, action: Action) {
    match action
    case Committed(item, time, _) => (item, time) in Open(log)
    case Routed => Open(log) == multiset{} && Froze !in log
    case Dispatched => Open(log) == multiset{} && Froze !in log
    case Advanced(_) => Open(log) == multiset{}
    case Left => Open(log) == multiset{}
    case Froze => Froze !in log
    case _ => true
  }

  predicate Sound(log: seq<Action>) {
    log == [] || (Sound(log[..|log| - 1]) && Allowed(log[..|log| - 1], log[|log| - 1]))
  }

  lemma Snoc(log: seq<Action>, action: Action)
    ensures Sound(log + [action]) <==> Sound(log) && Allowed(log, action)
    ensures Open(log + [action]) == After(Open(log), action)
    ensures Froze in log + [action] <==> Froze in log || action == Froze
  {
    assert (log + [action])[..|log|] == log;
  }

  lemma SnocDeferred(log: seq<Action>, item: Item, time: int)
    requires Sound(log)
    ensures var t := log + [Deferred(item, time)];
      Sound(t) && Open(t) == Open(log) + multiset{(item, time)} && (Froze in t <==> Froze in log)
  {
    Snoc(log, Deferred(item, time));
  }

  lemma SnocCommitted(log: seq<Action>, item: Item, time: int, final: bool)
    requires Sound(log) && (item, time) in Open(log)
    ensures var t := log + [Committed(item, time, final)];
      Sound(t) && Open(t) == Open(log) - multiset{(item, time)} && (Froze in t <==> Froze in log)
  {
    Snoc(log, Committed(item, time, final));
  }

  lemma SnocRequested(log: seq<Action>, eventId: EventId)
    requires Sound(log)
    ensures var t := log + [Requested(eventId)]; Sound(t) && Open(t) == Open(log) && (Froze in t <==> Froze in log)
  {
    Snoc(log, Requested(eventId));
  }

  function At(items: seq<Item>, time: int): multiset<(Item, int)> {
    multiset(Pairs(items, time))
  }

  function Pairs(items: seq<Item>, time: int): seq<(Item, int)> {
    seq(|items|, i requires 0 <= i < |items| => (items[i], time))
  }

  lemma AtSplit(a: seq<Item>, b: seq<Item>, time: int)
    ensures At(a + b, time) == At(a, time) + At(b, time)
  {
    assert Pairs(a + b, time) == Pairs(a, time) + Pairs(b, time);
  }

  lemma {:induction false} Deferring(log: seq<Action>, items: seq<Item>, time: int)
    requires Sound(log)
    ensures var t := log + DeferLog(items, time);
      Sound(t) && Open(t) == Open(log) + At(items, time) && (Froze in t <==> Froze in log)
  {
    hide Open, Sound;
    if items == [] {
      assert log + DeferLog(items, time) == log;
    } else {
      var n := |items| - 1;
      var front, item := items[..n], items[n];
      Deferring(log, front, time);
      var mid := log + DeferLog(front, time);
      SnocDeferred(mid, item, time);
      assert log + DeferLog(items, time) == mid + [Deferred(item, time)];
      assert items == front + [item];
      AtSplit(front, [item], time);
      assert Pairs([item], time) == [(item, time)];
    }
  }

  lemma {:induction false} Committing(log: seq<Action>, items: seq<Item>, router: Router, time: int, rest: multiset<(Item, int)>)
    requires Sound(log) && Open(log) == At(items, time) + rest
    ensures var t := log + CommitLog(items, router, time); Sound(t) && Open(t) == rest && (Froze in t <==> Froze in log)
  {
    hide Open, Sound, IsFinal;
    if items == [] {
      assert log + CommitLog(items, router, time) == log;
      assert Pairs([], time) == [];
    } else {
      var n := |items| - 1;
      var front, item := items[..n], items[n];
      assert items == front + [item];
      AtSplit(front, [item], time);
      assert Pairs([item], time) == [(item, time)];
      Committing(log, front, router, time, rest + multiset{(item, time)});
      var mid := log + CommitLog(front, router, time);
      SnocCommitted(mid, item, time, IsFinal(router, item.request.id));
      assert log + CommitLog(items, router, time) == mid + [Committed(item, time, IsFinal(router, item.request.id))];
    }
  }

  lemma {:induction false} Requesting(log: seq<Action>, queued: seq<EventId>)
    requires Sound(log)
    ensures var t := log + RequestLog(queued); Sound(t) && Open(t) == Open(log) && (Froze in t <==> Froze in log)
  {
    hide Open, Sound;
    if queued == [] {
      assert log + RequestLog(queued) == log;
    } else {
      var n := |queued| - 1;
      Requesting(log, queued[..n]);
      var mid := log + RequestLog(queued[..n]);
      SnocRequested(mid, queued[n]);
      assert log + RequestLog(queued) == mid + [Requested(queued[n])];
    }
  }

  // ---------------------------------------------------------------- the invariant

  /** A completion waits only while the barrier is pending, at the barrier's own timestamp, and the
      log agrees with the lists about what waits. */
  ghost predicate Tied(now: int, barrier: Barrier, stop: bool, waiting: seq<Item>, log: seq<Action>) {
    && barrier.Valid()
    && Sound(log)
    && (stop <==> Froze in log)
    && (forall id :: id in barrier.completed ==> barrier.completed[id] <= now)
    && match barrier.pending
       case None => waiting == [] && Open(log) == multiset{}
       case Some(p) =>
         && 0 <= p.1 <= now
         && (forall id :: id in barrier.completed ==> barrier.completed[id] <= p.1)
         && Open(log) == At(waiting, p.1)
  }

  ghost predicate Safe(s: State) {
    && 0 <= s.floor == s.current
    && Tied(s.current, s.barrier, s.tie.stopRequested, s.Waiting(), s.log)
    && (s.status.Exited? ==> s.barrier.pending.None?)
  }

  lemma TiedLater(now: int, later: int, barrier: Barrier, stop: bool, waiting: seq<Item>, log: seq<Action>)
    requires now <= later && Tied(now, barrier, stop, waiting, log)
    ensures Tied(later, barrier, stop, waiting, log)
  {}

  /** Whatever the loop does besides deferring and committing, it does with the tie closed. */
  lemma TiedAct(now: int, barrier: Barrier, stop: bool, waiting: seq<Item>, log: seq<Action>, action: Action)
    requires Tied(now, barrier, stop, waiting, log) && (barrier.pending.None? || waiting == [])
    requires action.Routed? || action.Dispatched? ==> !stop
    requires !action.Deferred? && !action.Committed? && !action.Froze?
    ensures Tied(now, barrier, stop, waiting, log + [action])
  {
    Snoc(log, action);
    assert Pairs([], now) == [];
    if barrier.pending.Some? { assert Pairs([], barrier.pending.value.1) == []; }
    hide Open, Sound, Pairs;
  }

  lemma TiedRequest(now: int, barrier: Barrier, stop: bool, waiting: seq<Item>, log: seq<Action>, queued: seq<EventId>)
    requires Tied(now, barrier, stop, waiting, log)
    ensures Tied(now, barrier, stop, waiting, log + RequestLog(queued))
  {
    Requesting(log, queued);
    hide Open, Sound, RequestLog;
  }

  lemma TiedArm(now: int, barrier: Barrier, stop: bool, waiting: seq<Item>, log: seq<Action>)
    requires 0 <= now && Tied(now, barrier, stop, waiting, log) && BarrierArmed(barrier, now).Ok?
    ensures var b := BarrierArmed(barrier, now).value.0;
      Tied(now, b, stop, waiting, log) && b.pending.Some? && b.pending.value.1 == now
  {
    assert Pairs([], now) == [];
    hide Open, Sound;
  }

  lemma TiedDefer(now: int, barrier: Barrier, stop: bool, waiting: seq<Item>, log: seq<Action>, items: seq<Item>, more: seq<Item>)
    requires Tied(now, barrier, stop, waiting, log) && barrier.pending.Some? && barrier.pending.value.1 == now
    requires multiset(more) == multiset(waiting + items)
    ensures Tied(now, barrier, stop, more, log + DeferLog(items, now))
  {
    Deferring(log, items, now);
    AtSplit(waiting, items, now);
    AtOfPermutation(more, waiting + items, now);
    hide Open, Sound, DeferLog, At;
  }

  lemma {:induction false} AtOfPermutation(a: seq<Item>, b: seq<Item>, time: int)
    requires multiset(a) == multiset(b)
    ensures At(a, time) == At(b, time)
  {
    SameMembers(a, b);
    if a != [] {
      var left, right := TakeOut(b, a[0]);
      HeadAndTail(a);
      AtOfPermutation(a[1..], left + right, time);
      assert a == [a[0]] + a[1..];
      AtSplit([a[0]], a[1..], time);
      AtSplit(left, right, time);
      AtSplit(left + [a[0]], right, time);
      AtSplit(left, [a[0]], time);
    }
  }

  /** The timestamp of an answered barrier callback is that of everything that waits. */
  lemma TieTime(now: int, barrier: Barrier, stop: bool, waiting: seq<Item>, log: seq<Action>, eventId: EventId)
    requires 0 <= now && Tied(now, barrier, stop, waiting, log)
    requires barrier.Owns(eventId) && BarrierCompleted(barrier, eventId, now).Ok?
    ensures Open(log) == At(waiting, now)
  {
    assert Pairs([], now) == [];
    hide Open, Sound, Pairs;
  }

  lemma BarrierAfter(now: int, barrier: Barrier, stop: bool, waiting: seq<Item>, log: seq<Action>, eventId: EventId)
    requires 0 <= now && Tied(now, barrier, stop, waiting, log)
    requires barrier.Owns(eventId) && BarrierCompleted(barrier, eventId, now).Ok?
    ensures var b := BarrierCompleted(barrier, eventId, now).value.0;
      && b.Valid() && (forall id :: id in b.completed ==> b.completed[id] <= now)
      && (b.pending.Some? ==> 0 <= b.pending.value.1 <= now && forall id :: id in b.completed ==> b.completed[id] <= b.pending.value.1)
  {
    hide Open, Sound, At;
  }

  /** A barrier callback that is answered closes everything that waits. */
  lemma TiedClose(now: int, barrier: Barrier, stop: bool, waiting: seq<Item>, log: seq<Action>, eventId: EventId,
                  ordered: seq<Item>, router: Router)
    requires 0 <= now && Tied(now, barrier, stop, waiting, log)
    requires barrier.Owns(eventId) && BarrierCompleted(barrier, eventId, now).Ok?
    requires multiset(ordered) == multiset(waiting)
    ensures var b := BarrierCompleted(barrier, eventId, now).value.0;
      Tied(now, b, stop, [], log + CommitLog(ordered, router, now))
  {
    var b := BarrierCompleted(barrier, eventId, now).value.0;
    TieTime(now, barrier, stop, waiting, log, eventId);
    BarrierAfter(now, barrier, stop, waiting, log, eventId);
    AtOfPermutation(ordered, waiting, now);
    Committing(log, ordered, router, now, multiset{});
    assert Pairs([], now) == [];
    if b.pending.Some? { assert Pairs([], b.pending.value.1) == []; }
    hide Open, Sound, CommitLog, Pairs, BarrierCompleted, BarrierArmed;
  }

  lemma TiedFreeze(now: int, barrier: Barrier, waiting: seq<Item>, log: seq<Action>)
    requires Tied(now, barrier, false, waiting, log)
    ensures Tied(now, barrier, true, waiting, log + [Froze])
  {
    Snoc(log, Froze);
    hide Open, Sound;
  }

  // ---------------------------------------------------------------- every step keeps it

  lemma InitIsSafe(config: Config, router: Router)
    ensures Safe(Init(config, router))
  {}

  lemma ReportedKeepsSafe(s: State, time: int)
    requires Safe(s) && !Reported(s, time).status.Failed?
    ensures Safe(Reported(s, time))
  {
    if s.current <= time { TiedLater(s.current, time, s.barrier, s.tie.stopRequested, s.Waiting(), s.log); }
    hide Tied;
  }

  lemma RouteKeepsSafe(s: State, env: Env)
    requires Safe(s) && s.barrier.pending.None? && !s.tie.stopRequested
    ensures Safe(Route(s, env))
  {
    TiedAct(s.current, s.barrier, s.tie.stopRequested, s.Waiting(), s.log, Routed);
    hide Tied;
  }

  lemma RouteOlderKeepsSafe(s: State, env: Env)
    requires Safe(s)
    ensures Safe(RouteOlder(s, env))
  {
    if RouteOlder(s, env) != s { RouteKeepsSafe(s, env); }
    hide Safe, Route;
  }

  lemma ArmTieKeepsSafe(s: State)
    requires Safe(s) && s.status.Running? && ArmTie(s).status.Running?
    ensures Safe(ArmTie(s)) && ArmTie(s).barrier.pending.Some? && ArmTie(s).barrier.pending.value.1 == s.current
  {
    TiedArm(s.current, s.barrier, s.tie.stopRequested, s.Waiting(), s.log);
    hide Tied;
  }

  lemma MoreTagged(a: seq<Request>, more: seq<Request>, kind: Kind)
    ensures Tagged(a + more, kind) == Tagged(a, kind) + Tagged(more, kind)
  {}

  /** Appending to any of the three lists adds those completions to what waits. */
  lemma WaitingGrows(s: State, t: State, more: seq<Request>, kind: Kind)
    requires match kind
             case Gpu => (t.gpu, t.proxies, t.prefill) == (s.gpu + more, s.proxies, s.prefill)
             case Hbf => (t.gpu, t.proxies, t.prefill) == (s.gpu, s.proxies + more, s.prefill)
             case Prefill => (t.gpu, t.proxies, t.prefill) == (s.gpu, s.proxies, s.prefill + more)
    ensures multiset(t.Waiting()) == multiset(s.Waiting() + Tagged(more, kind))
  {
    MoreTagged(s.gpu, more, Gpu);
    MoreTagged(s.proxies, more, Hbf);
    MoreTagged(s.prefill, more, Prefill);
    SumsAgree(Tagged(s.gpu, Gpu), Tagged(s.proxies, Hbf), Tagged(s.prefill, Prefill), Tagged(more, kind));
    hide Tagged;
  }

  lemma SumsAgree(a: seq<Item>, b: seq<Item>, c: seq<Item>, more: seq<Item>)
    ensures multiset(a + more + b + c) == multiset(a + b + c + more)
    ensures multiset(a + (b + more) + c) == multiset(a + b + c + more)
    ensures multiset(a + b + (c + more)) == multiset(a + b + c + more)
  {}

  lemma AddDoneKeepsSafe(config: Config, s: State, env: Env, inst: nat, sys: int, id: int)
    requires Safe(s)
    requires IsReport(s, inst, sys, id) ==> s.barrier.pending.Some? && s.barrier.pending.value.1 == s.current
    ensures Safe(AddDone(config, s, env, inst, sys, id))
  {
    var t := AddDone(config, s, env, inst, sys, id);
    if IsReport(s, inst, sys, id) && Completes(config, s.inflight[inst], inst, sys) {
      var kind := if config.instances[inst].isPrefill then Prefill else Gpu;
      WaitingGrows(s, t, env.finished, kind);
      TiedDefer(s.current, s.barrier, s.tie.stopRequested, s.Waiting(), s.log, Tagged(env.finished, kind), t.Waiting());
    }
    hide Tied, Items, Tagged, DeferLog;
  }

  lemma ExitKeepsSafe(s: State, env: Env)
    requires Safe(s)
    ensures Safe(ExitIfDrained(s, env))
  {
    if s.barrier.pending.None? { TiedAct(s.current, s.barrier, s.tie.stopRequested, s.Waiting(), s.log, Left); }
    hide Tied;
  }

  lemma FlushFrame(s: State, env: Env)
    ensures var t := Flush(s, env);
      && (t.current, t.floor, t.barrier, t.tie, t.gpu, t.proxies, t.prefill)
         == (s.current, s.floor, s.barrier, s.tie, s.gpu, s.proxies, s.prefill)
      && t.log == s.log + RequestLog(s.queued) && (t.status == s.status || t.status.Failed?)
  {}

  lemma FlushKeepsSafe(s: State, env: Env)
    requires Safe(s)
    ensures Safe(Flush(s, env))
  {
    TiedRequest(s.current, s.barrier, s.tie.stopRequested, s.Waiting(), s.log, s.queued);
    FlushFrame(s, env);
    hide Tied, Flush, RequestLog, Items;
  }

  lemma DispatchKeepsSafe(config: Config, s: State, env: Env, inst: nat, sys: int, id: int)
    requires Safe(s) && inst < |config.instances| && FormBatch(config, s, env, inst, sys, id).Some?
    ensures Safe(Note(FormBatch(config, s, env, inst, sys, id).value, Dispatched))
  {
    TiedAct(s.current, s.barrier, s.tie.stopRequested, s.Waiting(), s.log, Dispatched);
    hide Tied;
  }

  lemma MarkDoneKeepsSafe(config: Config, s: State, env: Env, inst: nat, sys: int)
    requires Safe(s) && inst < |config.instances| && MayBeDone(config, s, env, inst)
    ensures Safe(MarkDone(config, s, env, inst, sys))
  {
    TiedAct(s.current, s.barrier, s.tie.stopRequested, s.Waiting(), s.log, Left);
    hide Tied, Flush, Prefills;
    var t := Asleep(config, s, inst, sys);
    assert Safe(t);
    FlushKeepsSafe(t, env);
  }

  lemma IdleKeepsSafe(s: State, env: Env)
    requires Safe(s)
    ensures Safe(Idle(s, env))
  {
    FlushKeepsSafe(s, env);
    if Idle(s, env) != Flush(s, env) {
      var t := env.nextIdle.value;
      TiedAct(s.current, s.barrier, s.tie.stopRequested, s.Waiting(), s.log, Advanced(t));
      TiedLater(s.current, t, s.barrier, s.tie.stopRequested, s.Waiting(), s.log + [Advanced(t)]);
    }
    hide Tied, Flush;
  }

  lemma RespondKeepsSafe(config: Config, s: State, env: Env, inst: nat, sys: int, id: int)
    requires Safe(s) && inst < |config.instances|
    ensures Safe(Respond(config, s, env, inst, sys, id))
  {
    match FormBatch(config, s, env, inst, sys, id)
    case Some(t) =>
      DispatchKeepsSafe(config, s, env, inst, sys, id);
      FlushKeepsSafe(Note(t, Dispatched), env);
      hide Safe, FormBatch, Flush, Note;
    case None =>
      if MayBeDone(config, s, env, inst) { MarkDoneKeepsSafe(config, s, env, inst, sys); } else { IdleKeepsSafe(s, env); }
      hide Safe, FormBatch, MarkDone, Idle;
  }

  lemma FencedKeepsSafe(s: State, inst: nat, sys: int, id: int)
    requires Safe(s) && s.status.Running? && Fenced(s, inst, sys, id).status.Running?
    ensures var t := Fenced(s, inst, sys, id);
      && Safe(t) && (IsReport(t, inst, sys, id) <==> IsReport(s, inst, sys, id))
      && (IsReport(t, inst, sys, id) ==> t.barrier.pending.Some? && t.barrier.pending.value.1 == t.current)
  {
    hide Safe;
    if IsReport(s, inst, sys, id) { ArmTieKeepsSafe(s); }
    assert ArmTie(s).inflight == s.inflight && ArmTie(s).current == s.current by { hide BarrierArmed; }
    hide ArmTie;
  }

  lemma TakeReportKeepsSafe(config: Config, s: State, env: Env, inst: nat, sys: int, id: int)
    requires Safe(s) && s.status.Running? && !TakeReport(config, s, env, inst, sys, id).status.Failed?
    ensures Safe(TakeReport(config, s, env, inst, sys, id))
  {
    var b := RouteOlder(s, env);
    RouteOlderKeepsSafe(s, env);
    assert b.status.Running?;
    hide RouteOlder;
    FencedKeepsSafe(b, inst, sys, id);
    var c := Fenced(b, inst, sys, id);
    assert c.status.Running? || c.status.Failed?;
    hide Fenced, IsReport, Safe;
    AddDoneKeepsSafe(config, c, env, inst, sys, id);
    ExitKeepsSafe(AddDone(config, c, env, inst, sys, id), env);
    hide AddDone, ExitIfDrained;
  }

  lemma ModelCompleteKeepsSafe(config: Config, s: State, env: Env, sys: int, id: int, cycle: int)
    requires Safe(s) && s.status.Running? && !OnModelComplete(config, s, env, sys, id, cycle).status.Failed?
    ensures Safe(OnModelComplete(config, s, env, sys, id, cycle))
  {
    var a := Reported(s, cycle);
    ReportedKeepsSafe(s, cycle);
    assert a.status.Running?;
    var inst := config.owner[sys];
    var d := TakeReport(config, a, env, inst, sys, id);
    hide Safe, Reported, TakeReport, Respond;
    TakeReportKeepsSafe(config, a, env, inst, sys, id);
    RespondKeepsSafe(config, d, env, inst, sys, id);
  }

  lemma StopStays(t: Tie, policy: Policy, gpu: seq<Request>, hbf: seq<Request>, prefill: seq<Request>)
    requires Commit(t, policy, gpu, hbf, prefill).Ok?
    ensures t.stopRequested ==> Commit(t, policy, gpu, hbf, prefill).value.stopRequested
  {}

  /** A freeze, if any, and then the commit of everything that waits. */
  lemma TiedCommit(now: int, barrier: Barrier, before: Tie, after: Tie, waiting: seq<Item>, log: seq<Action>, eventId: EventId, ordered: seq<Item>)
    requires 0 <= now && Tied(now, barrier, before.stopRequested, waiting, log) && (before.stopRequested ==> after.stopRequested)
    requires barrier.Owns(eventId) && BarrierCompleted(barrier, eventId, now).Ok? && multiset(ordered) == multiset(waiting)
    ensures var b := BarrierCompleted(barrier, eventId, now).value.0;
      Tied(now, b, after.stopRequested, [], log + FreezeLog(before, after) + CommitLog(ordered, before.router, now))
  {
    hide Tied, BarrierCompleted, CommitLog;
    assert log + [] == log;
    if after.stopRequested && !before.stopRequested { TiedFreeze(now, barrier, waiting, log); }
    TiedClose(now, barrier, after.stopRequested, waiting, log + FreezeLog(before, after), eventId, ordered, before.router);
  }

  /** Answering a barrier callback: everything that waits is committed at once. */
  lemma CommitTieKeepsSafe(config: Config, s: State, env: Env, eventId: EventId)
    requires Safe(s) && s.status.Running? && s.barrier.Owns(eventId) && BarrierCompleted(s.barrier, eventId, s.current).Ok?
    ensures var t := CommitTie(config, s.(barrier := BarrierCompleted(s.barrier, eventId, s.current).value.0), env);
      t.status.Failed? || (t.status.Running? && Safe(t))
  {
    hide Commit, InIdOrder, CommitLog, FreezeLog, BarrierCompleted, Items, Tied;
    var c := Commit(s.tie, config.policy, s.gpu, s.proxies, s.prefill);
    if c.Ok? {
      AcceptedCommit(s.tie, config.policy, s.gpu, s.proxies, s.prefill);
      StopStays(s.tie, config.policy, s.gpu, s.proxies, s.prefill);
      InIdOrderPermutes(s.Waiting());
      EmptyWaiting(s);
      var b, ordered := BarrierCompleted(s.barrier, eventId, s.current).value.0, InIdOrder(s.Waiting());
      TiedCommit(s.current, s.barrier, s.tie, c.value, s.Waiting(), s.log, eventId, ordered);
      if !c.value.stopRequested {
        TiedAct(s.current, b, false, [], s.log + FreezeLog(s.tie, c.value) + CommitLog(ordered, s.tie.router, s.current), Routed);
      }
    }
  }

  lemma EmptyWaiting(s: State)
    ensures s.(gpu := [], proxies := [], prefill := []).Waiting() == []
  {}

  lemma AnswerControlKeepsSafe(config: Config, s: State, env: Env, eventId: EventId)
    requires Safe(s) && s.status.Running?
    ensures var t := AnswerControl(config, s, env, eventId); t.status.Failed? || (t.status.Running? && Safe(t))
  {
    if s.barrier.Owns(eventId) {
      if BarrierCompleted(s.barrier, eventId, s.current).Ok? { CommitTieKeepsSafe(config, s, env, eventId); }
    } else if Completed(s.exact, eventId, s.current).Ok? {
      var b := s.(exact := Completed(s.exact, eventId, s.current).value.0);
      SafeIgnoresExact(s, b.exact);
      if ArmTie(b).status.Running? { ArmTieKeepsSafe(b); }
    }
    hide Safe, CommitTie, BarrierCompleted, Completed, BarrierArmed;
  }

  lemma SafeIgnoresExact(s: State, exact: Schedule)
    requires Safe(s)
    ensures Safe(s.(exact := exact))
  {
    hide Tied;
  }

  lemma ContinueKeepsSafe(s: State, env: Env)
    requires Safe(s)
    ensures Safe(Continue(s, env))
  {
    ExitKeepsSafe(s, env);
    FlushKeepsSafe(ExitIfDrained(s, env), env);
    hide Safe, Flush, ExitIfDrained;
  }

  lemma ControlKeepsSafe(config: Config, s: State, env: Env, eventId: EventId, time: int)
    requires Safe(s) && s.status.Running? && !OnControl(config, s, env, eventId, time).status.Failed?
    ensures Safe(OnControl(config, s, env, eventId, time))
  {
    ReportedKeepsSafe(s, time);
    var a := Reported(s, time);
    assert a.status.Running?;
    hide Reported, Safe, AnswerControl, Continue;
    AnswerControlKeepsSafe(config, a, env, eventId);
    ContinueKeepsSafe(AnswerControl(config, a, env, eventId), env);
  }

  lemma HbfCompleteKeepsSafe(s: State, env: Env, completion: int, completions: seq<Request>)
    requires Safe(s) && s.status.Running? && !OnHbfComplete(s, env, completion, completions).status.Failed?
    ensures Safe(OnHbfComplete(s, env, completion, completions))
  {
    ReportedKeepsSafe(s, completion);
    var a := Reported(s, completion);
    assert a.status.Running?;
    RouteOlderKeepsSafe(a, env);
    var b := RouteOlder(a, env);
    assert b.current == a.current && b.status.Running?;
    hide Reported, RouteOlder, Safe, Continue;
    var c := ArmTie(b.(proxies := b.proxies + completions, log := b.log + DeferLog(Tagged(completions, Hbf), b.current)));
    assert c.status.Running? || c.status.Failed?;
    hide ArmTie;
    DeferHbf(b, completions);
    ContinueKeepsSafe(c, env);
  }

  /** The completion is recorded before the barrier is armed; nothing happens in between, so the order
      does not matter. */
  lemma DeferHbf(s: State, completions: seq<Request>)
    requires Safe(s) && s.status.Running?
    requires ArmTie(s.(proxies := s.proxies + completions, log := s.log + DeferLog(Tagged(completions, Hbf), s.current))).status.Running?
    ensures Safe(ArmTie(s.(proxies := s.proxies + completions, log := s.log + DeferLog(Tagged(completions, Hbf), s.current))))
  {
    var t := s.(proxies := s.proxies + completions, log := s.log + DeferLog(Tagged(completions, Hbf), s.current));
    ArmTieKeepsSafe(s);
    var b := ArmTie(s).barrier;
    WaitingGrows(s, t, completions, Hbf);
    TiedDefer(s.current, b, s.tie.stopRequested, s.Waiting(), s.log, Tagged(completions, Hbf), t.Waiting());
    hide Tied, Items, Tagged, DeferLog;
  }

  lemma StepKeepsSafe(config: Config, s: State, event: Event, env: Env)
    requires Safe(s) && !Step(config, s, event, env).status.Failed?
    ensures Safe(Step(config, s, event, env))
  {
    if s.status.Running? {
      match event
      case ModelComplete(sys, id, cycle) => ModelCompleteKeepsSafe(config, s, env, sys, id, cycle);
      case ControlEvent(eventId, time) => ControlKeepsSafe(config, s, env, eventId, time);
      case HbfComplete(completion, completions) => HbfCompleteKeepsSafe(s, env, completion, completions);
    }
    hide Safe, OnModelComplete, OnControl, OnHbfComplete;
  }

  // ---------------------------------------------------------------- every run

  lemma {:induction false} RunIsSafe(config: Config, router: Router, events: seq<(Event, Env)>)
    requires !Run(config, Init(config, router), events).status.Failed?
    ensures Safe(Run(config, Init(config, router), events))
  {
    var s := Init(config, router);
    if events == [] {
      InitIsSafe(config, router);
    } else {
      var n := |events| - 1;
      var mid := Run(config, s, events[..n]);
      assert !mid.status.Failed?;
      RunIsSafe(config, router, events[..n]);
      StepKeepsSafe(config, mid, events[n].0, events[n].1);
      hide Safe, Step;
    }
  }

  /** In every reachable state a waiting completion implies a pending barrier. */
  lemma WaitingMeansPending(config: Config, router: Router, events: seq<(Event, Env)>)
    requires !Run(config, Init(config, router), events).status.Failed?
    ensures var s := Run(config, Init(config, router), events);
      s.gpu != [] || s.prefill != [] || s.proxies != [] ==> s.barrier.HasPending()
  {
    RunIsSafe(config, router, events);
    hide Run, Sound, Open;
  }

  /** Nothing is lost: when the run has left, every completion it deferred has been committed, as
      often as it was deferred, and at the timestamp at which it was. */
  lemma LeavingLosesNothing(config: Config, router: Router, events: seq<(Event, Env)>)
    requires Run(config, Init(config, router), events).status.Exited?
    ensures var s := Run(config, Init(config, router), events);
      && s.gpu == [] && s.prefill == [] && s.proxies == []
      && forall item, time :: Count(s.log, Deferred(item, time)) == Commits(s.log, item, time)
  {
    var s := Run(config, Init(config, router), events);
    RunIsSafe(config, router, events);
    WaitingMeansPending(config, router, events);
    forall item, time ensures Count(s.log, Deferred(item, time)) == Commits(s.log, item, time) {
      OpenCounts(s.log, item, time);
    }
    hide Run, Sound, Open, Count;
  }

  function Count(log: seq<Action>, action: Action): nat { multiset(log)[action] }

  function Commits(log: seq<Action>, item: Item, time: int): nat {
    Count(log, Committed(item, time, true)) + Count(log, Committed(item, time, false))
  }

  /** What is open is what was deferred more often than committed. */
  lemma {:induction false} OpenCounts(log: seq<Action>, item: Item, time: int)
    requires Sound(log)
    ensures Count(log, Deferred(item, time)) == Commits(log, item, time) + Open(log)[(item, time)]
  {
    if log != [] {
      var n := |log| - 1;
      assert log == log[..n] + [log[n]];
      OpenCounts(log[..n], item, time);
    }
  }

  lemma {:induction false} SoundPrefix(log: seq<Action>, j: nat)
    requires Sound(log) && j < |log|
    ensures Sound(log[..j]) && Allowed(log[..j], log[j])
    decreases |log|
  {
    var n := |log| - 1;
    if j < n {
      assert log[..n][..j] == log[..j];
      SoundPrefix(log[..n], j);
    }
  }

  lemma {:induction false} NothingOpen(log: seq<Action>, item: Item, time: int)
    requires Sound(log) && Open(log) == multiset{}
    ensures Count(log, Deferred(item, time)) == Commits(log, item, time)
  {
    OpenCounts(log, item, time);
  }

  /** Whenever a run routes arrivals, dispatches, jumps in time or leaves, every completion deferred
      before is committed; a commit always follows its own deferral at the same timestamp; and once the
      source has frozen nothing is routed or dispatched. */
  lemma TiesAreFenced(config: Config, router: Router, events: seq<(Event, Env)>, j: nat)
    requires !Run(config, Init(config, router), events).status.Failed?
    requires j < |Run(config, Init(config, router), events).log|
    ensures var log := Run(config, Init(config, router), events).log;
      && (log[j].Routed? || log[j].Dispatched? || log[j].Advanced? || log[j].Left? ==>
            forall item, time :: Count(log[..j], Deferred(item, time)) == Commits(log[..j], item, time))
      && (log[j].Committed? ==>
            Count(log[..j], Deferred(log[j].item, log[j].time)) > Commits(log[..j], log[j].item, log[j].time))
      && (log[j].Routed? || log[j].Dispatched? ==> Froze !in log[..j])
  {
    var log := Run(config, Init(config, router), events).log;
    RunIsSafe(config, router, events);
    SoundPrefix(log, j);
    if log[j].Committed? { OpenCounts(log[..j], log[j].item, log[j].time); }
    if log[j].Routed? || log[j].Dispatched? || log[j].Advanced? || log[j].Left? {
      forall item, time ensures Count(log[..j], Deferred(item, time)) == Commits(log[..j], item, time) {
        NothingOpen(log[..j], item, time);
      }
    }
    hide Run, Sound, Open, Count;
  }
}
