/** What the runs of the HBF event loop settle: every commit in the history has exactly the outcome its
  completion demands, and a freeze is followed by a complete cohort.

  These theorems rely on routing (serving/core/router.py): it keeps at most one live request per session, and
  it does not freeze the source, which only the commit does.
 */
module HbfLoopOutcomes {
  import opened Wrappers
  import opened Sorting
  import opened Controls
  import opened TieCommit
  import opened HbfLoop
  import opened HbfLoopSafety

  ghost predicate Routes(env: Env) { env.routed.Valid() && !env.routed.frozen }

  /** Routing keeps to this in a whole run. */
  ghost predicate RoutesWell(router: Router, events: seq<(Event, Env)>) {
    router.Valid() && !router.frozen && forall i :: 0 <= i < |events| ==> Routes(events[i].1)
  }

  /** The outcomes a history demands, one per commit: before the freeze everything is handed on, after it only
      a session's last call is. */
  function Outcomes(log: seq<Action>): seq<(int, Outcome)> {
    if log == [] then []
    else
      var n := |log| - 1;
      Outcomes(log[..n])
      + if log[n].Committed? then [(log[n].item.request.id, OutcomeOf(log[n].item, Froze in log[..n], log[n].final))] else []
  }

  predicate NoCommits(log: seq<Action>) { forall a :: a in log ==> !a.Committed? }

  lemma {:induction false} OutcomesQuiet(log: seq<Action>, more: seq<Action>)
    requires NoCommits(more)
    ensures Outcomes(log + more) == Outcomes(log)
  {
    if more == [] {
      assert log + more == log;
    } else {
      var n := |more| - 1;
      OutcomesQuiet(log, more[..n]);
      assert (log + more)[..|log| + n] == log + more[..n];
      assert more[n] in more;
    }
  }

  /** The outcomes of a list of completions that are committed together. */
  function Settled(items: seq<Item>, router: Router, frozen: bool): seq<(int, Outcome)> {
    seq(|items|, k requires 0 <= k < |items| => (items[k].request.id, OutcomeOf(items[k], frozen, IsFinal(router, items[k].request.id))))
  }

  lemma {:induction false} OutcomesOfCommit(log: seq<Action>, items: seq<Item>, router: Router, time: int)
    ensures Outcomes(log + CommitLog(items, router, time)) == Outcomes(log) + Settled(items, router, Froze in log)
  {
    hide IsFinal, OutcomeOf, Settled, CommitLog;
    CommitsLast(items, router, time, Froze in log);
    if items == [] {
      assert log + CommitLog(items, router, time) == log;
      assert Outcomes(log) + [] == Outcomes(log);
    } else {
      var n := |items| - 1;
      var front := items[..n];
      OutcomesOfCommit(log, front, router, time);
      var mid, all := log + CommitLog(front, router, time), log + CommitLog(items, router, time);
      CommitsLast(front, router, time, Froze in log);
      assert all[..|mid|] == mid && |all| == |mid| + 1;
      assert Froze in mid <==> Froze in log;
    }
  }

  lemma CommitsLast(items: seq<Item>, router: Router, time: int, frozen: bool)
    ensures items == [] ==> CommitLog(items, router, time) == [] && Settled(items, router, frozen) == []
    ensures Froze !in CommitLog(items, router, time)
    ensures items != [] ==>
      var n := |items| - 1;
      var final := IsFinal(router, items[n].request.id);
      && CommitLog(items, router, time) == CommitLog(items[..n], router, time) + [Committed(items[n], time, final)]
      && Settled(items, router, frozen) == Settled(items[..n], router, frozen) + [(items[n].request.id, OutcomeOf(items[n], frozen, final))]
  {
    hide IsFinal, OutcomeOf;
  }

  // ---------------------------------------------------------------- one commit

  lemma SameFinals(r: Router, frozen: bool)
    ensures forall id :: IsFinal(r.(frozen := frozen), id) == IsFinal(r, id)
  {}

  /** A commit settles the tied completions in the order of their ids, each with its own outcome. */
  lemma CommitSettles(t: Tie, policy: Policy, gpu: seq<Request>, hbf: seq<Request>, prefill: seq<Request>)
    requires t.router.Valid() && (t.stopRequested ==> t.router.frozen) && Commit(t, policy, gpu, hbf, prefill).Ok?
    ensures |ById(Items(gpu, hbf, prefill))| == |Items(gpu, hbf, prefill)|
    ensures var after := Commit(t, policy, gpu, hbf, prefill).value;
      after.effects == t.effects + Settled(InIdOrder(Items(gpu, hbf, prefill)), t.router, after.stopRequested)
  {
    var items, reaches := Items(gpu, hbf, prefill), Reaches(t, policy, gpu, hbf, prefill);
    AcceptedCommit(t, policy, gpu, hbf, prefill);
    var byId, ids, start, frozen := ById(items), Sort(IntLe(), Ids(items)), Started(t, reaches), t.stopRequested || reaches;
    assert start.effects == t.effects && start.router.Valid() && (frozen ==> start.router.frozen);
    SameFinals(t.router, true);
    NoDuplicates(items);
    DictionaryIsKeyed(items);
    SortedIdsAreKeys(items);
    DistinctSort(IntLe(), Ids(items));
    hide Sort, ById, Ids, Items, Reaches, CommitAll, IsFinal, OutcomeOf;
    EveryCompletionOnce(start, byId, ids, frozen);
    InIdOrderAt(items);
    AccountsAreSettled(CommitAll(start, byId, ids, frozen).effects, t.effects, start.router, t.router, byId, ids, InIdOrder(items), frozen);
  }

  lemma AccountsAreSettled(effects: seq<(int, Outcome)>, before: seq<(int, Outcome)>, router: Router, same: Router,
                           byId: map<int, Item>, ids: seq<int>, items: seq<Item>, frozen: bool)
    requires Accounts(effects, before, router, byId, ids, frozen) && |items| == |ids|
    requires forall k :: 0 <= k < |ids| ==> ids[k] in byId && items[k] == byId[ids[k]] && items[k].request.id == ids[k]
    requires forall id :: IsFinal(router, id) == IsFinal(same, id)
    ensures effects == before + Settled(items, same, frozen)
  {
    hide IsFinal, OutcomeOf;
    var settled := Settled(items, same, frozen);
    forall k | 0 <= k < |ids| ensures effects[|before| + k] == settled[k] {}
    assert effects == effects[..|before|] + effects[|before|..];
    assert effects[|before|..] == settled;
  }

  /** A notification that is not frozen keeps one live request per session. */
  lemma NotifiedKeepsValid(r: Router, id: int)
    requires r.Valid() && !r.frozen
    ensures Notified(r, id).Valid() && !Notified(r, id).frozen
  {}

  lemma {:induction false} UnfrozenCommit(t: Tie, byId: map<int, Item>, ids: seq<int>)
    requires t.router.Valid() && !t.router.frozen
    requires forall id :: id in ids ==> id in byId
    ensures var r := CommitAll(t, byId, ids, false).router; r.Valid() && !r.frozen
  {
    if ids != [] {
      var n := |ids| - 1;
      var last := ids[n];
      assert last in ids;
      UnfrozenCommit(t, byId, ids[..n]);
      NotifiedKeepsValid(CommitAll(t, byId, ids[..n], false).router, byId[last].request.id);
      hide Notified, Router.Valid;
    }
  }

  lemma UnfrozenCommitKeeps(t: Tie, policy: Policy, gpu: seq<Request>, hbf: seq<Request>, prefill: seq<Request>)
    requires t.router.Valid() && !t.router.frozen && !t.stopRequested && !Reaches(t, policy, gpu, hbf, prefill)
    requires Commit(t, policy, gpu, hbf, prefill).Ok?
    ensures var after := Commit(t, policy, gpu, hbf, prefill).value; after.router.Valid() && !after.router.frozen && !after.stopRequested
  {
    var items := Items(gpu, hbf, prefill);
    SortedIdsAreKeys(items);
    hide Reaches, Sort, ById, Ids, Items, CommitAll, Router.Valid;
    UnfrozenCommit(t, ById(items), Sort(IntLe(), Ids(items)));
  }

  /** A commit keeps the router well formed, frozen exactly when the source is, and the cohort complete then. */
  lemma CommitKeepsRouter(t: Tie, policy: Policy, gpu: seq<Request>, hbf: seq<Request>, prefill: seq<Request>)
    requires t.router.Valid() && (t.stopRequested <==> t.router.frozen) && Commit(t, policy, gpu, hbf, prefill).Ok?
    requires t.stopRequested ==> BoundaryMet(t.router, policy.cohort)
    ensures var after := Commit(t, policy, gpu, hbf, prefill).value;
      && after.router.Valid() && (after.stopRequested <==> after.router.frozen)
      && (after.stopRequested ==> BoundaryMet(after.router, policy.cohort))
      && (t.stopRequested ==> after.stopRequested && after.router.released == t.router.released)
  {
    hide Commit, Reaches, Router.Valid, FinalCalls;
    if t.stopRequested {
      FrozenCommitReleasesNothing(t, policy, gpu, hbf, prefill);
    } else if Reaches(t, policy, gpu, hbf, prefill) {
      FrozenCommitReleasesNothing(t, policy, gpu, hbf, prefill);
      FreezeIsDelivered(t, policy, gpu, hbf, prefill);
    } else {
      UnfrozenCommitKeeps(t, policy, gpu, hbf, prefill);
    }
  }

  // ---------------------------------------------------------------- the invariant

  /** `r`: what had been released when the source froze, in a frozen run. */
  ghost predicate Honest(config: Config, r: Option<seq<int>>, s: State) {
    && s.tie.router.Valid() && (s.tie.stopRequested <==> s.tie.router.frozen)
    && s.tie.effects == Outcomes(s.log)
    && (s.tie.stopRequested ==> BoundaryMet(s.tie.router, config.policy.cohort))
    && (r.Some? ==> s.tie.stopRequested && s.tie.router.released == r.value)
  }

  /** Everything but a commit and a routing pass leaves router, freeze and outcomes alone. */
  ghost predicate Leaves(s: State, t: State, more: seq<Action>) {
    (t.tie.router, t.tie.stopRequested, t.tie.effects) == (s.tie.router, s.tie.stopRequested, s.tie.effects)
    && t.log == s.log + more && NoCommits(more)
  }

  lemma LeavesKeeps(config: Config, r: Option<seq<int>>, s: State, t: State, more: seq<Action>)
    requires Honest(config, r, s) && Leaves(s, t, more)
    ensures Honest(config, r, t)
  {
    OutcomesQuiet(s.log, more);
    hide Outcomes, Router.Valid, BoundaryMet;
  }

  lemma ReportedLeaves(s: State, time: int)
    ensures Leaves(s, Reported(s, time), []) && Leaves(s, Fail(s), [])
  {}

  lemma RouteHonest(config: Config, r: Option<seq<int>>, s: State, env: Env)
    requires Honest(config, r, s) && !s.tie.stopRequested && Routes(env)
    ensures Honest(config, r, Route(s, env))
  {
    OutcomesQuiet(s.log, [Routed]);
    hide Outcomes, Router.Valid;
  }

  lemma RouteOlderHonest(config: Config, r: Option<seq<int>>, s: State, env: Env)
    requires Honest(config, r, s) && Routes(env)
    ensures Honest(config, r, RouteOlder(s, env))
  {
    hide Honest, Routes, Route;
    if RouteOlder(s, env) != s { RouteHonest(config, r, s, env); }
  }

  lemma ArmTieLeaves(s: State)
    ensures Leaves(s, ArmTie(s), [])
  {
    hide BarrierArmed;
  }

  lemma AddDoneHonest(config: Config, r: Option<seq<int>>, s: State, env: Env, inst: nat, sys: int, id: int)
    requires Honest(config, r, s)
    ensures Honest(config, r, AddDone(config, s, env, inst, sys, id))
  {
    hide Honest, Tagged;
    var t := AddDone(config, s, env, inst, sys, id);
    if inst < |config.instances| && t.log != s.log {
      LeavesKeeps(config, r, s, t, DeferLog(Tagged(env.finished, if config.instances[inst].isPrefill then Prefill else Gpu), s.current));
    } else {
      AddDoneLeaves(config, s, env, inst, sys, id);
      LeavesKeeps(config, r, s, t, []);
    }
  }

  lemma AddDoneLeaves(config: Config, s: State, env: Env, inst: nat, sys: int, id: int)
    ensures var t := AddDone(config, s, env, inst, sys, id); t.log == s.log ==> Leaves(s, t, [])
  {}

  lemma ExitLeaves(s: State, env: Env)
    ensures Leaves(s, ExitIfDrained(s, env), []) || Leaves(s, ExitIfDrained(s, env), [Left])
  {}

  lemma ExitHonest(config: Config, r: Option<seq<int>>, s: State, env: Env)
    requires Honest(config, r, s)
    ensures Honest(config, r, ExitIfDrained(s, env))
  {
    ExitLeaves(s, env);
    hide Honest, Leaves, ExitIfDrained;
    if Leaves(s, ExitIfDrained(s, env), []) { LeavesKeeps(config, r, s, ExitIfDrained(s, env), []); }
    else { LeavesKeeps(config, r, s, ExitIfDrained(s, env), [Left]); }
  }

  lemma FlushHonest(config: Config, r: Option<seq<int>>, s: State, env: Env)
    requires Honest(config, r, s)
    ensures Honest(config, r, Flush(s, env))
  {
    hide Honest, Armed;
    LeavesKeeps(config, r, s, Flush(s, env), RequestLog(s.queued));
  }

  lemma RespondHonest(config: Config, r: Option<seq<int>>, s: State, env: Env, inst: nat, sys: int, id: int)
    requires Honest(config, r, s) && inst < |config.instances|
    ensures Honest(config, r, Respond(config, s, env, inst, sys, id))
  {
    hide Honest, Flush, Prefills;
    match FormBatch(config, s, env, inst, sys, id)
    case Some(t) =>
      LeavesKeeps(config, r, s, Note(t, Dispatched), [Dispatched]);
      FlushHonest(config, r, Note(t, Dispatched), env);
    case None =>
      hide MarkDone, Idle, MayBeDone;
      MarkDoneHonest(config, r, s, env, inst, sys);
      IdleHonest(config, r, s, env);
  }

  lemma MarkDoneHonest(config: Config, r: Option<seq<int>>, s: State, env: Env, inst: nat, sys: int)
    requires Honest(config, r, s) && inst < |config.instances|
    ensures Honest(config, r, MarkDone(config, s, env, inst, sys))
  {
    hide Honest, Flush, Prefills;
    var d := Asleep(config, s, inst, sys);
    LeavesKeeps(config, r, s, d, []);
    LeavesKeeps(config, r, s, Note(d, Left).(status := Exited), [Left]);
    FlushHonest(config, r, d, env);
  }

  lemma IdleHonest(config: Config, r: Option<seq<int>>, s: State, env: Env)
    requires Honest(config, r, s)
    ensures Honest(config, r, Idle(s, env))
  {
    hide Honest, Flush;
    FlushHonest(config, r, s, env);
    if Idle(s, env) != Flush(s, env) { LeavesKeeps(config, r, s, Idle(s, env), [Advanced(env.nextIdle.value)]); }
  }

  lemma ContinueHonest(config: Config, r: Option<seq<int>>, s: State, env: Env)
    requires Honest(config, r, s)
    ensures Honest(config, r, Continue(s, env))
  {
    hide Honest, Flush, ExitIfDrained;
    ExitHonest(config, r, s, env);
    FlushHonest(config, r, ExitIfDrained(s, env), env);
  }

  lemma FencedHonest(config: Config, r: Option<seq<int>>, s: State, inst: nat, sys: int, id: int)
    requires Honest(config, r, s)
    ensures Honest(config, r, Fenced(s, inst, sys, id))
  {
    ArmTieLeaves(s);
    hide Honest, ArmTie, Leaves;
    LeavesKeeps(config, r, s, ArmTie(s), []);
  }

  lemma TakeReportHonest(config: Config, r: Option<seq<int>>, s: State, env: Env, inst: nat, sys: int, id: int)
    requires Honest(config, r, s) && Routes(env)
    ensures Honest(config, r, TakeReport(config, s, env, inst, sys, id))
  {
    hide Honest, RouteOlder, Fenced, AddDone, ExitIfDrained, Routes;
    RouteOlderHonest(config, r, s, env);
    FencedHonest(config, r, RouteOlder(s, env), inst, sys, id);
    var c := Fenced(RouteOlder(s, env), inst, sys, id);
    AddDoneHonest(config, r, c, env, inst, sys, id);
    ExitHonest(config, r, AddDone(config, c, env, inst, sys, id), env);
  }

  lemma ModelCompleteHonest(config: Config, r: Option<seq<int>>, s: State, env: Env, sys: int, id: int, cycle: int)
    requires Honest(config, r, s) && Routes(env)
    ensures Honest(config, r, OnModelComplete(config, s, env, sys, id, cycle))
  {
    ReportedLeaves(s, cycle);
    var a := Reported(s, cycle);
    ReportedLeaves(a, cycle);
    hide Honest, Reported, TakeReport, Respond, Routes, Leaves;
    LeavesKeeps(config, r, s, a, []);
    LeavesKeeps(config, r, a, Fail(a), []);
    if sys in config.owner && config.owner[sys] < |config.instances| {
      var inst := config.owner[sys];
      TakeReportHonest(config, r, a, env, inst, sys, id);
      RespondHonest(config, r, TakeReport(config, a, env, inst, sys, id), env, inst, sys, id);
    }
  }

  /** The commit of a barrier callback. */
  lemma CommitTieHonest(config: Config, r: Option<seq<int>>, s: State, env: Env)
    requires Honest(config, r, s) && Routes(env) && (s.tie.stopRequested <==> Froze in s.log)
    ensures Honest(config, r, CommitTie(config, s, env))
  {
    ReportedLeaves(s, 0);
    hide Commit, InIdOrder, Items, CommitLog, BoundaryMet, Router.Valid, Outcomes, Settled, Routes, ById;
    var c := Commit(s.tie, config.policy, s.gpu, s.proxies, s.prefill);
    LeavesKeeps(config, r, s, Fail(s), []);
    if c.Ok? {
      CommitKeepsRouter(s.tie, config.policy, s.gpu, s.proxies, s.prefill);
      CommitSettles(s.tie, config.policy, s.gpu, s.proxies, s.prefill);
      StopStays(s.tie, config.policy, s.gpu, s.proxies, s.prefill);
      var froze, ordered := s.log + FreezeLog(s.tie, c.value), InIdOrder(s.Waiting());
      OutcomesQuiet(s.log, FreezeLog(s.tie, c.value));
      OutcomesOfCommit(froze, ordered, s.tie.router, s.current);
      var t := s.(tie := c.value, gpu := [], proxies := [], prefill := [], log := froze + CommitLog(ordered, s.tie.router, s.current));
      assert Froze in froze <==> c.value.stopRequested;
      assert Honest(config, r, t);
      hide Honest;
      if !c.value.stopRequested { RouteHonest(config, r, t, env); }
    }
  }

  lemma AnswerControlHonest(config: Config, r: Option<seq<int>>, s: State, env: Env, eventId: EventId)
    requires Honest(config, r, s) && Routes(env) && (s.tie.stopRequested <==> Froze in s.log)
    ensures Honest(config, r, AnswerControl(config, s, env, eventId))
  {
    ReportedLeaves(s, 0);
    hide CommitTie, ArmTie, BarrierCompleted, Completed, Routes;
    LeavesKeeps(config, r, s, Fail(s), []);
    if s.barrier.Owns(eventId) {
      if BarrierCompleted(s.barrier, eventId, s.current).Ok? {
        var b := s.(barrier := BarrierCompleted(s.barrier, eventId, s.current).value.0);
        assert Honest(config, r, b);
        hide Honest;
        CommitTieHonest(config, r, b, env);
      }
    } else if Completed(s.exact, eventId, s.current).Ok? {
      var b := s.(exact := Completed(s.exact, eventId, s.current).value.0);
      assert Honest(config, r, b);
      ArmTieLeaves(b);
      hide Honest, Leaves;
      LeavesKeeps(config, r, b, ArmTie(b), []);
    }
  }

  lemma ControlHonest(config: Config, r: Option<seq<int>>, s: State, env: Env, eventId: EventId, time: int)
    requires Honest(config, r, s) && Routes(env) && (s.tie.stopRequested <==> Froze in s.log)
    ensures Honest(config, r, OnControl(config, s, env, eventId, time))
  {
    ReportedLeaves(s, time);
    var a := Reported(s, time);
    assert a.tie == s.tie && a.log == s.log;
    hide Honest, Reported, AnswerControl, Continue, Routes, Leaves;
    LeavesKeeps(config, r, s, a, []);
    AnswerControlHonest(config, r, a, env, eventId);
    ContinueHonest(config, r, AnswerControl(config, a, env, eventId), env);
  }

  lemma HbfCompleteHonest(config: Config, r: Option<seq<int>>, s: State, env: Env, completion: int, completions: seq<Request>)
    requires Honest(config, r, s) && Routes(env)
    ensures Honest(config, r, OnHbfComplete(s, env, completion, completions))
  {
    ReportedLeaves(s, completion);
    var a := Reported(s, completion);
    hide Reported, RouteOlder, ArmTie, Continue, Routes, Honest, Tagged;
    LeavesKeeps(config, r, s, a, []);
    RouteOlderHonest(config, r, a, env);
    var b := RouteOlder(a, env);
    var c := b.(proxies := b.proxies + completions, log := b.log + DeferLog(Tagged(completions, Hbf), b.current));
    LeavesKeeps(config, r, b, c, DeferLog(Tagged(completions, Hbf), b.current));
    ArmTieLeaves(c);
    hide Leaves, DeferLog;
    LeavesKeeps(config, r, c, ArmTie(c), []);
    ContinueHonest(config, r, ArmTie(c), env);
  }

  lemma StepHonest(config: Config, r: Option<seq<int>>, s: State, event: Event, env: Env)
    requires Honest(config, r, s) && Routes(env) && (s.tie.stopRequested <==> Froze in s.log)
    ensures Honest(config, r, Step(config, s, event, env))
  {
    hide Honest, Routes, OnModelComplete, OnControl, OnHbfComplete;
    if s.status.Running? {
      match event
      case ModelComplete(sys, id, cycle) => ModelCompleteHonest(config, r, s, env, sys, id, cycle);
      case ControlEvent(eventId, time) => ControlHonest(config, r, s, env, eventId, time);
      case HbfComplete(completion, completions) => HbfCompleteHonest(config, r, s, env, completion, completions);
    }
  }

  // ---------------------------------------------------------------- every run

  lemma {:induction false} RunIsHonest(config: Config, router: Router, events: seq<(Event, Env)>)
    requires RoutesWell(router, events)
    requires !Run(config, Init(config, router), events).status.Failed?
    ensures Honest(config, None, Run(config, Init(config, router), events))
  {
    if events != [] {
      var n := |events| - 1;
      var mid := Run(config, Init(config, router), events[..n]);
      assert !mid.status.Failed?;
      RunIsSafe(config, router, events[..n]);
      hide Honest, Routes, Step, Safe;
      FrozenIsStopped(mid);
      RunIsHonest(config, router, events[..n]);
      StepHonest(config, None, mid, events[n].0, events[n].1);
    }
  }

  /** In every reachable state the router is well formed, and it is frozen exactly when the source is. */
  lemma RouterIsSound(config: Config, router: Router, events: seq<(Event, Env)>)
    requires RoutesWell(router, events) && !Run(config, Init(config, router), events).status.Failed?
    ensures var t := Run(config, Init(config, router), events).tie; t.router.Valid() && (t.stopRequested <==> t.router.frozen)
  {
    RunIsHonest(config, router, events);
    hide Run, RoutesWell, Outcomes, Router.Valid;
  }

  /** Once the source has frozen, no run ever releases another successor call. */
  lemma {:induction false} FrozenRunReleasesNothing(config: Config, router: Router, events: seq<(Event, Env)>, n: nat)
    requires RoutesWell(router, events) && n <= |events| && !Run(config, Init(config, router), events).status.Failed?
    requires Run(config, Init(config, router), events[..n]).tie.stopRequested
    ensures Honest(config, Some(Run(config, Init(config, router), events[..n]).tie.router.released), Run(config, Init(config, router), events))
    ensures Run(config, Init(config, router), events).tie.router.released == Run(config, Init(config, router), events[..n]).tie.router.released
    decreases |events|
  {
    if n == |events| {
      assert events[..n] == events;
      RunIsHonest(config, router, events);
    } else {
      var m := |events| - 1;
      var mid := Run(config, Init(config, router), events[..m]);
      var r := Some(Run(config, Init(config, router), events[..n]).tie.router.released);
      assert events[..m][..n] == events[..n];
      assert !mid.status.Failed?;
      RunIsSafe(config, router, events[..m]);
      hide Routes, Step, Safe, Outcomes, Router.Valid, BoundaryMet;
      FrozenIsStopped(mid);
      FrozenRunReleasesNothing(config, router, events[..m], n);
      StepHonest(config, r, mid, events[m].0, events[m].1);
    }
  }

  /** In every run the outcomes are those its history demands: one for each commit, in order, by the
      completion's class, by whether the source had frozen, and by its place in its session. */
  lemma OutcomesFollowHistory(config: Config, router: Router, events: seq<(Event, Env)>)
    requires RoutesWell(router, events)
    requires !Run(config, Init(config, router), events).status.Failed?
    ensures var s := Run(config, Init(config, router), events); s.tie.effects == Outcomes(s.log)
  {
    RunIsHonest(config, router, events);
    hide Run, Routes, Outcomes;
  }

  /** In every run the freeze keeps its promise: once it is in the history, the measured cohort is complete, by
      count or by required sessions, and it stays so. */
  lemma FreezeMeetsBoundary(config: Config, router: Router, events: seq<(Event, Env)>)
    requires RoutesWell(router, events)
    requires !Run(config, Init(config, router), events).status.Failed?
    requires Froze in Run(config, Init(config, router), events).log
    ensures BoundaryMet(Run(config, Init(config, router), events).tie.router, config.policy.cohort)
  {
    RunIsHonest(config, router, events);
    RunIsSafe(config, router, events);
    hide *;
    FrozenIsStopped(Run(config, Init(config, router), events));
    StoppedIsComplete(config, Run(config, Init(config, router), events));
  }

  lemma FrozenIsStopped(s: State)
    requires Safe(s)
    ensures s.tie.stopRequested <==> Froze in s.log
  {
    hide Sound, Open, At;
  }

  lemma StoppedIsComplete(config: Config, s: State)
    requires Honest(config, None, s)
    ensures s.tie.stopRequested ==> BoundaryMet(s.tie.router, config.policy.cohort)
  {
    hide Outcomes, BoundaryMet, Router.Valid;
  }

  function Deferrals(log: seq<Action>): nat {
    if log == [] then 0 else Deferrals(log[..|log| - 1]) + if log[|log| - 1].Deferred? then 1 else 0
  }

  lemma {:induction false} OpenIsUnsettled(log: seq<Action>)
    requires Sound(log)
    ensures Deferrals(log) == |Outcomes(log)| + |Open(log)|
  {
    if log != [] { OpenIsUnsettled(log[..|log| - 1]); }
  }

  /** When a run has left, there is exactly one outcome for each completion it deferred. */
  lemma LeavingSettlesAll(config: Config, router: Router, events: seq<(Event, Env)>)
    requires RoutesWell(router, events)
    requires Run(config, Init(config, router), events).status.Exited?
    ensures var s := Run(config, Init(config, router), events);
      && s.tie.effects == Outcomes(s.log) && |s.tie.effects| == Deferrals(s.log)
      && forall item, time :: Count(s.log, Deferred(item, time)) == Commits(s.log, item, time)
  {
    var s := Run(config, Init(config, router), events);
    OutcomesFollowHistory(config, router, events);
    LeavingLosesNothing(config, router, events);
    RunIsSafe(config, router, events);
    assert Sound(s.log) && Open(s.log) == multiset{} by { hide Run, Sound, Open; }
    OpenIsUnsettled(s.log);
    hide Run, Routes, Sound, Open, Outcomes, Count;
  }

  // ---------------------------------------------------------------- a run that freezes

  /** The only call of the only session ends in HBF at time 5, and the cohort is one completion. */
  const Call := Request(1, 4, 4, 8)
  const Routing := Router(map[1 := "s"], map["s" := Session(1, 1, 1)], {}, 0, false, [])
  const Measuring := Config([], map[], Policy(true, CompletionOrder(1)))
  const Calm := Env([], false, true, true, false, false, None, None, Routing)

  const OneCompletion: seq<(Event, Env)> := [(HbfComplete(5, [Call]), Calm)] + [(ControlEvent(SameTime(0), 5), Calm)]

  const Item0 := Item(Call, Hbf)

  const Deferring0 := Init(Measuring, Routing).(
    current := 5, floor := 5, barrier := Barrier(1, Some((SameTime(0), 5)), map[]), proxies := [Call],
    log := [Routed, Deferred(Item0, 5), Requested(SameTime(0))])

  const Tie0 := Tie(Router(map[], map[], {"s"}, 1, true, []), true, 8, 4, 8, 4, 1, [1], [(1, Finished(true))])

  const Left0 := Deferring0.(
    barrier := Barrier(1, None, map[SameTime(0) := 5]), proxies := [], tie := Tie0,
    log := Deferring0.log + [Froze] + [Committed(Item0, 5, true)] + [Left], status := Exited)

  lemma DeferStep()
    ensures Step(Measuring, Init(Measuring, Routing), HbfComplete(5, [Call]), Calm) == Deferring0
  {
    assert Tagged([Call], Hbf) == [Item0];
    assert DeferLog([Item0], 5) == [Deferred(Item0, 5)];
    assert RequestLog([SameTime(0)]) == [Requested(SameTime(0))];
    assert [] + [Routed] + [Deferred(Item0, 5)] + [Requested(SameTime(0))] == Deferring0.log;
  }

  lemma OneItem()
    ensures Items([], [Call], []) == [Item0] && Ids([Item0]) == [1] && Sort(IntLe(), [1]) == [1]
    ensures ById([Item0]) == map[1 := Item0] && |map[1 := Item0]| == 1
    ensures |ById([Item0])| == |[Item0]| && InIdOrder([Item0]) == [Item0]
  {
    hide Items, Ids, Sort, ById, Picked;
    OneTagged();
    OneSorted();
    OneKeyed();
    OnePicked();
  }

  lemma OneTagged()
    ensures Items([], [Call], []) == [Item0] && Ids([Item0]) == [1]
  {
    hide Picked, ById, Sort;
    assert Tagged([], Gpu) == [] && Tagged([Call], Hbf) == [Item0] && Tagged([], Prefill) == [];
  }

  lemma OneSorted()
    ensures Sort(IntLe(), [1]) == [1]
  {
    hide Ids, Items, Picked, ById;
    assert [1][1..] == [];
  }

  lemma OneKeyed()
    ensures ById([Item0]) == map[1 := Item0] && |map[1 := Item0]| == 1
  {
    hide Ids, Items, Picked, Sort;
    assert [Item0][..0] == [] && ById([]) == map[];
    assert map[][1 := Item0] == map[1 := Item0];
    assert map[1 := Item0].Keys == {1};
  }

  lemma OnePicked()
    ensures Picked(map[1 := Item0], [1]) == [Item0]
  {
    hide Ids, Items, ById, Sort;
    assert [1][..0] == [] && Picked(map[1 := Item0], []) == [];
  }

  lemma OneReaches()
    ensures Reaches(Init(Measuring, Routing).tie, Measuring.policy, [], [Call], [])
  {
    assert [] + [Call] + [] == [Call] && Terminals([]) == [] && [Call][1..] == [];
    assert FinalCalls(Routing, [Call]) == 1;
  }

  lemma OneCommitted()
    ensures CommitAll(Started(Init(Measuring, Routing).tie, true), map[1 := Item0], [1], true) == Tie0.(stopRequested := false)
  {
    var start := Started(Init(Measuring, Routing).tie, true);
    assert [1][..0] == [] && CommitAll(start, map[1 := Item0], [], true) == start;
    var r := Notified(start.router, 1);
    assert r.sessionOf == map[] && r.open == map[];
  }

  lemma CommitOfOne()
    ensures Items([], [Call], []) == [Item0] && |ById([Item0])| == 1 && InIdOrder([Item0]) == [Item0]
    ensures Commit(Init(Measuring, Routing).tie, Measuring.policy, [], [Call], []) == Ok(Tie0)
  {
    hide Items, Ids, Sort, ById, InIdOrder, Reaches, CommitAll, Started;
    OneItem();
    OneReaches();
    OneCommitted();
  }

  const Answered0 := Deferring0.(barrier := Barrier(1, None, map[SameTime(0) := 5]))

  const Settled0 := Left0.(log := Deferring0.log + [Froze] + [Committed(Item0, 5, true)], status := Running)

  lemma CommitOfTie()
    ensures CommitTie(Measuring, Answered0, Calm) == Settled0
  {
    CommitTokens();
    hide Commit, InIdOrder, ById, Items, CommitLog, FreezeLog;
    CommitOfOne();
  }

  lemma CommitTokens()
    ensures CommitLog([Item0], Routing, 5) == [Committed(Item0, 5, true)] && FreezeLog(Answered0.tie, Tie0) == [Froze]
  {}

  lemma CommitStep()
    ensures Step(Measuring, Deferring0, ControlEvent(SameTime(0), 5), Calm) == Left0
  {
    hide AnswerControl, Continue;
    AnsweredControl();
    LastAnswer();
  }

  lemma LastAnswer()
    ensures Continue(Settled0, Calm) == Left0
  {
    hide Flush;
  }

  lemma AnsweredControl()
    ensures AnswerControl(Measuring, Deferring0, Calm, SameTime(0)) == Settled0
  {
    hide CommitTie, Commit, ArmTie, Completed, BarrierCompleted;
    CommitOfTie();
    BarrierAnswers();
  }

  lemma BarrierAnswers()
    ensures Deferring0.barrier.Owns(SameTime(0)) && BarrierCompleted(Deferring0.barrier, SameTime(0), 5) == Ok((Answered0.barrier, true))
  {
    assert map[][SameTime(0) := 5] == map[SameTime(0) := 5];
  }

  /** Routing may well keep to its contract in a run that freezes, commits and leaves. */
  lemma AFreezingRun()
    ensures RoutesWell(Routing, OneCompletion)
    ensures var s := Run(Measuring, Init(Measuring, Routing), OneCompletion);
      && s == Left0 && s.status.Exited? && Froze in s.log
      && s.tie.effects == [(1, Finished(true))] && BoundaryMet(s.tie.router, Measuring.policy.cohort)
  {
    DeferStep();
    CommitStep();
    hide Step;
    assert OneCompletion[..1] == [(HbfComplete(5, [Call]), Calm)] && OneCompletion[..1][..0] == [];
    assert Run(Measuring, Init(Measuring, Routing), OneCompletion[..1]) == Deferring0;
    assert Left0.log[3] == Froze;
  }
}
