/** The two wakeup functions of the event loop (serving/__main__.py) against one specification.

  A wakeup source is a time somebody already knows about: a queued request's ready time, a
  memory, fabric or synchronous-swap wait, an internal event of a KV manager, the router's next
  arrival or decode handoff. The schedulers, managers and the router are read only; what their
  getters return at `current` is recorded in these views.
 */
module IdleWakeup {
  import opened Wrappers

  /** What a KV manager answers at the current time. */
  datatype ManagerView = ManagerView(internalEvent: Option<int>, swapBlocked: map<int, int>)

  datatype SchedulerView = SchedulerView(
    id: int, inflight: nat, memoryWait: Option<int>, fabricWait: Option<int>,
    head: Option<int>, manager: Option<ManagerView>)

  /** A router without a handoff wakeup getter answers None. */
  datatype RouterView = RouterView(arrival: Option<int>, handoff: Option<int>)

  function SwapWait(m: Option<ManagerView>, id: int): Option<int> {
    if m.Some? && id in m.value.swapBlocked then Some(m.value.swapBlocked[id]) else None
  }

  // ---------------------------------------------------------------- the specification

  /** A scheduler the loop must not fast-forward past: its head is ready, nothing blocks it, and it
      is not the one that was just tried. */
  predicate RunnableNow(s: SchedulerView, current: int, tried: Option<int>) {
    && s.head.Some? && s.head.value <= current
    && (s.memoryWait.None? || s.memoryWait.value <= current)
    && (SwapWait(s.manager, s.id).None? || SwapWait(s.manager, s.id).value <= current)
    && (s.fabricWait.None? || s.fabricWait.value <= current)
    && !(tried.Some? && s.id == tried.value)
  }

  /** A scheduler can run exactly when its head is ready, it was not just tried, and it waits for nothing later. */
  lemma RunsExactly(s: SchedulerView, current: int, tried: Option<int>)
    ensures RunnableNow(s, current, tried) <==>
      && s.head.Some? && s.head.value <= current && tried != Some(s.id)
      && forall t: int :: t > current ==> s.memoryWait != Some(t) && s.fabricWait != Some(t) && SwapWait(s.manager, s.id) != Some(t)
  {
    hide SwapWait;
  }

  predicate SchedulerSource(s: SchedulerView, t: int) {
    s.memoryWait == Some(t) || s.fabricWait == Some(t) || s.head == Some(t)
  }

  /** A time some scheduler, its own manager, or the router is waiting for. */
  ghost predicate Source(schedulers: seq<SchedulerView>, router: RouterView, t: int) {
    || router.arrival == Some(t)
    || router.handoff == Some(t)
    || (exists s :: s in schedulers && (SchedulerSource(s, t) || ManagerSource(s, s.manager, t)))
  }

  predicate ManagerSource(s: SchedulerView, m: Option<ManagerView>, t: int) {
    SwapWait(m, s.id) == Some(t) || (m.Some? && m.value.internalEvent == Some(t))
  }

  /** `r` is the earliest source strictly later than `current`. */
  ghost predicate EarliestSource(schedulers: seq<SchedulerView>, router: RouterView, current: int, r: Option<int>) {
    match r
    case None => forall t :: Source(schedulers, router, t) ==> t <= current
    case Some(w) =>
      && w > current && Source(schedulers, router, w)
      && forall t :: Source(schedulers, router, t) && t > current ==> w <= t
  }

  ghost predicate Idle(schedulers: seq<SchedulerView>, current: int, tried: Option<int>) {
    && (forall s :: s in schedulers ==> s.inflight == 0)
    && (forall s :: s in schedulers ==> !RunnableNow(s, current, tried))
  }

  /** Some time that this scheduler, its own manager or the router knows about. */
  predicate Knows(s: SchedulerView, router: RouterView, t: int) {
    || s.head == Some(t) || s.memoryWait == Some(t) || s.fabricWait == Some(t)
    || (s.manager.Some? && s.id in s.manager.value.swapBlocked && s.manager.value.swapBlocked[s.id] == t)
    || (s.manager.Some? && s.manager.value.internalEvent == Some(t))
    || router.arrival == Some(t) || router.handoff == Some(t)
  }

  /** An idle wakeup is no later than any later time that anybody knows about; without one there is no such time,
      and a scheduler with a ready head is the one that was just tried. */
  lemma NothingIsForgotten(schedulers: seq<SchedulerView>, router: RouterView, current: int, tried: Option<int>, r: Option<int>,
                           s: SchedulerView, t: int)
    requires Idle(schedulers, current, tried) && EarliestSource(schedulers, router, current, r) && s in schedulers
    ensures Knows(s, router, t) && t > current ==> r.Some? && current < r.value <= t
    ensures r.None? && s.head.Some? ==> s.head.value <= current && tried == Some(s.id)
  {
    if Knows(s, router, t) { KnownIsSource(schedulers, router, s, t); }
    RunsExactly(s, current, tried);
    if r.None? {
      forall u: int | u > current
        ensures s.head != Some(u) && s.memoryWait != Some(u) && s.fabricWait != Some(u) && SwapWait(s.manager, s.id) != Some(u) {
        if Knows(s, router, u) { KnownIsSource(schedulers, router, s, u); }
      }
    }
  }

  lemma KnownIsSource(schedulers: seq<SchedulerView>, router: RouterView, s: SchedulerView, t: int)
    requires s in schedulers && Knows(s, router, t)
    ensures Source(schedulers, router, t)
  {
    if router.arrival != Some(t) && router.handoff != Some(t) { assert SchedulerSource(s, t) || ManagerSource(s, s.manager, t); }
  }

  // ---------------------------------------------------------------- candidate lists

  method Consider(candidates: seq<int>, value: Option<int>, current: int) returns (r: seq<int>)
    ensures forall t :: t in r <==> t in candidates || (value == Some(t) && t > current)
  {
    r := candidates;
    if value.Some? && value.value > current {
      r := r + [value.value];
    }
  }

  method Minimum(candidates: seq<int>) returns (r: Option<int>)
    ensures r.None? <==> candidates == []
    ensures r.Some? ==> r.value in candidates && forall t :: t in candidates ==> r.value <= t
  {
    if candidates == [] {
      return None;
    }
    var least := candidates[0];
    for i := 1 to |candidates|
      invariant least in candidates
      invariant forall j :: 0 <= j < i ==> least <= candidates[j]
    {
      if candidates[i] < least {
        least := candidates[i];
      }
    }
    r := Some(least);
  }

  // ---------------------------------------------------------------- the idle wakeup

  ghost predicate QueueSource(schedulers: seq<SchedulerView>, t: int) {
    exists s :: s in schedulers && (SchedulerSource(s, t) || SwapWait(s.manager, s.id) == Some(t))
  }

  ghost predicate InternalSource(managers: set<ManagerView>, t: int) {
    exists m :: m in managers && m.internalEvent == Some(t)
  }

  /** The managers of the schedulers that have one. */
  function Managers(schedulers: seq<SchedulerView>): set<ManagerView> {
    set s | s in schedulers && s.manager.Some? :: s.manager.value
  }

  method InternalEvents(managers: set<ManagerView>, current: int) returns (candidates: seq<int>)
    ensures forall t :: t in candidates <==> InternalSource(managers, t) && t > current
  {
    candidates := [];
    var rest := managers;
    while rest != {}
      invariant rest <= managers
      invariant forall t :: t in candidates <==> InternalSource(managers - rest, t) && t > current
      decreases rest
    {
      var m :| m in rest;
      rest := rest - {m};
      ghost var before := candidates;
      candidates := Consider(candidates, m.internalEvent, current);
      forall t ensures t in candidates <==> InternalSource(managers - rest, t) && t > current {
        assert managers - rest == (managers - (rest + {m})) + {m};
      }
    }
    assert managers - {} == managers;
  }

  /** The waits of one scheduler, or no answer at all when it can run now. */
  method SchedulerWaits(s: SchedulerView, current: int, tried: Option<int>, candidates0: seq<int>)
    returns (runnable: bool, candidates: seq<int>)
    ensures runnable <==> RunnableNow(s, current, tried)
    ensures !runnable ==> forall t :: t in candidates <==>
              t in candidates0 || (t > current && (SchedulerSource(s, t) || SwapWait(s.manager, s.id) == Some(t)))
  {
    runnable, candidates := false, candidates0;
    var wait, fabricWait, swapWait := s.memoryWait, s.fabricWait, SwapWait(s.manager, s.id);
    if s.head.Some? {
      var ready := s.head.value;
      if ready <= current {
        var memoryReady := wait.None? || wait.value <= current;
        var swapReady := swapWait.None? || swapWait.value <= current;
        var fabricReady := fabricWait.None? || fabricWait.value <= current;
        var attemptedAndBlocked := tried.Some? && s.id == tried.value;
        if memoryReady && swapReady && fabricReady && !attemptedAndBlocked {
          return true, candidates;
        }
        if !memoryReady {
          candidates := candidates + [wait.value];
        }
        if fabricWait.Some? && fabricWait.value > current {
          candidates := candidates + [fabricWait.value];
        }
        if !swapReady {
          candidates := candidates + [swapWait.value];
        }
      } else {
        candidates := candidates + [ready];
        candidates := Consider(candidates, wait, current);
        candidates := Consider(candidates, swapWait, current);
        candidates := Consider(candidates, fabricWait, current);
      }
    } else {
      candidates := Consider(candidates, wait, current);
      candidates := Consider(candidates, fabricWait, current);
      candidates := Consider(candidates, swapWait, current);
    }
  }

  /** The next useful event when no instance can run now. */
  method NextIdleWakeup(current: int, schedulers: seq<SchedulerView>, router: RouterView, tried: Option<int>)
    returns (r: Option<int>)
    ensures !Idle(schedulers, current, tried) ==> r == None
    ensures Idle(schedulers, current, tried) ==> EarliestSource(schedulers, router, current, r)
  {
    if exists s :: s in schedulers && s.inflight > 0 {
      return None;
    }
    var candidates := InternalEvents(Managers(schedulers), current);
    ghost var internal := candidates;
    for i := 0 to |schedulers|
      invariant forall j :: 0 <= j < i ==> !RunnableNow(schedulers[j], current, tried)
      invariant forall t :: t in candidates <==> t in internal || (t > current && QueueSource(schedulers[..i], t))
    {
      var runnable;
      ghost var before := candidates;
      runnable, candidates := SchedulerWaits(schedulers[i], current, tried, candidates);
      if runnable {
        assert schedulers[i] in schedulers;
        return None;
      }
      forall t ensures t in candidates <==> t in internal || (t > current && QueueSource(schedulers[..i + 1], t)) {
        QueueSourceSnoc(schedulers[..i], schedulers[i], t);
        assert schedulers[..i + 1] == schedulers[..i] + [schedulers[i]];
      }
    }
    assert schedulers[..|schedulers|] == schedulers;
    candidates := Consider(candidates, router.arrival, current);
    candidates := Consider(candidates, router.handoff, current);
    forall t ensures t in candidates <==> t > current && Source(schedulers, router, t) {
      SourceSplits(schedulers, router, t);
    }
    r := Minimum(candidates);
  }

  lemma QueueSourceSnoc(schedulers: seq<SchedulerView>, s: SchedulerView, t: int)
    ensures QueueSource(schedulers + [s], t) <==> QueueSource(schedulers, t) || SchedulerSource(s, t) || SwapWait(s.manager, s.id) == Some(t)
  {
    assert forall x :: x in schedulers + [s] <==> x in schedulers || x == s;
    assert s in schedulers + [s];
  }

  lemma SourceSplits(schedulers: seq<SchedulerView>, router: RouterView, t: int)
    ensures Source(schedulers, router, t) <==>
      router.arrival == Some(t) || router.handoff == Some(t)
      || QueueSource(schedulers, t) || InternalSource(Managers(schedulers), t)
  {
    if InternalSource(Managers(schedulers), t) {
      var m :| m in Managers(schedulers) && m.internalEvent == Some(t);
      var s :| s in schedulers && s.manager == Some(m);
    }
    if s :| s in schedulers && s.manager.Some? && s.manager.value.internalEvent == Some(t) {
      assert s.manager.value in Managers(schedulers);
    }
  }

  // ---------------------------------------------------------------- the exact-control wakeup

  /** With one manager passed in, every scheduler's swap wait is asked of that manager. `hbf` is the
      full-model runtime's own next wakeup, absent without a runtime. */
  ghost predicate ExactSource(schedulers: seq<SchedulerView>, router: RouterView, m: Option<ManagerView>, hbf: Option<int>, t: int) {
    || router.arrival == Some(t)
    || router.handoff == Some(t)
    || (exists s :: s in schedulers && (SchedulerSource(s, t) || SwapWait(m, s.id) == Some(t)))
    || (m.Some? && m.value.internalEvent == Some(t))
    || hbf == Some(t)
  }

  ghost predicate EarliestExact(schedulers: seq<SchedulerView>, router: RouterView, m: Option<ManagerView>, hbf: Option<int>,
                                current: int, r: Option<int>) {
    match r
    case None => forall t :: ExactSource(schedulers, router, m, hbf, t) ==> t <= current
    case Some(w) =>
      && w > current && ExactSource(schedulers, router, m, hbf, w)
      && forall t :: ExactSource(schedulers, router, m, hbf, t) && t > current ==> w <= t
  }

  /** An exact-control wakeup is no later than any later time that anybody knows about, the runtime included. */
  lemma NoControlIsForgotten(schedulers: seq<SchedulerView>, router: RouterView, m: Option<ManagerView>, hbf: Option<int>,
                             current: int, r: Option<int>, s: SchedulerView, t: int)
    requires EarliestExact(schedulers, router, m, hbf, current, r) && s in schedulers && s.manager == m
    requires t > current && (Knows(s, router, t) || hbf == Some(t))
    ensures r.Some? && current < r.value <= t
  {
    assert SwapWait(m, s.id) == Some(t) <==> m.Some? && s.id in m.value.swapBlocked && m.value.swapBlocked[s.id] == t;
    assert ExactSource(schedulers, router, m, hbf, t);
  }

  ghost predicate ScannedSource(schedulers: seq<SchedulerView>, m: Option<ManagerView>, t: int) {
    exists s :: s in schedulers && (SchedulerSource(s, t) || SwapWait(m, s.id) == Some(t))
  }

  /** The next Python-owned event that may occur while a graph is live. */
  method NextExactControlWakeup(current: int, schedulers: seq<SchedulerView>, router: RouterView,
                                manager: Option<ManagerView>, hbf: Option<int>) returns (r: Option<int>)
    ensures EarliestExact(schedulers, router, manager, hbf, current, r)
  {
    var candidates := Consider([], router.arrival, current);
    candidates := Consider(candidates, router.handoff, current);
    ghost var routed := candidates;
    for i := 0 to |schedulers|
      invariant forall t :: t in candidates <==> t in routed || (t > current && ScannedSource(schedulers[..i], manager, t))
    {
      var s := schedulers[i];
      candidates := Consider(candidates, s.memoryWait, current);
      candidates := Consider(candidates, s.fabricWait, current);
      candidates := Consider(candidates, s.head, current);
      candidates := Consider(candidates, SwapWait(manager, s.id), current);
      forall t ensures t in candidates <==> t in routed || (t > current && ScannedSource(schedulers[..i + 1], manager, t)) {
        ScannedSnoc(schedulers[..i], s, manager, t);
        assert schedulers[..i + 1] == schedulers[..i] + [s];
      }
    }
    assert schedulers[..|schedulers|] == schedulers;
    if manager.Some? {
      candidates := Consider(candidates, manager.value.internalEvent, current);
    }
    candidates := Consider(candidates, hbf, current);
    r := Minimum(candidates);
  }

  lemma ScannedSnoc(schedulers: seq<SchedulerView>, s: SchedulerView, m: Option<ManagerView>, t: int)
    ensures ScannedSource(schedulers + [s], m, t) <==> ScannedSource(schedulers, m, t) || SchedulerSource(s, t) || SwapWait(m, s.id) == Some(t)
  {
    assert forall x :: x in schedulers + [s] <==> x in schedulers || x == s;
    assert s in schedulers + [s];
  }

  // ---------------------------------------------------------------- the two agree

  /** When every scheduler shares the manager passed in and there is no full-model runtime, an idle
      loop gets the same wakeup from both functions. */
  lemma WakeupsAgree(current: int, schedulers: seq<SchedulerView>, router: RouterView, manager: Option<ManagerView>,
                     idle: Option<int>, exact: Option<int>)
    requires schedulers != [] && forall s :: s in schedulers ==> s.manager == manager
    requires EarliestSource(schedulers, router, current, idle)
    requires EarliestExact(schedulers, router, manager, None, current, exact)
    ensures idle == exact
  {
    forall t ensures Source(schedulers, router, t) <==> ExactSource(schedulers, router, manager, None, t) {
      SourcesCoincide(schedulers, router, manager, t);
    }
    if idle.Some? {
      assert ExactSource(schedulers, router, manager, None, idle.value);
    }
    if exact.Some? {
      assert Source(schedulers, router, exact.value);
    }
  }

  lemma SourcesCoincide(schedulers: seq<SchedulerView>, router: RouterView, manager: Option<ManagerView>, t: int)
    requires schedulers != [] && forall s :: s in schedulers ==> s.manager == manager
    ensures Source(schedulers, router, t) <==> ExactSource(schedulers, router, manager, None, t)
  {
    assert schedulers[0] in schedulers;
    if s :| s in schedulers && (SchedulerSource(s, t) || ManagerSource(s, s.manager, t)) {
      assert s.manager == manager;
    }
  }
}
