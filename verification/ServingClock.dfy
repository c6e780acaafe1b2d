/** Jumps in time: the absolute advance of the analytical backends, and the offset adjustment of the
  polling ones (serving/__main__.py, lines 186-235 and 2655-2690). */
module ServingClock {
  import opened Wrappers
  import opened Controls
  import opened DpWaves
  import opened Serving
  import opened ServingSafety
  import opened ServingRuns
  import opened ServingLimits
  import opened ServingPolls
  import IdleWakeup

  /** The last answer, if it was an advance, went to the next idle wakeup with nothing in flight. */
  ghost predicate Jumped(now: int, env: Env, t: State) {
    t.sent != [] && t.sent[|t.sent| - 1].AdvanceTo? ==>
      && env.nextIdle == Some(t.sent[|t.sent| - 1].time) && env.nextIdle.value > now
      && t.clock.current == t.clock.floor == env.nextIdle.value
      && t.work.inflight == map[] && !t.jobs.HasPending() && !t.exact.HasPending()
  }

  lemma AnswerJumps(setup: Setup, s: State, env: Env, command: Command, now: int)
    requires !command.AdvanceTo?
    ensures Jumped(now, env, Answer(setup, s, env, command))
  {}

  lemma IdleJumps(setup: Setup, s: State, env: Env, inst: nat, sys: int)
    requires inst < |setup.config.instances|
    ensures Jumped(s.clock.current, env, Idle(setup, s, env, inst, sys))
  {
  }

  lemma RestJumps(setup: Setup, s: State, env: Env, inst: nat, sys: int)
    requires inst < |setup.config.instances|
    ensures Jumped(s.clock.current, env, Rest(setup, s, env, inst, sys))
  {
    IdleJumps(setup, s, env, inst, sys);
    AnswerJumps(setup, s, env, Pass, s.clock.current);
    hide Idle, Answer, Asleep;
    if MayBeDone(setup, s, env, inst) && GroupEmpty(setup, s, env, inst) {
      AnswerJumps(setup, s.(shutdown := Asleep(setup, s.shutdown, inst, sys)), env, Done, s.clock.current);
    }
  }

  lemma RespondJumps(setup: Setup, s: State, env: Env, inst: nat, sys: int, id: int)
    requires setup.config.Valid() && inst < |setup.config.instances|
    ensures Jumped(s.clock.current, env, Respond(setup, s, env, inst, sys, id))
  {
    var (work, reply) := Dispatch(setup.config, s.work, inst, sys, id, ChoiceNow(setup, s, env, inst));
    var t, first := s.(work := work), sys == setup.config.instances[inst].start;
    hide Dispatch, ChoiceNow, Answer, Rest;
    match reply {
      case Ran(k) => AnswerJumps(setup, t, env, Workload(k), s.clock.current);
      case Waits => AnswerJumps(setup, t, env, Pass, s.clock.current);
      case Nothing => RestJumps(setup, FlushBuckets(setup, t, first), env, inst, sys);
    }
  }

  lemma ModelCompleteJumps(setup: Setup, s: State, env: Env, sys: int, id: int, cycle: int)
    requires setup.config.Valid() && setup.backend.Analytical?
    requires Reported(setup, s.clock, cycle).Some? && sys in setup.config.owner
    ensures Jumped(cycle, env, OnModelComplete(setup, s, env, sys, id, cycle))
  {
    var inst := setup.config.owner[sys];
    var b := s.(clock := Reported(setup, s.clock, cycle).value);
    var a := RouteArrivals(TakeReport(setup, b, env, inst, sys, id), env);
    assert a.clock.current == cycle;
    hide TakeReport, RouteArrivals, Respond, Drained;
    RespondJumps(setup, a, env, inst, sys, id);
  }

  /** No absolute advance skips an event: it goes to the earliest known source of work after the present,
      and only when the backend owes no batch, transfer or control. */
  lemma AdvanceSkipsNothing(setup: Setup, s: State, env: Env, sys: int, id: int, cycle: int,
                            schedulers: seq<IdleWakeup.SchedulerView>, router: IdleWakeup.RouterView)
    requires setup.config.Valid() && setup.backend.Analytical?
    requires Reported(setup, s.clock, cycle).Some? && sys in setup.config.owner
    requires env.nextIdle.None? || IdleWakeup.EarliestSource(schedulers, router, cycle, env.nextIdle)
    ensures var t := OnModelComplete(setup, s, env, sys, id, cycle);
      t.sent != [] && t.sent[|t.sent| - 1].AdvanceTo? ==>
        var target := t.sent[|t.sent| - 1].time;
        && t.clock.current == t.clock.floor == target > cycle
        && IdleWakeup.Source(schedulers, router, target)
        && (forall x :: IdleWakeup.Source(schedulers, router, x) && x > cycle ==> target <= x)
        && t.work.inflight == map[] && !t.jobs.HasPending() && !t.exact.HasPending()
  {
    ModelCompleteJumps(setup, s, env, sys, id, cycle);
    hide OnModelComplete, IdleWakeup.Source, Reported;
  }

  // ---------------------------------------------------------------- polling: the offset over a run

  /** The state in which the poll of a report is answered once the scheduler had its turn. */
  function Scheduled(setup: Setup, s: State, env: Env, sys: int, id: int, cycle: int): State
    requires setup.config.Valid() && setup.backend.Polling? && sys in setup.config.owner
  {
    var u, inst := Polled(setup, s, env, sys, id, cycle), setup.config.owner[sys];
    u.(work := Dispatch(setup.config, u.work, inst, sys, id, ChoiceNow(setup, u, env, inst)).0)
  }

  /** This report finds nothing to run anywhere, and the loop knows when there will be: it moves the offset. */
  predicate Jumps(setup: Setup, s: State, event: Event, env: Env)
    requires setup.config.Valid() && setup.backend.Polling?
  {
    && s.status.Running? && event.ModelComplete? && event.sys in setup.config.owner
    && var inst := setup.config.owner[event.sys];
       var u, t := Polled(setup, s, env, event.sys, event.id, event.cycle), Scheduled(setup, s, env, event.sys, event.id, event.cycle);
       && !Drained(u)
       && Dispatch(setup.config, u.work, inst, event.sys, event.id, ChoiceNow(setup, u, env, inst)).1.Nothing?
       && !MayBeDone(setup, t, env, inst)
       && t.work.pending == map[] && t.work.ready == map[] && MayAdvance(t, env)
  }

  /** The logical time at which a report is taken. */
  function TimeOf(s: State, event: Event): int
    requires event.ModelComplete?
  {
    event.cycle + s.clock.offset
  }

  /** How far a callback moves the offset: so that a poll one quantum later would land on the target. */
  function Adjustment(setup: Setup, s: State, event: Event, env: Env): int
    requires setup.config.Valid() && setup.backend.Polling?
  {
    if Jumps(setup, s, event, env) then env.nextIdle.value - TimeOf(s, event) - setup.backend.quantum else 0
  }

  lemma AnswerClock(setup: Setup, s: State, env: Env, command: Command)
    ensures Answer(setup, s, env, command).clock == s.clock
  {}

  lemma RestOffset(setup: Setup, s: State, env: Env, inst: nat, sys: int)
    requires setup.backend.Polling? && inst < |setup.config.instances|
    ensures Rest(setup, s, env, inst, sys).clock.offset == s.clock.offset
         + if !MayBeDone(setup, s, env, inst) && s.work.pending == map[] && s.work.ready == map[] && MayAdvance(s, env)
           then env.nextIdle.value - s.clock.current - setup.backend.quantum else 0
  {
    hide Answer, DispatchedWork, PartlyReported, IdleCommand, GroupEmpty, MayBeDone, Asleep;
    forall u: State, command ensures Answer(setup, u, env, command).clock == u.clock { AnswerClock(setup, u, env, command); }
  }

  lemma RespondOffset(setup: Setup, s: State, env: Env, inst: nat, sys: int, id: int)
    requires setup.config.Valid() && setup.backend.Polling? && inst < |setup.config.instances|
    ensures var (work, reply) := Dispatch(setup.config, s.work, inst, sys, id, ChoiceNow(setup, s, env, inst));
      var t := s.(work := work);
      Respond(setup, s, env, inst, sys, id).clock.offset == s.clock.offset
         + if reply.Nothing? && !MayBeDone(setup, t, env, inst) && work.pending == map[] && work.ready == map[] && MayAdvance(t, env)
           then env.nextIdle.value - s.clock.current - setup.backend.quantum else 0
  {
    var (work, reply) := Dispatch(setup.config, s.work, inst, sys, id, ChoiceNow(setup, s, env, inst));
    var t, first := s.(work := work), sys == setup.config.instances[inst].start;
    hide Dispatch, ChoiceNow, Answer, FlushBuckets, Rest;
    match reply {
      case Ran(k) =>
        AnswerClock(setup, t, env, Workload(k));
        FlushFrame(setup, Answer(setup, t, env, Workload(k)), first);
      case Waits =>
        AnswerClock(setup, t, env, Pass);
        FlushFrame(setup, Answer(setup, t, env, Pass), first);
      case Nothing =>
        FlushFrame(setup, t, first);
        RestOffset(setup, FlushBuckets(setup, t, first), env, inst, sys);
    }
  }

  /** Every callback moves the offset by its adjustment. */
  lemma StepOffset(setup: Setup, s: State, event: Event, env: Env)
    requires setup.config.Valid() && setup.backend.Polling?
    ensures Step(setup, s, event, env).clock.offset == s.clock.offset + Adjustment(setup, s, event, env)
  {
    if s.status.Running? {
      match event {
        case ModelComplete(sys, id, cycle) =>
          if sys in setup.config.owner {
            var inst, b := setup.config.owner[sys], s.(clock := s.clock.(current := cycle + s.clock.offset));
            var a, u := TakeReport(setup, b, env, inst, sys, id), Polled(setup, s, env, sys, id, cycle);
            assert a.clock == u.clock == b.clock && (a.stop ==> u == a) && u.stop == a.stop;
            hide TakeReport, RouteArrivals, Respond, Dispatch, ChoiceNow, MayBeDone;
            RespondOffset(setup, u, env, inst, sys, id);
          }
        case ControlEvent(eventId, time) =>
          hide Answer, Completed, Drained;
          ContinueClock(setup, env);
        case TransferComplete(job, callback) =>
          hide Answer, Called, Drained;
          ContinueClock(setup, env);
      }
    }
  }

  lemma ContinueClock(setup: Setup, env: Env)
    ensures forall s: State {:trigger Answer(setup, s, env, Continue)} :: Answer(setup, s, env, Continue).clock == s.clock
  {}

  // ---------------------------------------------------------------- polling: later reports

  /** The adjustments made by callbacks `n` to `m - 1` of a run. */
  function Shift(setup: Setup, events: seq<(Event, Env)>, n: nat, m: nat): int
    requires setup.config.Valid() && setup.backend.Polling? && n <= m <= |events|
  {
    if n == m then 0
    else Shift(setup, events, n, m - 1) + Adjustment(setup, Run(setup, Init(), events[..m - 1]), events[m - 1].0, events[m - 1].1)
  }

  /** The logical time at which report `i` of a run is taken. */
  function ReportTime(setup: Setup, events: seq<(Event, Env)>, i: nat): int
    requires setup.config.Valid() && i < |events| && events[i].0.ModelComplete?
  {
    TimeOf(Run(setup, Init(), events[..i]), events[i].0)
  }

  lemma {:induction false} OffsetIsShift(setup: Setup, events: seq<(Event, Env)>, n: nat, m: nat)
    requires setup.config.Valid() && setup.backend.Polling? && n <= m <= |events|
    ensures Run(setup, Init(), events[..m]).clock.offset == Run(setup, Init(), events[..n]).clock.offset + Shift(setup, events, n, m)
  {
    if n < m {
      OffsetIsShift(setup, events, n, m - 1);
      StepOffset(setup, Run(setup, Init(), events[..m - 1]), events[m - 1].0, events[m - 1].1);
      RunLast(setup, events, m);
      hide Step, Adjustment, Run;
    }
  }

  lemma RunLast(setup: Setup, events: seq<(Event, Env)>, m: nat)
    requires setup.config.Valid() && 0 < m <= |events|
    ensures Run(setup, Init(), events[..m]) == Step(setup, Run(setup, Init(), events[..m - 1]), events[m - 1].0, events[m - 1].1)
  {
    assert events[..m][..m - 1] == events[..m - 1];
    hide Step;
  }

  lemma {:induction false} ShiftSplits(setup: Setup, events: seq<(Event, Env)>, n: nat, k: nat, m: nat)
    requires setup.config.Valid() && setup.backend.Polling? && n <= k <= m <= |events|
    ensures Shift(setup, events, n, m) == Shift(setup, events, n, k) + Shift(setup, events, k, m)
  {
    if k < m { ShiftSplits(setup, events, n, k, m - 1); }
    hide Adjustment, Run;
  }

  /** Logical time between two reports of a polling run passes as the backend's cycles do, plus the
      adjustments made in between; so the later report is taken at an earlier time exactly when these
      outweigh the cycles. */
  lemma ReportTimes(setup: Setup, events: seq<(Event, Env)>, n: nat, m: nat)
    requires setup.config.Valid() && setup.backend.Polling? && n <= m < |events|
    requires events[n].0.ModelComplete? && events[m].0.ModelComplete?
    ensures ReportTime(setup, events, m) - ReportTime(setup, events, n)
         == events[m].0.cycle - events[n].0.cycle + Shift(setup, events, n, m)
    ensures ReportTime(setup, events, m) < ReportTime(setup, events, n)
       <==> events[m].0.cycle - events[n].0.cycle < -Shift(setup, events, n, m)
    ensures Reported(setup, Run(setup, Init(), events[..m]).clock, events[m].0.cycle).value.current == ReportTime(setup, events, m)
  {
    OffsetIsShift(setup, events, n, m);
    hide Run, Shift;
  }

  /** After report `n` has moved the offset towards its target, a report one quantum later is taken at exactly
      that target if and only if the adjustments made by others in between cancel out, as they do when there
      is none. */
  lemma NextPollLandsOnTarget(setup: Setup, events: seq<(Event, Env)>, n: nat, m: nat)
    requires setup.config.Valid() && setup.backend.Polling? && n < m < |events| && events[m].0.ModelComplete?
    requires Jumps(setup, Run(setup, Init(), events[..n]), events[n].0, events[n].1)
    requires events[m].0.cycle == events[n].0.cycle + setup.backend.quantum
    ensures ReportTime(setup, events, m) == events[n].1.nextIdle.value <==> Shift(setup, events, n + 1, m) == 0
    ensures (forall i {:trigger events[i]} :: n < i < m ==> Adjustment(setup, Run(setup, Init(), events[..i]), events[i].0, events[i].1) == 0)
        ==> Shift(setup, events, n + 1, m) == 0
  {
    ReportTimes(setup, events, n, m);
    ShiftSplits(setup, events, n, n + 1, m);
    FirstShift(setup, events, n);
    if forall i {:trigger events[i]} :: n < i < m ==> Adjustment(setup, Run(setup, Init(), events[..i]), events[i].0, events[i].1) == 0 {
      NoShift(setup, events, n + 1, m);
    }
    hide Run, Shift, Jumps;
  }

  lemma FirstShift(setup: Setup, events: seq<(Event, Env)>, n: nat)
    requires setup.config.Valid() && setup.backend.Polling? && n < |events|
    ensures Shift(setup, events, n, n + 1) == Adjustment(setup, Run(setup, Init(), events[..n]), events[n].0, events[n].1)
  {
    hide Run, Jumps;
  }

  lemma {:induction false} NoShift(setup: Setup, events: seq<(Event, Env)>, n: nat, m: nat)
    requires setup.config.Valid() && setup.backend.Polling? && n <= m <= |events|
    requires forall i {:trigger events[i]} :: n <= i < m ==> Adjustment(setup, Run(setup, Init(), events[..i]), events[i].0, events[i].1) == 0
    ensures Shift(setup, events, n, m) == 0
  {
    if n < m { NoShift(setup, events, n, m - 1); }
    hide Run, Jumps;
  }

  /** After report `n` has moved the offset and nobody else has, a report `d` cycles later is taken before
      report `n` was exactly when `d` and the way to the target together are less than a quantum. */
  lemma ClockRunsBack(setup: Setup, events: seq<(Event, Env)>, n: nat, m: nat)
    requires setup.config.Valid() && setup.backend.Polling? && n < m < |events| && events[m].0.ModelComplete?
    requires Jumps(setup, Run(setup, Init(), events[..n]), events[n].0, events[n].1)
    requires Shift(setup, events, n + 1, m) == 0
    ensures var d, target := events[m].0.cycle - events[n].0.cycle, events[n].1.nextIdle.value;
      ReportTime(setup, events, m) < ReportTime(setup, events, n)
      <==> d + (target - ReportTime(setup, events, n)) < setup.backend.quantum
  {
    ReportTimes(setup, events, n, m);
    ShiftSplits(setup, events, n, n + 1, m);
    FirstShift(setup, events, n);
    hide Run, Shift, Jumps;
  }

  // ---------------------------------------------------------------- a run in which time goes back

  /** One instance of two endpoints, on a backend that polls every 100 cycles. */
  const PollingPair := Setup(Config([Instance(0, 2, 1, Colocated)], map[0 := 0, 1 := 0], map[], []), Polling(100), false, false, 100000.0)

  /** An arrival at 1050 is known. */
  const Expecting := Quiet.(nextIdle := Some(1050))

  /** Both endpoints report at cycle 1000; the first one polls again a quantum later, when the arrival is due. */
  const TwoPolls: seq<(Event, Env)> :=
    [(ModelComplete(0, 0, 1000), Expecting)] + [(ModelComplete(1, 0, 1000), Expecting)] + [(ModelComplete(0, 0, 1100), Quiet)]

  const AfterOne := Init().(clock := Clock(950, 0, -50), sent := [Pass])
  const AfterTwo := AfterOne.(sent := [Pass, Pass])

  /** The second report of cycle 1000 is taken at 950, before the first one; the next poll lands on 1050. */
  lemma TimeGoesBack()
    ensures PollingPair.config.Valid() && Obeys(PollingPair, Init(), TwoPolls) && Run(PollingPair, Init(), TwoPolls).status.Running?
    ensures ReportTime(PollingPair, TwoPolls, 0) == 1000 && ReportTime(PollingPair, TwoPolls, 1) == 950
         && ReportTime(PollingPair, TwoPolls, 2) == 1050
  {
    ThreePolls();
    hide Run, Obeys;
  }

  lemma ThreePolls()
    ensures PollingPair.config.Valid() && Obeys(PollingPair, Init(), TwoPolls) && Run(PollingPair, Init(), TwoPolls).status.Running?
    ensures Run(PollingPair, Init(), TwoPolls[..0]) == Init()
         && Run(PollingPair, Init(), TwoPolls[..1]) == AfterOne && Run(PollingPair, Init(), TwoPolls[..2]) == AfterTwo
  {
    hide Step, Run, Obeys;
    FirstPolls();
    NothingRun(PollingPair);
    RunOne(PollingPair, ModelComplete(0, 0, 1000), Expecting);
    assert TwoPolls[..0] == [] && TwoPolls[..1] == [(ModelComplete(0, 0, 1000), Expecting)];
    RunSnoc(PollingPair, TwoPolls[..1], ModelComplete(1, 0, 1000), Expecting, AfterOne);
    assert TwoPolls[..1] + [(ModelComplete(1, 0, 1000), Expecting)] == TwoPolls[..2];
    RunSnoc(PollingPair, TwoPolls[..2], ModelComplete(0, 0, 1100), Quiet, AfterTwo);
    assert TwoPolls[..2] + [(ModelComplete(0, 0, 1100), Quiet)] == TwoPolls;
  }

  lemma FirstPolls()
    ensures Step(PollingPair, Init(), ModelComplete(0, 0, 1000), Expecting) == AfterOne
    ensures Step(PollingPair, AfterOne, ModelComplete(1, 0, 1000), Expecting) == AfterTwo
    ensures Step(PollingPair, AfterTwo, ModelComplete(0, 0, 1100), Quiet).status.Running?
  {
    hide Step;
    IdlePoll(Init(), Expecting, 0, 1000);
    IdlePoll(AfterOne, Expecting, 1, 1000);
    IdlePoll(AfterTwo, Quiet, 0, 1100);
  }

  /** A poll that finds nothing to run moves the offset when a later arrival is known. */
  lemma IdlePoll(s: State, env: Env, sys: int, cycle: int)
    requires s.status.Running? && !s.stop && s.work == NoWork && s.jobs == NoTransfers && s.exact == EmptySchedule
    requires sys in PollingPair.config.owner && 0 < cycle + s.clock.offset < 10000 && s.meter == Init().meter
    requires env == Quiet || env == Expecting
    ensures var now := cycle + s.clock.offset;
      var delta := if env == Expecting && now < 1050 then PollDelta(s.clock.(current := now), 1050, 100) else 0;
      Step(PollingPair, s, ModelComplete(sys, 0, cycle), env)
      == s.(clock := s.clock.(current := now + delta, offset := s.clock.offset + delta), sent := s.sent + [Pass])
  {
    var u := s.(clock := s.clock.(current := cycle + s.clock.offset));
    NoReport(PollingPair.config, NoWork, 0, sys, 0);
    NothingToRun(PollingPair.config, NoWork, 0, sys, 0, ChoiceNow(PollingPair, u, env, 0));
    NothingRouted(NoTransfers);
    assert !MayBeDone(PollingPair, u, env, 0);
    hide Step, Report, Dispatch, Routed, DispatchedWork, PartlyReported;
    PollStep(PollingPair, s, env, sys, 0, cycle, NoWork, false, u, NoWork, Nothing);
  }
}
