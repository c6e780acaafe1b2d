/** The event loop without the HBF runtime as the object it is in the program: its variables are fields,
  kept by what they are about, and one method answers each kind of backend callback. Every method is the
  step that Serving gives it.
 */
module ServingLoop {
  import opened Wrappers
  import opened Controls
  import opened DpWaves
  import opened Serving
  import WaveTables

  /** Logical time, the acknowledged floor, and the offset of a polling backend. */
  class LogicalClock {
    var current: int
    var floor: int
    var offset: int

    ghost function View(): Clock reads this { Clock(current, floor, offset) }

    constructor ()
      ensures View() == Clock(0, 0, 0)
    {
      current, floor, offset := 0, 0, 0;
    }

    method TakeAbsolute(time: int) returns (ok: bool)
      modifies this`current, this`floor
      ensures match Absolute(old(View()), time) case None => !ok && View() == old(View()) case Some(c) => ok && View() == c
    {
      ok := 0 <= time && floor <= time;
      if ok { current, floor := time, time; }
    }

    method TakeReported(setup: Setup, cycle: int) returns (ok: bool)
      modifies this`current, this`floor
      ensures match Reported(setup, old(View()), cycle) case None => !ok && View() == old(View()) case Some(c) => ok && View() == c
    {
      if setup.backend.Polling? {
        current := cycle + offset;
        ok := true;
      } else {
        ok := TakeAbsolute(cycle);
      }
    }

    /** Time jumps to `target`: absolutely, or by moving the offset so that the next poll lands on it. */
    method Jump(setup: Setup, target: int)
      modifies this
      ensures View() == if setup.backend.Analytical? then old(View()).(current := target, floor := target)
                        else var delta := PollDelta(old(View()), target, setup.backend.quantum);
                             old(View()).(current := old(current) + delta, offset := old(offset) + delta)
    {
      if setup.backend.Analytical? {
        floor := target;
        current := target;
      } else {
        var delta := target - current - setup.backend.quantum;
        offset := offset + delta;
        current := current + delta;
      }
    }
  }

  /** Throughput buckets. */
  class ThroughputMeter {
    var promptOpen: int
    var genOpen: int
    var totalPrompt: int
    var totalGen: int
    var lastLog: real
    var buckets: seq<(int, int)>

    ghost function View(): Meter reads this { Meter(promptOpen, genOpen, totalPrompt, totalGen, lastLog, buckets) }

    constructor ()
      ensures View() == Meter(0, 0, 0, 0, 0.0, [])
    {
      promptOpen, genOpen, totalPrompt, totalGen, lastLog, buckets := 0, 0, 0, 0, 0.0, [];
    }

    method Add(prompt: int, generated: int)
      modifies this
      ensures View() == old(View()).(promptOpen := old(promptOpen) + prompt, totalPrompt := old(totalPrompt) + prompt,
                                     genOpen := old(genOpen) + generated, totalGen := old(totalGen) + generated)
    {
      promptOpen := promptOpen + prompt;
      totalPrompt := totalPrompt + prompt;
      genOpen := genOpen + generated;
      totalGen := totalGen + generated;
    }

    method Flush(current: int, interval: real)
      modifies this
      ensures View() == if current as real > old(lastLog) + interval then
                          old(View()).(buckets := old(buckets) + [(old(promptOpen), old(genOpen))],
                                       lastLog := old(lastLog) + interval, promptOpen := 0, genOpen := 0)
                        else old(View())
    {
      if current as real > lastLog + interval {
        buckets := buckets + [(promptOpen, genOpen)];
        lastLog := lastLog + interval;
        promptOpen := 0;
        genOpen := 0;
      }
    }
  }

  /** Which instances, and which of their endpoints, have been put to sleep. */
  class ShutdownState {
    var prefillDone: bool
    var doneNpus: map<nat, set<int>>
    var done: seq<nat>

    ghost function View(): Shutdown reads this { Shutdown(prefillDone, doneNpus, done) }

    constructor ()
      ensures View() == Shutdown(false, map[], [])
    {
      prefillDone, doneNpus, done := false, map[], [];
    }

    method MarkAsleep(setup: Setup, inst: nat, sys: int)
      requires inst < |setup.config.instances|
      modifies this
      ensures View() == Asleep(setup, old(View()), inst, sys)
    {
      var npus := if inst in doneNpus then doneNpus[inst] + {sys} else {sys};
      doneNpus := doneNpus[inst := npus];
      var needed := if setup.config.instances[inst].npus == 1 then 1 else 2;
      if |npus| == needed { done := done + [inst]; }
      if |done| == |Prefills(setup.config)| { prefillDone := true; }
    }
  }

  class EventLoop {
    const setup: Setup
    const clock: LogicalClock
    const waves: WaveTables.Tables
    const exactTime: ExactControlSchedule
    const meter: ThroughputMeter
    const shutdown: ShutdownState

    var jobs: Transfers
    var stop: bool
    var earlyStopped: bool
    var status: Status
    ghost var parked: set<nat>
    ghost var sent: seq<Command>

    ghost function View(): State
      reads this, clock, waves, exactTime, meter, shutdown
    {
      State(clock.View(), waves.View(), exactTime.View(), jobs, meter.View(), shutdown.View(), stop, earlyStopped, parked, sent, status)
    }

    constructor (setup: Setup)
      ensures this.setup == setup && View() == Init()
      ensures fresh(clock) && fresh(waves) && fresh(exactTime) && fresh(meter) && fresh(shutdown)
    {
      this.setup := setup;
      clock := new LogicalClock();
      waves := new WaveTables.Tables();
      exactTime := new ExactControlSchedule();
      meter := new ThroughputMeter();
      shutdown := new ShutdownState();
      jobs, stop, earlyStopped, status, parked, sent := NoTransfers, false, false, Running, {}, [];
    }

    /** Something keeps the backend busy, so an ordinary answer may carry a control. */
    method MayCarry(env: Env, command: Command) returns (may: bool)
      ensures may == (setup.external && !command.Exit? && !command.AdvanceTo? && !stop && env.nextExact.Some?
                      && (waves.View().inflight != map[] || jobs.HasPending() || exactTime.View().HasPending()))
    {
      may := setup.external && !command.Exit? && !command.AdvanceTo? && !stop && env.nextExact.Some?
             && (waves.inflight != map[] || jobs.pending != map[] || exactTime.pendingById != map[]);
    }

    /** Answer the callback; the answer may carry a new exact-time control. */
    method Respond(env: Env, command: Command)
      modifies this`sent, this`status, exactTime
      ensures View() == Answer(setup, old(View()), env, command)
    {
      hide Armed;
      sent := sent + [command];
      var may := MayCarry(env, command);
      if may {
        var r := exactTime.Arm(env.nextExact.value, clock.current);
        if r.Err? { status := Failed; }
      }
    }

    method LeaveEarly()
      modifies this`sent, this`status, this`earlyStopped
      ensures View() == Leave(old(View()), true)
    {
      earlyStopped := true;
      sent := sent + [Exit];
      status := Exited;
    }

    method IsDrained() returns (drained: bool)
      ensures drained == Drained(View())
    {
      drained := stop && waves.inflight == map[] && waves.pending == map[] && waves.ready == map[]
                 && jobs.pending == map[] && exactTime.pendingById == map[];
    }

    method Route(env: Env)
      modifies this`jobs
      ensures View() == RouteArrivals(old(View()), env)
    {
      if !stop { jobs := Routed(jobs, env.routed); }
    }

    /** Route what arrived strictly before this callback, against the allocations that are still live. */
    method RouteStrictlyOlder(env: Env)
      modifies this`jobs
      ensures jobs == if stop || clock.current <= 0 then old(jobs) else Routed(old(jobs), env.older)
    {
      if !stop && clock.current > 0 { jobs := Routed(jobs, env.older); }
    }

    /** Count the tokens of a completed batch, and freeze the source at the measurement boundary. */
    method CountTokens(env: Env, completed: bool)
      modifies this`stop, meter
      ensures stop == (old(stop) || (completed && env.boundary))
      ensures meter.View() == if completed then Counted(old(meter.View()), env) else old(meter.View())
    {
      if completed {
        meter.Add(env.prompt, env.generated);
        if env.boundary { stop := true; }
      }
    }

    method RecordReport(env: Env, inst: nat, sys: int, id: int)
      requires inst < |setup.config.instances|
      modifies this`stop, this`parked, this`jobs, waves`inflight, meter
      ensures var t := TakeReport(setup, old(View()), env, inst, sys, id);
        && waves.View() == t.work && meter.View() == t.meter
        && (jobs, stop, parked) == (t.jobs, t.stop, t.parked)
    {
      hide Report, Routed, Counted;
      RouteStrictlyOlder(env);
      var k := Key(inst, id - 1);
      parked := if k in waves.inflight && waves.inflight[k].ends == {} then {} else parked;
      var completed := waves.RecordReport(setup.config, inst, sys, id);
      CountTokens(env, completed);
    }

    method TakeModelReport(env: Env, inst: nat, sys: int, id: int)
      requires inst < |setup.config.instances|
      modifies this`stop, this`parked, this`jobs, waves`inflight, meter
      ensures View() == TakeReport(setup, old(View()), env, inst, sys, id)
    {
      TakeReportFrame(setup, View(), env, inst, sys, id);
      hide TakeReport;
      RecordReport(env, inst, sys, id);
    }

    method FlushThroughput(first: bool)
      modifies meter
      ensures View() == FlushBuckets(setup, old(View()), first)
    {
      if first { meter.Flush(clock.current, setup.interval); }
    }

    method Sleep(env: Env, inst: nat, sys: int)
      requires inst < |setup.config.instances|
      modifies this`sent, this`status, shutdown, exactTime
      ensures View() == MarkDone(setup, old(View()), env, inst, sys)
    {
      hide Answer, Asleep;
      shutdown.MarkAsleep(setup, inst, sys);
      if |shutdown.done| == |setup.config.instances| {
        sent := sent + [Exit];
        status := Exited;
      } else {
        Respond(env, Done);
      }
    }

    /** Park the endpoint group only when the backend can wake it. */
    method ParkOrPass(inst: nat, sys: int) returns (command: Command)
      requires inst < |setup.config.instances|
      ensures var s := View();
        command == IdleCommand(setup, sys == setup.config.instances[inst].start,
                               DispatchedWork(setup, s.work) || s.jobs.pending != map[] || s.exact.HasPending(), PartlyReported(s.work))
    {
      var dispatched := exists k :: k in waves.inflight && (!setup.manager || waves.inflight[k].dispatched);
      var partly := exists k :: k in waves.inflight && waves.inflight[k].ends != {};
      var wakeup := dispatched || jobs.pending != map[] || exactTime.pendingById != map[];
      command := if setup.backend.Analytical? && sys == setup.config.instances[inst].start && wakeup && !partly then Park else Pass;
    }

    method MayJump(env: Env) returns (may: bool)
      ensures may == MayAdvance(View(), env)
    {
      may := env.nextIdle.Some? && env.nextIdle.value > clock.current
             && waves.inflight == map[] && jobs.pending == map[] && exactTime.pendingById == map[];
    }

    /** Nothing can run: park, wait, or jump to the next wakeup. */
    method IdleEndpoint(env: Env, inst: nat, sys: int)
      requires inst < |setup.config.instances|
      modifies this`sent, this`status, this`parked, clock, exactTime
      ensures View() == Idle(setup, old(View()), env, inst, sys)
    {
      hide Answer, DispatchedWork, PartlyReported, IdleCommand;
      var command := Pass;
      if waves.pending == map[] && waves.ready == map[] {
        command := ParkOrPass(inst, sys);
        var may := MayJump(env);
        assert may ==> env.nextIdle.Some?;
        hide MayAdvance;
        if may {
          clock.Jump(setup, env.nextIdle.value);
          if setup.backend.Analytical? { command := AdvanceTo(env.nextIdle.value); }
        } else if command.Park? {
          parked := parked + {inst};
        }
      }
      Respond(env, command);
    }

    /** The instance is finished, or it waits. */
    method RestEndpoint(env: Env, inst: nat, sys: int)
      requires inst < |setup.config.instances|
      modifies this`sent, this`status, this`parked, clock, shutdown, exactTime
      ensures View() == Rest(setup, old(View()), env, inst, sys)
    {
      hide Idle, MarkDone, Answer;
      var empty := (set k | k in waves.inflight && k.inst == inst) == {};
      if (setup.config.instances[inst].role == Decode && !shutdown.prefillDone) || inst in shutdown.done
         || inst !in env.emptyQueues || !empty || !env.routerIdle {
        IdleEndpoint(env, inst, sys);
      } else {
        var groupEmpty := forall j :: j in setup.config.groupOf && setup.config.SameGroup(inst, j) ==>
            j in env.emptyQueues && (set k | k in waves.inflight && k.inst == j) == {};
        assert groupEmpty == GroupEmpty(setup, View(), env, inst);
        hide GroupEmpty;
        if groupEmpty { Sleep(env, inst, sys); } else { Respond(env, Pass); }
      }
    }

    /** What this callback may do: a frozen run only completes waves that were already open. */
    method Choose(env: Env, inst: nat) returns (choice: Choice)
      ensures choice == ChoiceNow(setup, View(), env, inst)
    {
      var open := inst in setup.config.groupOf
        && (set i | i in waves.pending && i in setup.config.groupOf && setup.config.groupOf[i] == setup.config.groupOf[inst]) != {};
      assert open == waves.View().WaveOpen(setup.config, inst);
      var completesWave := stop && open && inst !in waves.pending;
      choice := Choice(!stop || completesWave, env.choice.shape,
                       setup.manager && env.choice.engineBlocked, setup.manager && env.choice.fabricBlocked);
    }

    /** Schedule and answer. */
    method AnswerModel(env: Env, inst: nat, sys: int, id: int)
      requires setup.config.Valid() && inst < |setup.config.instances|
      modifies this`sent, this`status, this`parked, clock, waves, meter, shutdown, exactTime
      ensures View() == Serving.Respond(setup, old(View()), env, inst, sys, id)
    {
      hide Dispatch, ChoiceNow, Answer, FlushBuckets, Rest, Config.Valid;
      var choice := Choose(env, inst);
      var reply := waves.Schedule(setup.config, inst, sys, id, choice);
      var first := sys == setup.config.instances[inst].start;
      match reply {
        case Ran(k) =>
          Respond(env, Workload(k));
          FlushThroughput(first);
        case Waits =>
          Respond(env, Pass);
          FlushThroughput(first);
        case Nothing =>
          FlushThroughput(first);
          RestEndpoint(env, inst, sys);
      }
    }

    // ------------------------------------------------------------------ the callbacks

    method ModelComplete(env: Env, sys: int, id: int, cycle: int)
      requires setup.config.Valid()
      modifies this, clock, waves, meter, shutdown, exactTime
      ensures View() == OnModelComplete(setup, old(View()), env, sys, id, cycle)
    {
      hide Reported, TakeReport, RouteArrivals, Serving.Respond;
      if sys !in setup.config.owner { status := Failed; return; }
      var ok := clock.TakeReported(setup, cycle);
      if !ok { status := Failed; return; }
      var inst := setup.config.owner[sys];
      TakeModelReport(env, inst, sys, id);
      var drained := IsDrained();
      hide Drained;
      if drained { LeaveEarly(); return; }
      Route(env);
      AnswerModel(env, inst, sys, id);
    }

    method LeaveOrContinue(env: Env)
      modifies this`sent, this`status, this`earlyStopped, exactTime
      ensures View() == ContinueOrLeave(setup, old(View()), env)
    {
      hide Answer;
      var drained := IsDrained();
      if drained { LeaveEarly(); } else { Respond(env, Continue); }
    }

    method ControlEvent(env: Env, eventId: EventId, time: int)
      modifies this, clock, exactTime
      ensures var s := OnControl(setup, old(View()), env, eventId, time);
        if s.status.Failed? then status == Failed else View() == s
    {
      hide ContinueOrLeave, Completed, RouteArrivals;
      if !setup.external { status := Failed; return; }
      var ok := clock.TakeAbsolute(time);
      if !ok { status := Failed; return; }
      var r := exactTime.Complete(eventId, time);
      if r.Err? { status := Failed; return; }
      if r.value { parked := {}; }
      Route(env);
      LeaveOrContinue(env);
    }

    /** Record a transfer's first callback, or check a repeated one; a frozen run then drops the transfer. */
    method TakeTransfer(job: int, callback: Callback) returns (ok: bool)
      modifies this`jobs, this`parked
      ensures match Called(old(jobs), job, callback, stop)
              case None => !ok
              case Some(j) => ok && jobs == j && parked == if job in old(jobs).answered then old(parked) else {}
    {
      if job in jobs.answered {
        if jobs.answered[job] != callback || (stop && job !in jobs.pending) { return false; }
        assert jobs.answered[job := callback] == jobs.answered;
      } else {
        if job !in jobs.pending || jobs.pending[job] != callback.issue || !callback.Causal() { return false; }
        parked := {};
        jobs := jobs.(answered := jobs.answered[job := callback]);
      }
      if stop { jobs := jobs.(pending := jobs.pending - {job}); }
      ok := true;
    }

    method TransferComplete(env: Env, job: int, callback: Callback)
      modifies this, clock, exactTime
      ensures var s := OnTransfer(setup, old(View()), env, job, callback);
        if s.status.Failed? then status == Failed else View() == s
    {
      hide ContinueOrLeave, RouteArrivals, Called;
      if !setup.external { status := Failed; return; }
      var ok := clock.TakeAbsolute(callback.completion);
      if !ok { status := Failed; return; }
      ok := TakeTransfer(job, callback);
      if !ok { status := Failed; return; }
      Route(env);
      LeaveOrContinue(env);
    }

    /** The loop: one callback per iteration until the run leaves, or raises. */
    method Serve(events: seq<(Event, Env)>)
      requires setup.config.Valid()
      modifies this, clock, waves, meter, shutdown, exactTime
      ensures var s := Run(setup, old(View()), events);
        if s.status.Failed? then status == Failed else View() == s
    {
      hide OnModelComplete, OnControl, OnTransfer;
      ghost var start := View();
      var i := 0;
      while i < |events| && status == Running
        invariant 0 <= i <= |events|
        invariant var s := Run(setup, start, events[..i]);
          if s.status.Failed? then status == Failed else View() == s
      {
        assert events[..i + 1][..i] == events[..i];
        var env := events[i].1;
        match events[i].0 {
          case ModelComplete(sys, id, cycle) => ModelComplete(env, sys, id, cycle);
          case ControlEvent(eventId, time) => ControlEvent(env, eventId, time);
          case TransferComplete(job, callback) => TransferComplete(env, job, callback);
        }
        i := i + 1;
      }
      assert events[..|events|] == events;
      StoppedStays(setup, start, events, i);
    }
  }

  /** What a report leaves alone. */
  lemma TakeReportFrame(setup: Setup, s: State, env: Env, inst: nat, sys: int, id: int)
    requires inst < |setup.config.instances|
    ensures var t := TakeReport(setup, s, env, inst, sys, id);
      t == s.(work := t.work, meter := t.meter, jobs := t.jobs, stop := t.stop, parked := t.parked)
  {}

  /** After a run has left or raised, further callbacks change nothing. */
  lemma {:induction false} StoppedStays(setup: Setup, s: State, events: seq<(Event, Env)>, i: nat)
    requires setup.config.Valid() && i <= |events|
    requires i == |events| || !Run(setup, s, events[..i]).status.Running?
    ensures Run(setup, s, events) == Run(setup, s, events[..i])
    decreases |events|
  {
    if i == |events| {
      assert events[..i] == events;
    } else {
      var n := |events| - 1;
      assert events[..n][..i] == events[..i];
      StoppedStays(setup, s, events[..n], i);
    }
  }
}
