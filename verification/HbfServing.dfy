/** The HBF event loop as the object it is in the program: its variables are fields, kept by what they
  are about, and one method answers each kind of backend callback. Every method is the step that
  HbfLoop gives it.
 */
module HbfServing {
  import opened Wrappers
  import opened Sorting
  import opened Controls
  import opened TieCommit
  import opened HbfLoop

  /** The router and the measurement counters. */
  class MeasurementTally {
    var router: Router
    var stopRequested: bool
    var promptOpen: int
    var genOpen: int
    var totalPrompt: int
    var totalGen: int
    var requestCount: int
    var hbfCompleted: seq<int>
    ghost var effects: seq<(int, Outcome)>

    ghost function View(): Tie reads this {
      Tie(router, stopRequested, promptOpen, genOpen, totalPrompt, totalGen, requestCount, hbfCompleted, effects)
    }

    constructor (router: Router)
      ensures View() == Tie(router, false, 0, 0, 0, 0, 0, [], [])
    {
      this.router := router;
      stopRequested := false;
      promptOpen, genOpen, totalPrompt, totalGen, requestCount := 0, 0, 0, 0, 0;
      hbfCompleted, effects := [], [];
    }

    /** Settle the tied completions in the order of their ids. */
    method CommitInOrder(byId: map<int, Item>, ids: seq<int>, frozen: bool)
      requires forall id :: id in ids ==> id in byId
      modifies this`router, this`promptOpen, this`genOpen, this`totalPrompt, this`totalGen, this`requestCount,
               this`hbfCompleted, this`effects
      ensures View() == CommitAll(old(View()), byId, ids, frozen)
    {
      var i := 0;
      while i < |ids|
        invariant 0 <= i <= |ids|
        invariant forall id :: id in ids[..i] ==> id in byId
        invariant View() == CommitAll(old(View()), byId, ids[..i], frozen)
      {
        assert ids[..i + 1][..i] == ids[..i];
        var id := ids[i];
        assert id in ids;
        CommitNext(byId[id], frozen);
        i := i + 1;
      }
      assert ids[..|ids|] == ids;
    }

    method CommitNext(item: Item, frozen: bool)
      modifies this`router, this`promptOpen, this`genOpen, this`totalPrompt, this`totalGen, this`requestCount,
               this`hbfCompleted, this`effects
      ensures View() == CommitOne(old(View()), item, frozen)
    {
      var request := item.request;
      var terminalPrefill := item.kind == Prefill && request.Terminal();
      if item.kind == Prefill && !terminalPrefill {
        effects := effects + [(request.id, if frozen then CensoredPrefill else HandedToDecode)];
        return;
      }
      if terminalPrefill { requestCount := requestCount + 1; }
      var censor := frozen && !IsFinal(router, request.id);
      if item.kind == Hbf {
        hbfCompleted := hbfCompleted + [request.id];
        promptOpen := promptOpen + request.input;
        totalPrompt := totalPrompt + request.input;
        genOpen := genOpen + request.generated;
        totalGen := totalGen + request.generated;
        requestCount := requestCount + 1;
      }
      effects := effects + [(request.id, Finished(!censor))];
      if !censor { router := Notified(router, request.id); }
    }

    /** Decide the freeze on the whole tied set, before any of it is announced. */
    method DecideFreeze(policy: Policy, gpuRequests: seq<Request>, hbf: seq<Request>, prefillRequests: seq<Request>)
      returns (reaches: bool)
      modifies this`router
      ensures reaches == Reaches(old(View()), policy, gpuRequests, hbf, prefillRequests)
      ensures View() == Started(old(View()), reaches)
    {
      hide Terminals, ReachesBoundary;
      var final := gpuRequests + hbf + Terminals(prefillRequests);
      reaches := false;
      if final != [] && !stopRequested && policy.stopAfterMeasurement {
        reaches := ReachesBoundary(router, policy.cohort, final);
        if reaches { router := router.(frozen := true); }
      }
    }

    /** Commit the tied completions, or report a duplicate. */
    method CommitTied(policy: Policy, gpuRequests: seq<Request>, hbf: seq<Request>, prefillRequests: seq<Request>)
      returns (ok: bool)
      modifies this`router, this`stopRequested, this`promptOpen, this`genOpen, this`totalPrompt, this`totalGen,
               this`requestCount, this`hbfCompleted, this`effects
      ensures match Commit(old(View()), policy, gpuRequests, hbf, prefillRequests)
              case Err(_) => !ok
              case Ok(t) => ok && View() == t
    {
      hide CommitAll, Reaches, Items, ById, Ids, Sort;
      var reaches := DecideFreeze(policy, gpuRequests, hbf, prefillRequests);
      var items := Items(gpuRequests, hbf, prefillRequests);
      var byId := ById(items);
      ok := |byId| == |items|;
      if ok {
        SortedIdsAreKeys(items);
        CommitInOrder(byId, Sort(IntLe(), Ids(items)), stopRequested || reaches);
        if reaches { stopRequested := true; }
      }
    }
  }

  /** Completions and commands that wait for the same-time barrier. */
  class TieBuffers {
    var queued: seq<EventId>
    var gpu: seq<Request>
    var prefill: seq<Request>
    var proxies: seq<Request>

    constructor ()
      ensures queued == [] && gpu == prefill == proxies == []
    {
      queued, gpu, prefill, proxies := [], [], [], [];
    }
  }

  /** The schedulers' batches. */
  class GpuBatches {
    var inflight: map<nat, Batch>
    var lastId: map<nat, int>

    constructor ()
      ensures inflight == map[] && lastId == map[]
    {
      inflight, lastId := map[], map[];
    }
  }

  /** Which instances, and which of their endpoints, have been put to sleep. */
  class Shutdown {
    var prefillDone: bool
    var doneNpus: map<nat, set<int>>
    var done: seq<nat>

    constructor ()
      ensures !prefillDone && doneNpus == map[] && done == []
    {
      prefillDone, doneNpus, done := false, map[], [];
    }

    method MarkAsleep(config: Config, inst: nat, sys: int)
      requires inst < |config.instances|
      modifies this
      ensures var npus := if inst in old(doneNpus) then old(doneNpus)[inst] + {sys} else {sys};
        && doneNpus == old(doneNpus)[inst := npus]
        && done == (if |npus| == (if config.instances[inst].npus == 1 then 1 else 2) then old(done) + [inst] else old(done))
        && prefillDone == (old(prefillDone) || |done| == Prefills(config))
    {
      var npus := if inst in doneNpus then doneNpus[inst] + {sys} else {sys};
      doneNpus := doneNpus[inst := npus];
      var needed := if config.instances[inst].npus == 1 then 1 else 2;
      if |npus| == needed { done := done + [inst]; }
      if |done| == Prefills(config) { prefillDone := true; }
    }
  }

  class HbfServingLoop {
    const config: Config
    const sameTime: SameTimeControlBarrier
    const exactTime: ExactControlSchedule
    const tally: MeasurementTally
    const buffers: TieBuffers
    const batches: GpuBatches
    const shutdown: Shutdown

    var current: int
    var floor: int
    var status: Status
    ghost var log: seq<Action>

    ghost function View(): State
      reads this, sameTime, exactTime, tally, buffers, batches, shutdown
    {
      State(current, floor, batches.inflight, batches.lastId, sameTime.View(), exactTime.View(),
            buffers.queued, buffers.gpu, buffers.prefill, buffers.proxies, tally.View(),
            shutdown.prefillDone, shutdown.doneNpus, shutdown.done, log, status)
    }

    constructor (config: Config, router: Router)
      ensures this.config == config
      ensures fresh(sameTime) && fresh(exactTime) && fresh(tally) && fresh(buffers) && fresh(batches) && fresh(shutdown)
      ensures View() == Init(config, router)
    {
      this.config := config;
      sameTime := new SameTimeControlBarrier();
      exactTime := new ExactControlSchedule();
      tally := new MeasurementTally(router);
      buffers := new TieBuffers();
      batches := new GpuBatches();
      shutdown := new Shutdown();
      current, floor, status, log := 0, 0, Running, [];
    }

    /** Commit everything that waits. */
    method ProcessTieBarrier(env: Env)
      requires status == Running
      modifies this`status, this`log, tally, buffers
      ensures var s := CommitTie(config, old(View()), env);
        if s.status.Failed? then status == Failed else View() == s
    {
      hide Commit, InIdOrder, Items, CommitLog;
      var hbf, gpuRequests, prefillRequests := buffers.proxies, buffers.gpu, buffers.prefill;
      ghost var before, waiting := tally.View(), View().Waiting();
      buffers.proxies, buffers.gpu, buffers.prefill := [], [], [];
      var ok := tally.CommitTied(config.policy, gpuRequests, hbf, prefillRequests);
      if !ok {
        status := Failed;
        return;
      }
      hide FreezeLog;
      AcceptedCommit(before, config.policy, gpuRequests, hbf, prefillRequests);
      log := log + FreezeLog(before, tally.View()) + CommitLog(InIdOrder(waiting), before.router, current);
      if !tally.stopRequested { RouteArrived(env); }
    }

    // ------------------------------------------------------------------ pieces of a callback

    method RouteArrived(env: Env)
      modifies tally`router, this`log
      ensures View() == Route(old(View()), env)
    {
      tally.router := env.routed;
      log := log + [Routed];
    }

    method RouteStrictlyOlder(env: Env)
      modifies tally`router, this`log
      ensures View() == RouteOlder(old(View()), env)
    {
      if !tally.stopRequested && sameTime.pending.None? && buffers.proxies == [] && current > 0 { RouteArrived(env); }
    }

    method Acknowledge(time: int)
      modifies this`current, this`floor, this`status
      ensures View() == Reported(old(View()), time)
    {
      if time < 0 || time < floor { status := Failed; return; }
      current := time;
      floor := time;
    }

    method ArmBarrier()
      modifies buffers`queued, this`status, sameTime
      ensures View() == ArmTie(old(View()))
    {
      var r := sameTime.Arm(current);
      match r
      case Err(_) => status := Failed;
      case Ok(None) =>
      case Ok(Some(id)) => buffers.queued := buffers.queued + [id];
    }

    /** The scheduler records an endpoint report; what the batch finished is deferred. */
    method RecordReport(env: Env, inst: nat, sys: int, id: int)
      modifies batches`inflight, buffers`gpu, buffers`prefill, tally`requestCount, this`log
      ensures View() == AddDone(config, old(View()), env, inst, sys, id)
    {
      if inst !in batches.inflight || batches.inflight[inst].id != id - 1 { return; }
      var b := batches.inflight[inst];
      if sys in b.ends { return; }
      var ends := b.ends + {sys};
      if inst >= |config.instances| || config.instances[inst].startNpu !in ends || config.instances[inst].LastNpu() !in ends {
        batches.inflight := batches.inflight[inst := b.(ends := ends)];
        return;
      }
      batches.inflight := batches.inflight - {inst};
      log := log + DeferLog(Tagged(env.finished, if config.instances[inst].isPrefill then Prefill else Gpu), current);
      if config.instances[inst].isPrefill {
        buffers.prefill := buffers.prefill + env.finished;
      } else {
        tally.requestCount := tally.requestCount + |env.finished|;
        buffers.gpu := buffers.gpu + env.finished;
      }
    }

    method LeaveIfDrained(env: Env) returns (left: bool)
      requires status == Running
      modifies this`status, this`log
      ensures View() == ExitIfDrained(old(View()), env) && status == (if left then Exited else Running)
    {
      left := tally.stopRequested && batches.inflight == map[] && exactTime.pendingById == map[]
              && !env.adapterBusy && buffers.proxies == [] && sameTime.pending.None?;
      if left {
        status := Exited;
        log := log + [Left];
      }
    }

    /** Any answer but an absolute advance or an exit carries the queued commands with it. */
    method WriteFlush(env: Env)
      modifies buffers`queued, this`log, this`status, exactTime
      ensures View() == Flush(old(View()), env)
    {
      hide RequestLog, Armed;
      log := log + RequestLog(buffers.queued);
      buffers.queued := [];
      var live := batches.inflight != map[] || env.adapterBusy || buffers.proxies != []
                  || exactTime.pendingById != map[] || sameTime.pending.Some?;
      if !tally.stopRequested && live && env.nextExact.Some? {
        var r := exactTime.Arm(env.nextExact.value, current);
        if r.Err? { status := Failed; }
      }
    }

    method TryFormBatch(env: Env, inst: nat, sys: int, id: int) returns (formed: bool)
      requires inst < |config.instances|
      modifies batches
      ensures match FormBatch(config, old(View()), env, inst, sys, id)
              case None => !formed && View() == old(View())
              case Some(s) => formed && View() == s
    {
      formed := false;
      if sameTime.pending.Some? || tally.stopRequested { return; }
      if sys == config.instances[inst].startNpu {
        if inst in batches.inflight || !env.formsBatch { return; }
        var next := NextId(batches.lastId, inst);
        batches.lastId := batches.lastId[inst := next];
        batches.inflight := batches.inflight[inst := Batch(next, {}, {sys})];
        formed := true;
      } else if inst in batches.inflight {
        var b := batches.inflight[inst];
        if b.id != id || sys in b.fired { return; }
        batches.inflight := batches.inflight[inst := b.(fired := b.fired + {sys})];
        formed := true;
      }
    }

    method SleepEndpoint(env: Env, inst: nat, sys: int)
      requires inst < |config.instances| && status == Running
      modifies shutdown, this`status, this`log, buffers`queued, exactTime
      ensures View() == MarkDone(config, old(View()), env, inst, sys)
    {
      shutdown.MarkAsleep(config, inst, sys);
      hide Prefills, Flush;
      assert View() == Asleep(config, old(View()), inst, sys);
      if |shutdown.done| == |config.instances| {
        log := log + [Left];
        status := Exited;
      } else {
        WriteFlush(env);
      }
      hide Asleep;
    }

    method IdleEndpoint(env: Env)
      modifies this`current, this`floor, this`status, this`log, buffers`queued, exactTime
      ensures View() == Idle(old(View()), env)
    {
      hide Flush;
      if env.nextIdle.Some? && env.nextIdle.value > current && batches.inflight == map[]
         && !env.astraJobs && exactTime.pendingById == map[] && sameTime.pending.None? {
        floor := env.nextIdle.value;
        current := env.nextIdle.value;
        log := log + [Advanced(current)];
      } else {
        WriteFlush(env);
      }
    }

    method AnswerEndpoint(env: Env, inst: nat, sys: int, id: int)
      requires inst < |config.instances| && status == Running
      modifies this, batches, shutdown, buffers`queued, exactTime
      ensures View() == Respond(config, old(View()), env, inst, sys, id)
    {
      hide FormBatch, MarkDone, Idle, Flush;
      var formed := TryFormBatch(env, inst, sys, id);
      if formed {
        log := log + [Dispatched];
        WriteFlush(env);
        return;
      }
      if (config.instances[inst].isPrefill || shutdown.prefillDone) && inst !in shutdown.done && env.queueEmpty
         && inst !in batches.inflight && env.routerIdle && buffers.gpu == []
         && !env.adapterBusy && buffers.proxies == [] && sameTime.pending.None? {
        SleepEndpoint(env, inst, sys);
      } else {
        IdleEndpoint(env);
      }
    }

    method Fence(inst: nat, sys: int, id: int)
      requires status == Running
      modifies buffers`queued, this`status, sameTime
      ensures View() == Fenced(old(View()), inst, sys, id)
    {
      hide ArmTie;
      if inst in batches.inflight && batches.inflight[inst].id == id - 1 && sys !in batches.inflight[inst].ends {
        ArmBarrier();
      }
    }

    method Take(env: Env, inst: nat, sys: int, id: int)
      requires status == Running
      modifies this, tally, batches, buffers, sameTime
      ensures View() == TakeReport(config, old(View()), env, inst, sys, id)
    {
      RouteStrictlyOlder(env);
      assert View().status == Running;
      hide RouteOlder;
      Fence(inst, sys, id);
      assert status == Running || status == Failed;
      hide AddDone, ExitIfDrained, Fenced;
      if status == Failed { return; }
      RecordReport(env, inst, sys, id);
      var _ := LeaveIfDrained(env);
    }

    // ------------------------------------------------------------------ the callbacks

    method ModelComplete(env: Env, sys: int, id: int, cycle: int)
      requires status == Running
      modifies this, sameTime, exactTime, tally, buffers, batches, shutdown
      ensures View() == OnModelComplete(config, old(View()), env, sys, id, cycle)
    {
      hide TakeReport, Respond;
      Acknowledge(cycle);
      if status == Failed { return; }
      if sys !in config.owner || config.owner[sys] >= |config.instances| { status := Failed; return; }
      var inst := config.owner[sys];
      Take(env, inst, sys, id);
      if status == Running { AnswerEndpoint(env, inst, sys, id); }
    }

    method ContinueOrLeave(env: Env)
      requires status == Running
      modifies this`status, this`log, buffers`queued, exactTime
      ensures View() == Continue(old(View()), env)
    {
      hide Flush, ExitIfDrained;
      var left := LeaveIfDrained(env);
      if !left { WriteFlush(env); }
    }

    method HbfBackgroundComplete(env: Env, completion: int, completions: seq<Request>)
      requires status == Running
      modifies this, sameTime, exactTime, tally, buffers
      ensures View() == OnHbfComplete(old(View()), env, completion, completions)
    {
      hide BarrierArmed, Continue;
      Acknowledge(completion);
      if status == Failed { return; }
      RouteStrictlyOlder(env);
      assert status == Running;
      hide RouteOlder;
      buffers.proxies := buffers.proxies + completions;
      log := log + DeferLog(Tagged(completions, Hbf), current);
      ArmBarrier();
      if status == Running { ContinueOrLeave(env); }
    }

    /** Hand a control callback to its owner. */
    method DeliverControl(env: Env, eventId: EventId)
      requires status == Running
      modifies this`status, this`log, sameTime, exactTime, tally, buffers
      ensures var s := AnswerControl(config, old(View()), env, eventId);
        if s.status.Failed? then status == Failed else View() == s
    {
      hide CommitTie, ArmTie, BarrierCompleted, Completed;
      var owns := (sameTime.pending.Some? && sameTime.pending.value.0 == eventId) || eventId in sameTime.completed;
      if owns {
        var r := sameTime.Complete(eventId, current);
        if r.Err? { status := Failed; } else { ProcessTieBarrier(env); }
      } else {
        var r := exactTime.Complete(eventId, current);
        if r.Err? { status := Failed; } else { ArmBarrier(); }
      }
    }

    method ControlEvent(env: Env, eventId: EventId, time: int)
      requires status == Running
      modifies this, sameTime, exactTime, tally, buffers
      ensures var s := OnControl(config, old(View()), env, eventId, time);
        if s.status.Failed? then status == Failed else View() == s
    {
      hide AnswerControl, Continue;
      Acknowledge(time);
      if status == Failed { return; }
      DeliverControl(env, eventId);
      if status == Running { ContinueOrLeave(env); }
    }

    /** The loop: one callback per iteration until the run leaves, or raises. */
    method Serve(events: seq<(Event, Env)>)
      modifies this, sameTime, exactTime, tally, buffers, batches, shutdown
      ensures var s := Run(config, old(View()), events);
        if s.status.Failed? then status == Failed else View() == s
    {
      hide OnModelComplete, OnControl, OnHbfComplete;
      ghost var start := View();
      var i := 0;
      while i < |events| && status == Running
        invariant 0 <= i <= |events|
        invariant var s := Run(config, start, events[..i]);
          if s.status.Failed? then status == Failed else View() == s
      {
        assert events[..i + 1][..i] == events[..i];
        var env := events[i].1;
        match events[i].0 {
          case ModelComplete(sys, id, cycle) => ModelComplete(env, sys, id, cycle);
          case ControlEvent(eventId, time) => ControlEvent(env, eventId, time);
          case HbfComplete(completion, completions) => HbfBackgroundComplete(env, completion, completions);
        }
        i := i + 1;
      }
      assert events[..|events|] == events;
      StoppedStays(config, start, events, i);
    }
  }

  /** After a run has left or raised, further callbacks change nothing. */
  lemma {:induction false} StoppedStays(config: Config, s: State, events: seq<(Event, Env)>, i: nat)
    requires i <= |events|
    requires i == |events| || !Run(config, s, events[..i]).status.Running?
    ensures Run(config, s, events) == Run(config, s, events[..i])
    decreases |events|
  {
    if i == |events| {
      assert events[..i] == events;
    } else {
      var n := |events| - 1;
      assert events[..n][..i] == events[..i];
      StoppedStays(config, s, events[..n], i);
    }
  }
}
