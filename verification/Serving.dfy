/** The event loop without the HBF runtime (serving/__main__.py, the `while True` loop of main), as a
  state machine over values; ServingLoop holds the object whose methods take these steps.

  A callback is a model report, an exact-time control or the completion of a background transfer. What
  the schedulers, the router and the KV manager decide on their own reaches a step through its
  environment. The backend's side of parking is part of the state: which endpoint groups sleep until
  the next completion generation.
 */
module Serving {
  import opened Wrappers
  import opened Controls
  import opened DpWaves

  datatype Backend = Analytical | Polling(quantum: int)

  /** `external`: cold transfers run on the backend's fabric, which requires a KV manager. */
  datatype Setup = Setup(config: Config, backend: Backend, manager: bool, external: bool, interval: real)

  /** What one routing pass does to cold transfers: which it issues, and which completed ones it consumes. */
  datatype Routing = Routing(issued: map<int, Issue>, consumed: set<int>)

  /** A cold transfer as it is handed to the backend, and the callback that reports it: the backend adds when
      its critical lane started and when it completed. */
  datatype Issue = Issue(arrival: int, bytesPerLane: int, lanes: int)

  datatype Callback = Callback(issue: Issue, start: int, completion: int) {
    predicate Causal() { issue.arrival <= start <= completion }
  }

  datatype Env = Env(
    prompt: int, generated: int,     // tokens the batch adds, should it complete now
    boundary: bool,                  // the completed requests reach the measurement boundary
    older: Routing,                  // routing what arrived strictly before this callback
    routed: Routing,                 // routing what has arrived by now
    choice: Choice,
    emptyQueues: set<nat>,           // instances whose request queue is empty
    routerIdle: bool,                // no pending request, deferred session or decode handoff
    nextExact: Option<int>, nextIdle: Option<int>)

  datatype Event =
    | ModelComplete(sys: int, id: int, cycle: int)
    | ControlEvent(eventId: EventId, time: int)
    | TransferComplete(job: int, callback: Callback)

  datatype Command = Workload(k: Key) | Pass | Park | Done | Exit | AdvanceTo(time: int) | Continue

  datatype Clock = Clock(current: int, floor: int, offset: int)

  datatype Meter = Meter(promptOpen: int, genOpen: int, totalPrompt: int, totalGen: int, lastLog: real, buckets: seq<(int, int)>)

  datatype Shutdown = Shutdown(prefillDone: bool, doneNpus: map<nat, set<int>>, done: seq<nat>)

  datatype Status = Running | Exited | Failed

  /** Cold transfers on the backend's fabric: those that routing has not consumed yet, and every callback that
      has come. */
  datatype Transfers = Transfers(pending: map<int, Issue>, answered: map<int, Callback>) {
    predicate HasPending() { pending != map[] }

    /** The backend still owes the callback. */
    predicate Owes(job: int) { job in pending && job !in answered }
  }

  const NoTransfers := Transfers(map[], map[])

  datatype State = State(
    clock: Clock, work: Work, exact: Schedule, jobs: Transfers, meter: Meter, shutdown: Shutdown,
    stop: bool, earlyStopped: bool, parked: set<nat>, sent: seq<Command>, status: Status)

  function Init(): State {
    State(Clock(0, 0, 0), NoWork, EmptySchedule, NoTransfers, Meter(0, 0, 0, 0, 0.0, []), Shutdown(false, map[], []),
          false, false, {}, [], Running)
  }

  function Fail(s: State): State { s.(status := Failed) }

  // ---------------------------------------------------------------- pure helpers of the loop

  /** lines 299-330, without the HBF runtime */
  predicate Drained(s: State) {
    s.stop && s.work.inflight == map[] && s.work.pending == map[] && s.work.ready == map[]
    && !s.jobs.HasPending() && !s.exact.HasPending()
  }

  /** lines 158-167: with a manager only a dispatched batch counts */
  predicate DispatchedWork(setup: Setup, w: Work) {
    exists k :: k in w.inflight && (!setup.manager || w.inflight[k].dispatched)
  }

  /** lines 169-183 */
  predicate PartlyReported(w: Work) { exists k :: k in w.inflight && w.inflight[k].ends != {} }

  /** lines 135-156 */
  function IdleCommand(setup: Setup, controllerEndpoint: bool, wakeup: bool, partly: bool): Command {
    if setup.backend.Analytical? && controllerEndpoint && wakeup && !partly then Park else Pass
  }

  // ---------------------------------------------------------------- pieces of a step

  /** lines 213-224 and 1877-1882 */
  function Reported(setup: Setup, c: Clock, time: int): Option<Clock> {
    if setup.backend.Polling? then Some(c.(current := time + c.offset))
    else if time < 0 || time < c.floor then None
    else Some(c.(current := time, floor := time))
  }

  /** Control and transfer callbacks carry an absolute time on every backend. */
  function Absolute(c: Clock, time: int): Option<Clock> {
    if time < 0 || time < c.floor then None else Some(c.(current := time, floor := time))
  }

  /** One answer goes back for every callback. Any but an exit or an advance may carry a new exact-time
      control (lines 1481-1555, and write_flush in serving/core/controller.py). */
  function Answer(setup: Setup, s: State, env: Env, command: Command): State {
    var t := s.(sent := s.sent + [command]);
    if !setup.external || command.Exit? || command.AdvanceTo? || s.stop || env.nextExact.None?
       || !(s.work.inflight != map[] || s.jobs.HasPending() || s.exact.HasPending())
    then t
    else match Armed(s.exact, env.nextExact.value, s.clock.current)
      case Err(_) => Fail(t)
      case Ok(v) => t.(exact := v.0)
  }

  function Leave(s: State, early: bool): State {
    s.(sent := s.sent + [Exit], earlyStopped := early, status := Exited)
  }

  /** The first report of a dispatched batch opens its completion generation and wakes the parked. */
  predicate Opens(w: Work, inst: nat, id: int) {
    Key(inst, id - 1) in w.inflight && w.inflight[Key(inst, id - 1)].ends == {}
  }

  /** A transfer counts as pending until routing consumes it, which it does only after the callback. Job
      numbers are never used again. */
  function Routed(jobs: Transfers, r: Routing): Transfers {
    jobs.(pending := (r.issued - jobs.answered.Keys) + (jobs.pending - (r.consumed * jobs.answered.Keys)))
  }

  /** A transfer callback. The first one must agree with what was issued and is recorded, an identical repeat
      is ignored, anything else is an error. In a frozen run the transfer is then dropped instead of
      consumed. */
  function Called(jobs: Transfers, job: int, callback: Callback, frozen: bool): Option<Transfers> {
    if job in jobs.answered && (jobs.answered[job] != callback || (frozen && job !in jobs.pending)) then None
    else if job !in jobs.answered && (job !in jobs.pending || jobs.pending[job] != callback.issue || !callback.Causal()) then None
    else Some(Transfers(if frozen then jobs.pending - {job} else jobs.pending, jobs.answered[job := callback]))
  }

  /** Tokens enter the open bucket and the total together. */
  function Counted(m: Meter, env: Env): Meter {
    m.(promptOpen := m.promptOpen + env.prompt, totalPrompt := m.totalPrompt + env.prompt,
       genOpen := m.genOpen + env.generated, totalGen := m.totalGen + env.generated)
  }

  /** The completion half of a model callback (lines 1894-2009): route what is strictly older, record the
      report, count the tokens, and freeze the source at the measurement boundary. */
  function TakeReport(setup: Setup, s: State, env: Env, inst: nat, sys: int, id: int): State
    requires inst < |setup.config.instances|
  {
    var (work, completed) := Report(setup.config, s.work, inst, sys, id);
    s.(work := work, meter := if completed then Counted(s.meter, env) else s.meter, stop := s.stop || (completed && env.boundary),
       jobs := if s.stop || s.clock.current <= 0 then s.jobs else Routed(s.jobs, env.older),
       parked := if Opens(s.work, inst, id) then {} else s.parked)
  }

  /** Until the source freezes, arrivals are routed. */
  function RouteArrivals(s: State, env: Env): State {
    if s.stop then s else s.(jobs := Routed(s.jobs, env.routed))
  }

  /** A frozen run only completes waves that were already open (lines 2080-2092). */
  predicate CompletesWave(setup: Setup, s: State, inst: nat) {
    s.stop && s.work.WaveOpen(setup.config, inst) && inst !in s.work.pending
  }

  function ChoiceNow(setup: Setup, s: State, env: Env, inst: nat): Choice {
    Choice(!s.stop || CompletesWave(setup, s, inst), env.choice.shape,
           setup.manager && env.choice.engineBlocked, setup.manager && env.choice.fabricBlocked)
  }

  /** lines 2348-2366 */
  function FlushBuckets(setup: Setup, s: State, first: bool): State {
    if s.clock.current as real > s.meter.lastLog + setup.interval && first then
      s.(meter := s.meter.(buckets := s.meter.buckets + [(s.meter.promptOpen, s.meter.genOpen)],
                           lastLog := s.meter.lastLog + setup.interval, promptOpen := 0, genOpen := 0))
    else s
  }

  predicate MayBeDone(setup: Setup, s: State, env: Env, inst: nat)
    requires inst < |setup.config.instances|
  {
    && (setup.config.instances[inst].role != Decode || s.shutdown.prefillDone)
    && inst !in s.shutdown.done
    && inst in env.emptyQueues && s.work.Idle(inst)
    && env.routerIdle
  }

  /** A group sleeps only when all of its members are empty. */
  predicate GroupEmpty(setup: Setup, s: State, env: Env, inst: nat) {
    forall j :: j in setup.config.groupOf && setup.config.SameGroup(inst, j) ==> j in env.emptyQueues && s.work.Idle(j)
  }

  function Prefills(config: Config): set<nat> {
    set i | 0 <= i < |config.instances| && config.instances[i].role == Prefill
  }

  function Asleep(setup: Setup, d: Shutdown, inst: nat, sys: int): Shutdown
    requires inst < |setup.config.instances|
  {
    var npus := if inst in d.doneNpus then d.doneNpus[inst] + {sys} else {sys};
    var needed := if setup.config.instances[inst].npus == 1 then 1 else 2;
    var done := if |npus| == needed then d.done + [inst] else d.done;
    Shutdown(d.prefillDone || |done| == |Prefills(setup.config)|, d.doneNpus[inst := npus], done)
  }

  /** lines 2486-2531 */
  function MarkDone(setup: Setup, s: State, env: Env, inst: nat, sys: int): State
    requires inst < |setup.config.instances|
  {
    var t := s.(shutdown := Asleep(setup, s.shutdown, inst, sys));
    if |t.shutdown.done| == |setup.config.instances| then Leave(t, s.earlyStopped) else Answer(setup, t, env, Done)
  }

  /** The backend owes nothing, so time may jump (lines 2661-2667). */
  predicate MayAdvance(s: State, env: Env) {
    env.nextIdle.Some? && env.nextIdle.value > s.clock.current
    && s.work.inflight == map[] && !s.jobs.HasPending() && !s.exact.HasPending()
  }

  /** lines 186-203: the next poll, one quantum later, lands on the target */
  function PollDelta(c: Clock, target: int, quantum: int): int { target - c.current - quantum }

  /** Nothing to run (lines 2532-2683). */
  function Idle(setup: Setup, s: State, env: Env, inst: nat, sys: int): State
    requires inst < |setup.config.instances|
  {
    if s.work.pending != map[] || s.work.ready != map[] then Answer(setup, s, env, Pass)
    else
      var command := IdleCommand(setup, sys == setup.config.instances[inst].start,
                                 DispatchedWork(setup, s.work) || s.jobs.HasPending() || s.exact.HasPending(),
                                 PartlyReported(s.work));
      if !MayAdvance(s, env) then
        Answer(setup, if command.Park? then s.(parked := s.parked + {inst}) else s, env, command)
      else
        var target := env.nextIdle.value;
        if setup.backend.Analytical? then
          Answer(setup, s.(clock := s.clock.(current := target, floor := target)), env, AdvanceTo(target))
        else
          var delta := PollDelta(s.clock, target, setup.backend.quantum);
          Answer(setup, s.(clock := s.clock.(current := s.clock.current + delta, offset := s.clock.offset + delta)), env, command)
  }

  /** The instance has nothing to run: it is finished, or it waits (lines 2468-2683). */
  function Rest(setup: Setup, s: State, env: Env, inst: nat, sys: int): State
    requires inst < |setup.config.instances|
  {
    if !MayBeDone(setup, s, env, inst) then Idle(setup, s, env, inst, sys)
    else if !GroupEmpty(setup, s, env, inst) then Answer(setup, s, env, Pass)
    else MarkDone(setup, s, env, inst, sys)
  }

  /** The other half of a model callback: schedule and answer. */
  function Respond(setup: Setup, s: State, env: Env, inst: nat, sys: int, id: int): State
    requires setup.config.Valid() && inst < |setup.config.instances|
  {
    var (work, reply) := Dispatch(setup.config, s.work, inst, sys, id, ChoiceNow(setup, s, env, inst));
    var t := s.(work := work);
    var first := sys == setup.config.instances[inst].start;
    match reply
    case Ran(k) => FlushBuckets(setup, Answer(setup, t, env, Workload(k)), first)
    case Waits => FlushBuckets(setup, Answer(setup, t, env, Pass), first)
    case Nothing => Rest(setup, FlushBuckets(setup, t, first), env, inst, sys)
  }

  function OnModelComplete(setup: Setup, s: State, env: Env, sys: int, id: int, cycle: int): State
    requires setup.config.Valid()
  {
    var clock := Reported(setup, s.clock, cycle);
    if clock.None? || sys !in setup.config.owner then Fail(s)
    else
      var inst := setup.config.owner[sys];
      var a := TakeReport(setup, s.(clock := clock.value), env, inst, sys, id);
      if Drained(a) then Leave(a, true) else Respond(setup, RouteArrivals(a, env), env, inst, sys, id)
  }

  /** The state a model report is answered in: the report recorded, arrivals routed. */
  function Polled(setup: Setup, s: State, env: Env, sys: int, id: int, cycle: int): State
    requires setup.config.Valid() && sys in setup.config.owner && Reported(setup, s.clock, cycle).Some?
  {
    var b := s.(clock := Reported(setup, s.clock, cycle).value);
    RouteArrivals(TakeReport(setup, b, env, setup.config.owner[sys], sys, id), env)
  }

  function ContinueOrLeave(setup: Setup, s: State, env: Env): State {
    if Drained(s) then Leave(s, true) else Answer(setup, s, env, Continue)
  }

  /** lines 1766-1802 */
  function OnControl(setup: Setup, s: State, env: Env, eventId: EventId, time: int): State {
    var clock := Absolute(s.clock, time);
    if !setup.external || clock.None? then Fail(s)
    else match Completed(s.exact, eventId, time)
      case Err(_) => Fail(s)
      case Ok(v) =>
        var a := s.(clock := clock.value, exact := v.0, parked := if v.1 then {} else s.parked);
        ContinueOrLeave(setup, RouteArrivals(a, env), env)
  }

  /** lines 1804-1835 */
  function OnTransfer(setup: Setup, s: State, env: Env, job: int, callback: Callback): State {
    var clock := Absolute(s.clock, callback.completion);
    var jobs := Called(s.jobs, job, callback, s.stop);
    if !setup.external || clock.None? || jobs.None? then Fail(s)
    else
      var a := s.(clock := clock.value, parked := if job in s.jobs.answered then s.parked else {}, jobs := jobs.value);
      ContinueOrLeave(setup, RouteArrivals(a, env), env)
  }

  function Step(setup: Setup, s: State, event: Event, env: Env): State
    requires setup.config.Valid()
  {
    if !s.status.Running? then s
    else match event
      case ModelComplete(sys, id, cycle) => OnModelComplete(setup, s, env, sys, id, cycle)
      case ControlEvent(eventId, time) => OnControl(setup, s, env, eventId, time)
      case TransferComplete(job, callback) => OnTransfer(setup, s, env, job, callback)
  }

  function Run(setup: Setup, s: State, events: seq<(Event, Env)>): State
    requires setup.config.Valid()
  {
    if events == [] then s
    else
      var n := |events| - 1;
      Step(setup, Run(setup, s, events[..n]), events[n].0, events[n].1)
  }
}
