/** The event loop with the full-model HBF runtime (serving/__main__.py, the `while True` loop of main).

  GPU completions, prefill completions and HBF completions that report at one timestamp are deferred,
  and committed together when the same-time barrier's callback arrives. This module is the loop as a
  state machine over values; HbfServing holds the object whose methods take these steps.

  One prefill and one decode instance run, each with at most one batch in flight, as the start-up
  checks demand. What the schedulers, the router and the HBF adapter decide on their own reaches a
  step through its environment, which is arbitrary.
 */
module HbfLoop {
  import opened Wrappers
  import opened Sorting
  import opened Controls
  import opened TieCommit

  datatype Batch = Batch(id: int, ends: set<int>, fired: set<int>)

  datatype Instance = Instance(startNpu: int, npus: nat, isPrefill: bool) {
    /** The endpoint that reports last; a prefill graph also spans its decode peer. */
    function LastNpu(): int { if isPrefill then startNpu + npus * 2 - 1 else startNpu + npus - 1 }
  }

  datatype Config = Config(instances: seq<Instance>, owner: map<int, nat>, policy: Policy)

  /** What the parts outside the loop answer during one callback. */
  datatype Env = Env(
    finished: seq<Request>,      // the requests the batch ends, should it complete now
    formsBatch: bool,            // the scheduler has a batch to form
    queueEmpty: bool,            // the instance's request queue is empty
    routerIdle: bool,            // no pending request, deferred session or decode handoff
    adapterBusy: bool,           // HBF work other than completions waiting for the barrier
    astraJobs: bool,             // HBF work that still owes a backend callback
    nextExact: Option<int>,      // the next exact-time wakeup
    nextIdle: Option<int>,       // the next idle wakeup
    routed: Router)              // the router after routing arrivals

  datatype Event =
    | ModelComplete(sys: int, id: int, cycle: int)
    | ControlEvent(eventId: EventId, time: int)
    | HbfComplete(completion: int, completions: seq<Request>)

  /** What a run does, in order. A commit records whether the router had the request as its session's last. */
  datatype Action =
    | Deferred(item: Item, time: int) | Committed(item: Item, time: int, final: bool) | Froze
    | Routed | Dispatched | Advanced(time: int) | Requested(eventId: EventId) | Left

  datatype Status = Running | Exited | Failed

  datatype State = State(
    current: int, floor: int,
    inflight: map<nat, Batch>, lastId: map<nat, int>,
    barrier: Barrier, exact: Schedule, queued: seq<EventId>,
    gpu: seq<Request>, prefill: seq<Request>, proxies: seq<Request>,
    tie: Tie,
    prefillDone: bool, doneNpus: map<nat, set<int>>, done: seq<nat>,
    log: seq<Action>, status: Status)
  {
    predicate AnyInflight() { inflight != map[] }

    predicate AdapterPending(env: Env) { env.adapterBusy || proxies != [] }

    predicate RoutingBlocked() { barrier.HasPending() || proxies != [] }

    /** Nothing that was already issued is still owed (lines 299-330). */
    predicate Drained(env: Env) {
      tie.stopRequested && !AnyInflight() && !exact.HasPending() && !AdapterPending(env) && !barrier.HasPending()
    }

    /** Completions waiting for the barrier. */
    function Waiting(): seq<Item> { Items(gpu, proxies, prefill) }
  }

  function Init(config: Config, router: Router): State {
    State(0, 0, map[], map[], EmptyBarrier, EmptySchedule, [], [], [], [],
          Tie(router, false, 0, 0, 0, 0, 0, [], []),
          false, map[], [], [], Running)
  }

  // ---------------------------------------------------------------- the pieces of a step

  function Note(s: State, action: Action): State { s.(log := s.log + [action]) }

  function Fail(s: State): State { s.(status := Failed) }

  /** The reported time may not fall below the acknowledged floor (lines 213-224). */
  function Reported(s: State, time: int): State {
    if time < 0 || time < s.floor then Fail(s) else s.(current := time, floor := time)
  }

  function Route(s: State, env: Env): State {
    Note(s.(tie := s.tie.(router := env.routed)), Routed)
  }

  /** Route what arrived strictly before this callback, unless a tie is open (lines 343-390). */
  function RouteOlder(s: State, env: Env): State {
    if !s.tie.stopRequested && !s.RoutingBlocked() && s.current > 0 then Route(s, env) else s
  }

  function ArmTie(s: State): State {
    match BarrierArmed(s.barrier, s.current)
    case Err(_) => Fail(s)
    case Ok(v) => s.(barrier := v.0, queued := if v.1.Some? then s.queued + [v.1.value] else s.queued)
  }

  function DeferLog(items: seq<Item>, time: int): seq<Action> {
    seq(|items|, i requires 0 <= i < |items| => Deferred(items[i], time))
  }

  function CommitLog(items: seq<Item>, router: Router, time: int): seq<Action> {
    seq(|items|, i requires 0 <= i < |items| => Committed(items[i], time, IsFinal(router, items[i].request.id)))
  }

  function RequestLog(queued: seq<EventId>): seq<Action> {
    seq(|queued|, i requires 0 <= i < |queued| => Requested(queued[i]))
  }

  /** The callback names the batch in flight and is its first report from this endpoint. */
  predicate IsReport(s: State, inst: nat, sys: int, id: int) {
    inst in s.inflight && s.inflight[inst].id == id - 1 && sys !in s.inflight[inst].ends
  }

  predicate Completes(config: Config, b: Batch, inst: nat, sys: int) {
    inst < |config.instances|
    && config.instances[inst].startNpu in b.ends + {sys} && config.instances[inst].LastNpu() in b.ends + {sys}
  }

  /** Record an endpoint report; the last one takes the batch out and defers what it finished. */
  function AddDone(config: Config, s: State, env: Env, inst: nat, sys: int, id: int): State {
    if !IsReport(s, inst, sys, id) then s
    else
      var b := s.inflight[inst];
      if !Completes(config, b, inst, sys) then
        s.(inflight := s.inflight[inst := b.(ends := b.ends + {sys})])
      else
        var kind := if config.instances[inst].isPrefill then Prefill else Gpu;
        var t := s.(inflight := s.inflight - {inst}, log := s.log + DeferLog(Tagged(env.finished, kind), s.current));
        if config.instances[inst].isPrefill then t.(prefill := t.prefill + env.finished)
        else t.(gpu := t.gpu + env.finished,
                tie := t.tie.(requestCount := t.tie.requestCount + |env.finished|))
  }

  function ExitIfDrained(s: State, env: Env): State {
    if s.Drained(env) then Note(s, Left).(status := Exited) else s
  }

  /** The commands sent before an ordinary answer: queued barrier callbacks, then at most one
      exact-time callback (lines 1481-1555). */
  function Flush(s: State, env: Env): State {
    var sent := s.(queued := [], log := s.log + RequestLog(s.queued));
    if s.tie.stopRequested || env.nextExact.None?
       || !(s.AnyInflight() || s.AdapterPending(env) || s.exact.HasPending() || s.barrier.HasPending())
    then sent
    else match Armed(s.exact, env.nextExact.value, s.current)
      case Err(_) => Fail(sent)
      case Ok(v) => sent.(exact := v.0)
  }

  /** Batches are numbered from zero, per instance. */
  function NextId(lastId: map<nat, int>, inst: nat): int {
    if inst in lastId then lastId[inst] + 1 else 0
  }

  /** `None` when the scheduler has nothing for this endpoint (lines 2080-2092). */
  function FormBatch(config: Config, s: State, env: Env, inst: nat, sys: int, id: int): Option<State>
    requires inst < |config.instances|
  {
    if s.barrier.HasPending() || s.tie.stopRequested then None
    else if sys == config.instances[inst].startNpu then
      if inst in s.inflight || !env.formsBatch then None
      else
        var next := NextId(s.lastId, inst);
        Some(s.(lastId := s.lastId[inst := next], inflight := s.inflight[inst := Batch(next, {}, {sys})]))
    else if inst in s.inflight && s.inflight[inst].id == id && sys !in s.inflight[inst].fired then
      var b := s.inflight[inst];
      Some(s.(inflight := s.inflight[inst := b.(fired := b.fired + {sys})]))
    else None
  }

  predicate MayBeDone(config: Config, s: State, env: Env, inst: nat)
    requires inst < |config.instances|
  {
    && (config.instances[inst].isPrefill || s.prefillDone)
    && inst !in s.done
    && env.queueEmpty && inst !in s.inflight
    && env.routerIdle
    && s.gpu == []
    && !s.AdapterPending(env)
    && !s.barrier.HasPending()
  }

  function Prefills(config: Config): nat {
    |set i | 0 <= i < |config.instances| && config.instances[i].isPrefill|
  }

  /** One endpoint of a finished instance goes to sleep; its last one finishes the instance. */
  function Asleep(config: Config, s: State, inst: nat, sys: int): State
    requires inst < |config.instances|
  {
    var npus := if inst in s.doneNpus then s.doneNpus[inst] + {sys} else {sys};
    var needed := if config.instances[inst].npus == 1 then 1 else 2;
    var done := if |npus| == needed then s.done + [inst] else s.done;
    s.(doneNpus := s.doneNpus[inst := npus], done := done, prefillDone := s.prefillDone || |done| == Prefills(config))
  }

  /** The run ends when every instance is finished (lines 2486-2531). */
  function MarkDone(config: Config, s: State, env: Env, inst: nat, sys: int): State
    requires inst < |config.instances|
  {
    var t := Asleep(config, s, inst, sys);
    if |t.done| == |config.instances| then Note(t, Left).(status := Exited) else Flush(t, env)
  }

  /** Nothing to run: jump to the next wakeup when the backend owes nothing, else wait (lines 2532-2683). */
  function Idle(s: State, env: Env): State {
    if env.nextIdle.Some? && env.nextIdle.value > s.current && !s.AnyInflight() && !env.astraJobs
       && !s.exact.HasPending() && !s.barrier.HasPending()
    then Note(s.(current := env.nextIdle.value, floor := env.nextIdle.value), Advanced(env.nextIdle.value))
    else Flush(s, env)
  }

  /** After the completion part of a model callback: dispatch, sleep or idle. */
  function Respond(config: Config, s: State, env: Env, inst: nat, sys: int, id: int): State
    requires inst < |config.instances|
  {
    match FormBatch(config, s, env, inst, sys, id)
    case Some(t) => Flush(Note(t, Dispatched), env)
    case None => if MayBeDone(config, s, env, inst) then MarkDone(config, s, env, inst, sys) else Idle(s, env)
  }

  /** The first report of a batch from an endpoint arms the barrier before the batch is touched. */
  function Fenced(s: State, inst: nat, sys: int, id: int): State {
    if IsReport(s, inst, sys, id) then ArmTie(s) else s
  }

  /** The completion half of a model callback (lines 1916-2002). */
  function TakeReport(config: Config, s: State, env: Env, inst: nat, sys: int, id: int): State {
    var c := Fenced(RouteOlder(s, env), inst, sys, id);
    if c.status.Failed? then c else ExitIfDrained(AddDone(config, c, env, inst, sys, id), env)
  }

  function OnModelComplete(config: Config, s: State, env: Env, sys: int, id: int, cycle: int): State {
    var a := Reported(s, cycle);
    if a.status.Failed? || sys !in config.owner || config.owner[sys] >= |config.instances| then Fail(a)
    else
      var inst := config.owner[sys];
      var d := TakeReport(config, a, env, inst, sys, id);
      if d.status.Running? then Respond(config, d, env, inst, sys, id) else d
  }

  function FreezeLog(before: Tie, after: Tie): seq<Action> {
    if after.stopRequested && !before.stopRequested then [Froze] else []
  }

  /** The atomic commit (lines 1571-1711), as seen by the loop. */
  function CommitTie(config: Config, s: State, env: Env): State {
    match Commit(s.tie, config.policy, s.gpu, s.proxies, s.prefill)
    case Err(_) => Fail(s)
    case Ok(tie) =>
      var t := s.(tie := tie, gpu := [], proxies := [], prefill := [],
                  log := s.log + FreezeLog(s.tie, tie) + CommitLog(InIdOrder(s.Waiting()), s.tie.router, s.current));
      if tie.stopRequested then t else Route(t, env)
  }

  /** A control callback belongs to the barrier, or to the exact-time schedule. */
  function AnswerControl(config: Config, s: State, env: Env, eventId: EventId): State {
    if s.barrier.Owns(eventId) then
      match BarrierCompleted(s.barrier, eventId, s.current)
      case Err(_) => Fail(s)
      case Ok(v) => CommitTie(config, s.(barrier := v.0), env)
    else
      match Completed(s.exact, eventId, s.current)
      case Err(_) => Fail(s)
      case Ok(v) => ArmTie(s.(exact := v.0))
  }

  /** Leave when drained, else let the backend go on. */
  function Continue(s: State, env: Env): State {
    var t := ExitIfDrained(s, env);
    if t.status.Running? then Flush(t, env) else t
  }

  function OnControl(config: Config, s: State, env: Env, eventId: EventId, time: int): State {
    var a := Reported(s, time);
    if !a.status.Running? then a
    else
      var b := AnswerControl(config, a, env, eventId);
      if b.status.Running? then Continue(b, env) else b
  }

  function OnHbfComplete(s: State, env: Env, completion: int, completions: seq<Request>): State {
    var a := Reported(s, completion);
    if !a.status.Running? then a
    else
      var b := RouteOlder(a, env);
      var c := ArmTie(b.(proxies := b.proxies + completions, log := b.log + DeferLog(Tagged(completions, Hbf), b.current)));
      if c.status.Running? then Continue(c, env) else c
  }

  function Step(config: Config, s: State, event: Event, env: Env): State {
    if s.status != Running then s
    else match event
      case ModelComplete(sys, id, cycle) => OnModelComplete(config, s, env, sys, id, cycle)
      case ControlEvent(eventId, time) => OnControl(config, s, env, eventId, time)
      case HbfComplete(completion, completions) => OnHbfComplete(s, env, completion, completions)
  }

  function Run(config: Config, s: State, events: seq<(Event, Env)>): State {
    if events == [] then s
    else
      var n := |events| - 1;
      Step(config, Run(config, s, events[..n]), events[n].0, events[n].1)
  }
}
