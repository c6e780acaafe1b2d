/** Batches in flight and the data-parallel waves they are assembled into (serving/__main__.py,
  lines 2080-2345, with _pad_batch_to_max, and the batch bookkeeping of serving/core/scheduler.py).

  Members of a data-parallel group may only run together. A member's batch waits in `pending` until
  every member has one; then all are padded to the longest, and each member's workload is handed out
  at its own next callback: at once for the member that completed the wave, through `ready` for the
  others. Entries name a batch by instance and batch id.
 */
module DpWaves {
  import opened Wrappers

  datatype Role = Prefill | Decode | Colocated

  datatype Instance = Instance(start: int, npus: nat, stages: nat, role: Role) {
    /** The endpoint that reports last; a prefill graph also spans its decode peer. */
    function Last(): int { if role.Prefill? then start + npus * 2 - 1 else start + npus - 1 }

    function Endpoints(): set<int> { {start, Last()} }
  }

  /** `owner` maps an NPU to its instance, `groupOf` an instance to its group, and `groups` lists the
      members of each group. */
  datatype Config = Config(instances: seq<Instance>, owner: map<int, nat>, groupOf: map<nat, nat>, groups: seq<seq<nat>>) {
    function Members(g: nat): set<nat> {
      set i | i in groupOf && groupOf[i] == g
    }

    predicate SameGroup(i: nat, j: nat) { i in groupOf && j in groupOf && groupOf[i] == groupOf[j] }

    ghost predicate Valid() {
      && (forall sys :: sys in owner ==> owner[sys] < |instances|)
      && (forall i :: i in groupOf ==> i < |instances| && groupOf[i] < |groups|)
      && (forall g, i :: 0 <= g < |groups| ==> (i in groups[g] <==> i in groupOf && groupOf[i] == g))
    }

    /** Every member of a group is one NPU: it is both the first and the last endpoint, and the only
        one that reports. */
    ghost predicate SingleEndpointMembers() {
      && (forall i :: i in groupOf && i < |instances| ==>
            instances[i].start == instances[i].Last() && instances[i].stages == 1)
      && (forall sys :: sys in owner && owner[sys] in groupOf && owner[sys] < |instances| ==>
            sys == instances[owner[sys]].start)
    }
  }

  datatype Key = Key(inst: nat, id: int)

  /** `dispatched` says that the batch's graph was handed to the backend. */
  datatype Batch = Batch(totalLen: int, kvLen: int, numDecode: int, ends: set<int>, fired: set<int>, dispatched: bool)

  datatype Shape = Shape(totalLen: int, kvLen: int, numDecode: int)

  const DummyShape := Shape(1, 1, 1)

  /** `starts` records the graphs handed to first endpoints, in order. */
  datatype Work = Work(
    inflight: map<Key, Batch>, lastId: map<nat, int>,
    pending: map<nat, int>, ready: map<nat, int>, starts: seq<Key>)
  {
    function Of(inst: nat): set<Key> { set k | k in inflight && k.inst == inst }

    predicate Idle(inst: nat) { Of(inst) == {} }

    /** Batches are numbered from zero, per instance. */
    function NextId(inst: nat): int { if inst in lastId then lastId[inst] + 1 else 0 }

    /** The members of a group whose batch waits. */
    function Waiting(config: Config, g: nat): set<nat> {
      set i | i in pending && i in config.groupOf && config.groupOf[i] == g
    }

    predicate WaveOpen(config: Config, inst: nat) {
      inst in config.groupOf && Waiting(config, config.groupOf[inst]) != {}
    }
  }

  const NoWork := Work(map[], map[], map[], map[], [])

  // ---------------------------------------------------------------- padding

  /** Bring a batch up to `maxLen` tokens; each added token is a decode over one cached entry. */
  function Padded(b: Batch, maxLen: int): Batch {
    var pad := maxLen - b.totalLen;
    if pad <= 0 then b
    else b.(totalLen := maxLen, kvLen := b.kvLen + pad, numDecode := b.numDecode + pad)
  }

  function LengthOf(inflight: map<Key, Batch>, pending: map<nat, int>, m: nat): int {
    if m in pending && Key(m, pending[m]) in inflight then inflight[Key(m, pending[m])].totalLen else 0
  }

  /** The longest waiting batch of the listed members. */
  function Longest(inflight: map<Key, Batch>, pending: map<nat, int>, members: seq<nat>): int {
    if members == [] then 0
    else
      var length := LengthOf(inflight, pending, members[0]);
      var rest := Longest(inflight, pending, members[1..]);
      if |members| == 1 || length > rest then length else rest
  }

  // ---------------------------------------------------------------- the scheduler's bookkeeping

  /** A batch callback: the first report of `sys` for batch `id - 1` is recorded, and the batch leaves
      once both its endpoints have reported. */
  function Report(config: Config, w: Work, inst: nat, sys: int, id: int): (Work, bool)
    requires inst < |config.instances|
  {
    var k := Key(inst, id - 1);
    if k !in w.inflight || sys in w.inflight[k].ends then (w, false)
    else
      var b := w.inflight[k];
      var ends := b.ends + {sys};
      if config.instances[inst].Endpoints() <= ends then (w.(inflight := w.inflight - {k}), true)
      else (w.(inflight := w.inflight[k := b.(ends := ends)]), false)
  }

  function AddBatch(w: Work, inst: nat, shape: Shape, sys: int): Work {
    var id := w.NextId(inst);
    w.(lastId := w.lastId[inst := id],
       inflight := w.inflight[Key(inst, id) := Batch(shape.totalLen, shape.kvLen, shape.numDecode, {}, {sys}, false)])
  }

  /** The first endpoint may form a new batch when a pipeline stage is free; another endpoint may pick
      up the batch it reported before. The answer is the batch to run. */
  function Form(config: Config, w: Work, inst: nat, sys: int, id: int, shape: Option<Shape>): Option<(Work, int)>
    requires inst < |config.instances|
  {
    if sys == config.instances[inst].start then
      if shape.None? || |w.Of(inst)| >= config.instances[inst].stages then None
      else Some((AddBatch(w, inst, shape.value, sys), w.NextId(inst)))
    else
      var k := Key(inst, id);
      if k !in w.inflight || sys in w.inflight[k].fired then None
      else Some((w.(inflight := w.inflight[k := w.inflight[k].(fired := w.inflight[k].fired + {sys})]), id))
  }

  // ---------------------------------------------------------------- waves

  /** Hand a batch's graph to the backend. */
  function Launch(w: Work, k: Key): Work
    requires k in w.inflight
  {
    w.(inflight := w.inflight[k := w.inflight[k].(dispatched := true)], starts := w.starts + [k])
  }

  /** A member's batch joins its group's wave. */
  function Enter(w: Work, inst: nat, id: int): Work {
    w.(pending := w.pending[inst := id])
  }

  predicate Full(config: Config, w: Work, g: nat) {
    |w.Waiting(config, g)| == |config.Members(g)|
  }

  function PadWave(config: Config, w: Work, g: nat): map<Key, Batch>
    requires g < |config.groups|
  {
    var longest := Longest(w.inflight, w.pending, config.groups[g]);
    map k | k in w.inflight ::
      if k.inst in w.Waiting(config, g) && w.pending[k.inst] == k.id then Padded(w.inflight[k], longest) else w.inflight[k]
  }

  /** The wave is complete: pad every batch to the longest and make the others' workloads ready. */
  function Fire(config: Config, w: Work, g: nat, inst: nat): Work
    requires g < |config.groups|
  {
    var wave := w.Waiting(config, g);
    w.(inflight := PadWave(config, w, g), pending := w.pending - wave,
       ready := w.ready + (map i | i in wave && i != inst :: w.pending[i]))
  }

  /** A batch that is ready to run but whose instance is held up, or runs now. */
  function RunOrHold(w: Work, k: Key, blocked: bool): Work {
    if blocked || k !in w.inflight then w.(ready := w.ready[k.inst := k.id]) else Launch(w, k)
  }

  /** Enter, and fire the wave when that was the last member. */
  function Join(config: Config, w: Work, inst: nat, id: int, blocked: bool): Work
    requires inst in config.groupOf && config.groupOf[inst] < |config.groups|
  {
    var g := config.groupOf[inst];
    var entered := Enter(w, inst, id);
    if Full(config, entered, g) then RunOrHold(Fire(config, entered, g, inst), Key(inst, id), blocked) else entered
  }

  /** What the present callback may do. */
  datatype Choice = Choice(
    mayForm: bool,              // the loop consults the scheduler
    shape: Option<Shape>,       // the batch the scheduler would form
    engineBlocked: bool,        // a transfer or the shared fabric holds the instance
    fabricBlocked: bool)        // the shared fabric holds the instance once the wave is built

  datatype Reply = Ran(k: Key) | Waits | Nothing

  /** The scheduling part of a model callback (lines 2080-2345). */
  function Dispatch(config: Config, w: Work, inst: nat, sys: int, id: int, choice: Choice): (Work, Reply)
    requires config.Valid() && inst < |config.instances|
  {
    var formed := if choice.mayForm then Form(config, w, inst, sys, id, choice.shape) else None;
    var first := sys == config.instances[inst].start;
    if formed.Some? then
      var (v, batch) := formed.value;
      if !first then (v, Ran(Key(inst, batch)))
      else if inst !in config.groupOf then (Launch(v, Key(inst, batch)), Ran(Key(inst, batch)))
      else Joined(config, v, inst, batch, choice.fabricBlocked)
    else if inst in w.ready && !choice.engineBlocked then
      var k := Key(inst, w.ready[inst]);
      if k in w.inflight then (Launch(w.(ready := w.ready - {inst}), k), Ran(k)) else (w.(ready := w.ready - {inst}), Nothing)
    else if inst in config.groupOf && !choice.engineBlocked && first && w.Idle(inst) && w.WaveOpen(config, inst) then
      Joined(config, AddBatch(w, inst, DummyShape, sys), inst, w.NextId(inst), choice.fabricBlocked)
    else (w, Nothing)
  }

  /** A joining member runs when it completes the wave and nothing holds it; otherwise it waits. */
  function Joined(config: Config, w: Work, inst: nat, id: int, blocked: bool): (Work, Reply)
    requires config.Valid() && inst in config.groupOf
  {
    (Join(config, w, inst, id, blocked),
     if Full(config, Enter(w, inst, id), config.groupOf[inst]) && !blocked then Ran(Key(inst, id)) else Waits)
  }
}
