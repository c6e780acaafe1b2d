/** What every step of the wave protocol keeps, for groups of single-endpoint members. */
module WaveSafety {
  import opened Wrappers
  import opened DpWaves
  import opened Sets

  // ---------------------------------------------------------------- the invariant

  predicate InTable(w: Work, k: Key) {
    || (k.inst in w.pending && w.pending[k.inst] == k.id)
    || (k.inst in w.ready && w.ready[k.inst] == k.id)
  }

  /** A batch in flight is numbered, was given to its first endpoint and reported only by endpoints it was
      given to, still awaits one, was handed over at most once, and if it was not, it waits in a table (or
      is in `loose`). */
  ghost predicate BatchOk(config: Config, w: Work, loose: set<Key>, k: Key)
    requires k in w.inflight
  {
    && k.inst < |config.instances| && k.inst in w.lastId && k.id <= w.lastId[k.inst]
    && config.instances[k.inst].start in w.inflight[k].fired && w.inflight[k].ends <= w.inflight[k].fired
    && !(config.instances[k.inst].Endpoints() <= w.inflight[k].ends)
    && (w.inflight[k].dispatched <==> k in w.starts)
    && (k in loose || w.inflight[k].dispatched || InTable(w, k))
  }

  /** An entry of a table names a batch that no endpoint has reported and that was not handed over. */
  ghost predicate EntryOk(config: Config, w: Work, k: Key) {
    k.inst in config.groupOf && k in w.inflight && w.inflight[k].ends == {} && !w.inflight[k].dispatched
  }

  ghost predicate StartOk(w: Work, k: Key) { k.inst in w.lastId && k.id <= w.lastId[k.inst] }

  predicate Rivals(config: Config, k: Key, l: Key) { k.inst == l.inst && k.inst in config.groupOf }

  ghost predicate Sound(config: Config, w: Work, loose: set<Key>) {
    && (forall k {:trigger BatchOk(config, w, loose, k)} :: k in w.inflight ==> BatchOk(config, w, loose, k))
    && (forall i {:trigger EntryOk(config, w, Key(i, w.pending[i]))} :: i in w.pending ==> EntryOk(config, w, Key(i, w.pending[i])))
    && (forall i {:trigger EntryOk(config, w, Key(i, w.ready[i]))} :: i in w.ready ==> EntryOk(config, w, Key(i, w.ready[i])))
    && (forall i :: i in w.pending ==> i !in w.ready)
    && (forall k, l {:trigger Rivals(config, k, l)} :: k in w.inflight && l in w.inflight && Rivals(config, k, l) ==> k == l)
    && (forall k {:trigger StartOk(w, k)} :: k in w.starts ==> StartOk(w, k))
    && (forall i, j :: 0 <= i < j < |w.starts| ==> w.starts[i] != w.starts[j])
  }

  /** No wave is complete between steps. */
  ghost predicate Partial(config: Config, w: Work) {
    forall i :: i in w.pending && i in config.groupOf ==> !(config.Members(config.groupOf[i]) <= w.pending.Keys)
  }

  ghost predicate Waves(config: Config, w: Work) { Sound(config, w, {}) && Partial(config, w) }

  // ---------------------------------------------------------------- the pieces

  /** An endpoint names a batch in flight only after the backend, and this endpoint, were given its graph. */
  predicate Faithful(w: Work, inst: nat, sys: int, id: int) {
    var k := Key(inst, id - 1);
    k in w.inflight ==> w.inflight[k].dispatched && sys in w.inflight[k].fired
  }

  lemma ReportKeeps(config: Config, w: Work, inst: nat, sys: int, id: int)
    requires inst < |config.instances| && Sound(config, w, {}) && Faithful(w, inst, sys, id)
    ensures Sound(config, Report(config, w, inst, sys, id).0, {})
    ensures Report(config, w, inst, sys, id).0.pending == w.pending
  {
    var v := Report(config, w, inst, sys, id).0;
    ReportTables(config, w, inst, sys, id);
    hide Report, BatchOk;
    forall k | k in v.inflight ensures BatchOk(config, v, {}, k) {
      assert BatchOk(config, w, {}, k);
      ReportKeepsBatch(config, w, inst, sys, id, k);
    }
    forall i | i in v.pending ensures EntryOk(config, v, Key(i, v.pending[i])) {
      assert EntryOk(config, w, Key(i, w.pending[i]));
      ReportKeepsEntry(config, w, inst, sys, id, Key(i, w.pending[i]));
    }
    forall i | i in v.ready ensures EntryOk(config, v, Key(i, v.ready[i])) {
      assert EntryOk(config, w, Key(i, w.ready[i]));
      ReportKeepsEntry(config, w, inst, sys, id, Key(i, w.ready[i]));
    }
    forall k | k in v.starts ensures StartOk(v, k) { assert StartOk(w, k); }
  }

  lemma ReportTables(config: Config, w: Work, inst: nat, sys: int, id: int)
    requires inst < |config.instances|
    ensures var v := Report(config, w, inst, sys, id).0;
      (v.pending, v.ready, v.starts, v.lastId) == (w.pending, w.ready, w.starts, w.lastId) && v.inflight.Keys <= w.inflight.Keys
  {}

  lemma ReportKeepsEntry(config: Config, w: Work, inst: nat, sys: int, id: int, k: Key)
    requires inst < |config.instances| && Faithful(w, inst, sys, id) && EntryOk(config, w, k)
    ensures EntryOk(config, Report(config, w, inst, sys, id).0, k)
  {}

  lemma ReportKeepsBatch(config: Config, w: Work, inst: nat, sys: int, id: int, k: Key)
    requires inst < |config.instances| && Faithful(w, inst, sys, id)
    requires k in w.inflight && BatchOk(config, w, {}, k) && k in Report(config, w, inst, sys, id).0.inflight
    ensures BatchOk(config, Report(config, w, inst, sys, id).0, {}, k)
  {}

  /** Whoever has a batch, or an entry, is not idle. */
  lemma Busy(config: Config, w: Work)
    requires Sound(config, w, {})
    ensures forall k :: k in w.inflight ==> !w.Idle(k.inst)
    ensures forall i :: i in w.pending || i in w.ready ==> !w.Idle(i)
  {
    forall k | k in w.inflight ensures !w.Idle(k.inst) { assert k in w.Of(k.inst); }
    forall i | i in w.pending || i in w.ready ensures !w.Idle(i) {
      var key := Key(i, if i in w.pending then w.pending[i] else w.ready[i]);
      assert EntryOk(config, w, key);
      assert key in w.Of(i);
    }
  }

  lemma FreshId(config: Config, w: Work, inst: nat)
    requires Sound(config, w, {})
    ensures Key(inst, w.NextId(inst)) !in w.inflight && Key(inst, w.NextId(inst)) !in w.starts
    ensures inst in w.pending ==> w.pending[inst] < w.NextId(inst)
    ensures inst in w.ready ==> w.ready[inst] < w.NextId(inst)
  {
    forall k | k in w.inflight ensures k != Key(inst, w.NextId(inst)) { assert BatchOk(config, w, {}, k); }
    forall k | k in w.starts ensures k != Key(inst, w.NextId(inst)) { assert StartOk(w, k); }
    if inst in w.pending { OldEntry(config, w, Key(inst, w.pending[inst])); }
    if inst in w.ready { OldEntry(config, w, Key(inst, w.ready[inst])); }
  }

  lemma OldEntry(config: Config, w: Work, k: Key)
    requires Sound(config, w, {}) && InTable(w, k)
    ensures k.id < w.NextId(k.inst)
  {
    assert EntryOk(config, w, k);
    assert BatchOk(config, w, {}, k);
  }

  lemma AddKeeps(config: Config, w: Work, inst: nat, shape: Shape, sys: int)
    requires inst < |config.instances| && sys == config.instances[inst].start && Sound(config, w, {})
    requires inst in config.groupOf ==> w.Idle(inst)
    ensures var v, k := AddBatch(w, inst, shape, sys), Key(inst, w.NextId(inst));
      && Sound(config, v, {k}) && k !in w.inflight && k in v.inflight && !InTable(v, k)
      && v.inflight[k].ends == {} && !v.inflight[k].dispatched
      && (inst in config.groupOf ==> inst !in v.pending && inst !in v.ready)
  {
    var v, key := AddBatch(w, inst, shape, sys), Key(inst, w.NextId(inst));
    Busy(config, w);
    FreshId(config, w, inst);
    hide BatchOk;
    forall k | k in v.inflight ensures BatchOk(config, v, {key}, k) {
      if k != key { assert BatchOk(config, w, {}, k); }
      AddKeepsBatch(config, w, inst, shape, sys, k);
    }
    forall i | i in v.pending ensures EntryOk(config, v, Key(i, v.pending[i])) { assert EntryOk(config, w, Key(i, w.pending[i])); }
    forall i | i in v.ready ensures EntryOk(config, v, Key(i, v.ready[i])) { assert EntryOk(config, w, Key(i, w.ready[i])); }
    forall k | k in v.starts ensures StartOk(v, k) { assert StartOk(w, k); }
  }

  lemma AddKeepsBatch(config: Config, w: Work, inst: nat, shape: Shape, sys: int, k: Key)
    requires inst < |config.instances| && sys == config.instances[inst].start
    requires Key(inst, w.NextId(inst)) !in w.inflight && Key(inst, w.NextId(inst)) !in w.starts
    requires k == Key(inst, w.NextId(inst)) || (k in w.inflight && BatchOk(config, w, {}, k))
    ensures var v, key := AddBatch(w, inst, shape, sys), Key(inst, w.NextId(inst)); k in v.inflight && BatchOk(config, v, {key}, k)
  {}

  lemma LaunchKeeps(config: Config, w: Work, key: Key)
    requires key in w.inflight && Sound(config, w, {key}) && !w.inflight[key].dispatched && !InTable(w, key)
    ensures Sound(config, Launch(w, key), {})
    ensures Launch(w, key).pending == w.pending
  {
    var v := Launch(w, key);
    forall k | k in v.inflight ensures BatchOk(config, v, {}, k) { assert BatchOk(config, w, {key}, k); }
    forall i | i in v.pending ensures EntryOk(config, v, Key(i, v.pending[i])) { assert EntryOk(config, w, Key(i, w.pending[i])); }
    forall i | i in v.ready ensures EntryOk(config, v, Key(i, v.ready[i])) { assert EntryOk(config, w, Key(i, w.ready[i])); }
    assert BatchOk(config, w, {key}, key);
    forall k | k in v.starts ensures StartOk(v, k) { if k != key { assert StartOk(w, k); } }
  }

  /** A later endpoint picks up a batch it has not run yet. */
  lemma PickKeeps(config: Config, w: Work, key: Key, sys: int)
    requires key in w.inflight && Sound(config, w, {})
    ensures var v := w.(inflight := w.inflight[key := w.inflight[key].(fired := w.inflight[key].fired + {sys})]);
      Sound(config, v, {})
  {
    var v := w.(inflight := w.inflight[key := w.inflight[key].(fired := w.inflight[key].fired + {sys})]);
    forall k | k in v.inflight ensures BatchOk(config, v, {}, k) { assert BatchOk(config, w, {}, k); }
    forall i | i in v.pending ensures EntryOk(config, v, Key(i, v.pending[i])) { assert EntryOk(config, w, Key(i, w.pending[i])); }
    forall i | i in v.ready ensures EntryOk(config, v, Key(i, v.ready[i])) { assert EntryOk(config, w, Key(i, w.ready[i])); }
    forall k | k in v.starts ensures StartOk(v, k) { assert StartOk(w, k); }
  }

  /** Taking an entry out of `ready` leaves its batch loose. */
  lemma TakeReadyKeeps(config: Config, w: Work, inst: nat)
    requires inst in w.ready && Sound(config, w, {})
    ensures var v, key := w.(ready := w.ready - {inst}), Key(inst, w.ready[inst]);
      Sound(config, v, {key}) && key in v.inflight && !v.inflight[key].dispatched && !InTable(v, key)
  {
    var v, key := w.(ready := w.ready - {inst}), Key(inst, w.ready[inst]);
    assert EntryOk(config, w, key);
    forall k | k in v.inflight ensures BatchOk(config, v, {key}, k) { assert BatchOk(config, w, {}, k); }
    forall i | i in v.pending ensures EntryOk(config, v, Key(i, v.pending[i])) { assert EntryOk(config, w, Key(i, w.pending[i])); }
    forall i | i in v.ready ensures EntryOk(config, v, Key(i, v.ready[i])) { assert EntryOk(config, w, Key(i, w.ready[i])); }
    forall k | k in v.starts ensures StartOk(v, k) { assert StartOk(w, k); }
  }

  /** A loose batch may wait in either table. */
  lemma EnterKeeps(config: Config, w: Work, key: Key)
    requires Sound(config, w, {key}) && EntryOk(config, w, key) && key.inst !in w.pending && key.inst !in w.ready
    ensures Sound(config, Enter(w, key.inst, key.id), {})
  {
    var v := Enter(w, key.inst, key.id);
    forall k | k in v.inflight ensures BatchOk(config, v, {}, k) { assert BatchOk(config, w, {key}, k); }
    forall i | i in v.pending ensures EntryOk(config, v, Key(i, v.pending[i])) {
      if i != key.inst { assert EntryOk(config, w, Key(i, w.pending[i])); }
    }
    forall i | i in v.ready ensures EntryOk(config, v, Key(i, v.ready[i])) { assert EntryOk(config, w, Key(i, w.ready[i])); }
    forall k | k in v.starts ensures StartOk(v, k) { assert StartOk(w, k); }
  }

  lemma HoldKeeps(config: Config, w: Work, key: Key)
    requires Sound(config, w, {key}) && EntryOk(config, w, key) && key.inst !in w.pending && key.inst !in w.ready
    ensures Sound(config, w.(ready := w.ready[key.inst := key.id]), {})
  {
    var v := w.(ready := w.ready[key.inst := key.id]);
    forall k | k in v.inflight ensures BatchOk(config, v, {}, k) { assert BatchOk(config, w, {key}, k); }
    forall i | i in v.pending ensures EntryOk(config, v, Key(i, v.pending[i])) { assert EntryOk(config, w, Key(i, w.pending[i])); }
    forall i | i in v.ready ensures EntryOk(config, v, Key(i, v.ready[i])) {
      if i != key.inst { assert EntryOk(config, w, Key(i, w.ready[i])); }
    }
    forall k | k in v.starts ensures StartOk(v, k) { assert StartOk(w, k); }
  }

  // ---------------------------------------------------------------- firing

  /** Padding touches the lengths of the wave's batches only. */
  lemma PadWaveAt(config: Config, w: Work, g: nat, k: Key)
    requires g < |config.groups|
    ensures k in PadWave(config, w, g) <==> k in w.inflight
    ensures k in w.inflight ==>
      var a, b := w.inflight[k], PadWave(config, w, g)[k];
      && b.ends == a.ends && b.fired == a.fired && b.dispatched == a.dispatched
      && b.kvLen - b.totalLen == a.kvLen - a.totalLen && b.numDecode - b.totalLen == a.numDecode - a.totalLen
      && b.totalLen >= a.totalLen
  {}

  lemma FireKeeps(config: Config, w: Work, g: nat, inst: nat)
    requires config.Valid() && g < |config.groups| && Sound(config, w, {})
    requires inst in w.pending && inst in config.groupOf && config.groupOf[inst] == g
    ensures var v, key := Fire(config, w, g, inst), Key(inst, w.pending[inst]);
      && Sound(config, v, {key}) && EntryOk(config, v, key) && inst !in v.pending && inst !in v.ready
      && v.pending == w.pending - w.Waiting(config, g)
  {
    var v, key, wave := Fire(config, w, g, inst), Key(inst, w.pending[inst]), w.Waiting(config, g);
    assert v.inflight.Keys == w.inflight.Keys;
    forall k | k in v.inflight ensures BatchOk(config, v, {key}, k) {
      assert BatchOk(config, w, {}, k);
      PadWaveAt(config, w, g, k);
    }
    forall i | i in v.pending ensures EntryOk(config, v, Key(i, v.pending[i])) {
      assert EntryOk(config, w, Key(i, w.pending[i]));
      PadWaveAt(config, w, g, Key(i, w.pending[i]));
    }
    assert EntryOk(config, w, key);
    PadWaveAt(config, w, g, key);
    forall i | i in v.ready ensures EntryOk(config, v, Key(i, v.ready[i])) {
      if i in wave && i != inst {
        assert v.ready[i] == w.pending[i];
        assert EntryOk(config, w, Key(i, w.pending[i]));
      } else {
        assert i in w.ready && v.ready[i] == w.ready[i];
        assert EntryOk(config, w, Key(i, w.ready[i]));
      }
      PadWaveAt(config, w, g, Key(i, v.ready[i]));
    }
    forall k | k in v.starts ensures StartOk(v, k) { assert StartOk(w, k); }
    hide PadWave;
  }

  /** The count of waiting members reaches the group's size exactly when every member waits. */
  lemma FullMeansAll(config: Config, w: Work, g: nat)
    ensures Full(config, w, g) <==> config.Members(g) <= w.pending.Keys
  {
    SubsetCardinality(w.Waiting(config, g), config.Members(g));
    if config.Members(g) <= w.pending.Keys { assert w.Waiting(config, g) == config.Members(g); }
  }

  lemma EnteredIsPartial(config: Config, w: Work, key: Key)
    requires Partial(config, w) && key.inst in config.groupOf
    requires !(config.Members(config.groupOf[key.inst]) <= w.pending.Keys + {key.inst})
    ensures Partial(config, Enter(w, key.inst, key.id))
  {
    var v := Enter(w, key.inst, key.id);
    assert v.pending.Keys == w.pending.Keys + {key.inst};
    forall i | i in v.pending && i in config.groupOf ensures !(config.Members(config.groupOf[i]) <= v.pending.Keys) {
      if config.groupOf[i] != config.groupOf[key.inst] {
        assert i in w.pending && key.inst !in config.Members(config.groupOf[i]);
        var j :| j in config.Members(config.groupOf[i]) && j !in w.pending.Keys;
        assert j !in v.pending.Keys;
      }
    }
  }

  lemma FiredIsPartial(config: Config, w: Work, key: Key, v: Work)
    requires Partial(config, w) && key.inst in config.groupOf
    requires v.pending == Enter(w, key.inst, key.id).pending - Enter(w, key.inst, key.id).Waiting(config, config.groupOf[key.inst])
    ensures Partial(config, v)
  {
    forall i | i in v.pending && i in config.groupOf ensures !(config.Members(config.groupOf[i]) <= v.pending.Keys) {
      assert i in w.pending;
      var j :| j in config.Members(config.groupOf[i]) && j !in w.pending.Keys;
      assert j !in v.pending.Keys;
    }
  }

  /** A new batch of a member joins its wave: between steps again no wave is complete. */
  lemma JoinKeeps(config: Config, w: Work, key: Key, blocked: bool)
    requires config.Valid() && Sound(config, w, {key}) && Partial(config, w)
    requires EntryOk(config, w, key) && key.inst !in w.pending && key.inst !in w.ready
    ensures Waves(config, Join(config, w, key.inst, key.id, blocked))
  {
    var g, entered := config.groupOf[key.inst], Enter(w, key.inst, key.id);
    EnterKeeps(config, w, key);
    FullMeansAll(config, entered, g);
    assert entered.pending.Keys == w.pending.Keys + {key.inst};
    if Full(config, entered, g) {
      FireKeeps(config, entered, g, key.inst);
      var fired := Fire(config, entered, g, key.inst);
      hide Sound, Fire, Full;
      if blocked {
        HoldKeeps(config, fired, key);
        FiredIsPartial(config, w, key, fired.(ready := fired.ready[key.inst := key.id]));
      } else {
        EntryIsLoose(config, fired, key);
        LaunchKeeps(config, fired, key);
        FiredIsPartial(config, w, key, Launch(fired, key));
      }
      hide Partial;
    } else {
      EnteredIsPartial(config, w, key);
    }
  }

  lemma EntryIsLoose(config: Config, w: Work, key: Key)
    requires EntryOk(config, w, key) && key.inst !in w.pending && key.inst !in w.ready
    ensures key in w.inflight && !w.inflight[key].dispatched && !InTable(w, key)
  {}

  lemma ReportKeepsWaves(config: Config, w: Work, inst: nat, sys: int, id: int)
    requires inst < |config.instances| && Waves(config, w) && Faithful(w, inst, sys, id)
    ensures Waves(config, Report(config, w, inst, sys, id).0)
  {
    ReportKeeps(config, w, inst, sys, id);
    hide Sound, Report;
  }

  lemma AddedKeeps(config: Config, w: Work, inst: nat, sys: int, shape: Shape, blocked: bool)
    requires config.Valid() && inst < |config.instances| && sys == config.instances[inst].start && Waves(config, w)
    requires inst in config.groupOf ==> w.Idle(inst)
    ensures var v, key := AddBatch(w, inst, shape, sys), Key(inst, w.NextId(inst));
      if inst in config.groupOf then Waves(config, Join(config, v, inst, key.id, blocked)) else Waves(config, Launch(v, key))
  {
    var v, key := AddBatch(w, inst, shape, sys), Key(inst, w.NextId(inst));
    AddKeeps(config, w, inst, shape, sys);
    if inst in config.groupOf {
      hide Sound;
      assert EntryOk(config, v, key) && Partial(config, v);
      JoinKeeps(config, v, key, blocked);
    } else {
      LaunchKeeps(config, v, key);
      hide Sound;
    }
  }

  lemma FormsWhenIdle(config: Config, w: Work, inst: nat, sys: int, id: int, shape: Option<Shape>)
    requires config.SingleEndpointMembers() && inst < |config.instances| && inst in config.groupOf
    requires sys == config.instances[inst].start && Form(config, w, inst, sys, id, shape).Some?
    ensures w.Idle(inst)
  {}

  /** The scheduling part of a callback keeps the wave invariant. */
  lemma DispatchKeeps(config: Config, w: Work, inst: nat, sys: int, id: int, choice: Choice)
    requires config.Valid() && config.SingleEndpointMembers() && inst < |config.instances|
    requires Waves(config, w)
    ensures Waves(config, Dispatch(config, w, inst, sys, id, choice).0)
  {
    var formed := if choice.mayForm then Form(config, w, inst, sys, id, choice.shape) else None;
    if formed.Some? {
      if sys == config.instances[inst].start {
        if inst in config.groupOf { FormsWhenIdle(config, w, inst, sys, id, choice.shape); }
        AddedKeeps(config, w, inst, sys, choice.shape.value, choice.fabricBlocked);
      } else {
        PickKeeps(config, w, Key(inst, id), sys);
      }
    } else if inst in w.ready && !choice.engineBlocked {
      TakeReadyKeeps(config, w, inst);
      LaunchKeeps(config, w.(ready := w.ready - {inst}), Key(inst, w.ready[inst]));
    } else if inst in config.groupOf && !choice.engineBlocked && sys == config.instances[inst].start && w.Idle(inst)
              && w.WaveOpen(config, inst) {
      AddedKeeps(config, w, inst, sys, DummyShape, choice.fabricBlocked);
    }
    hide Sound, Join, AddBatch, Launch;
  }

  // ---------------------------------------------------------------- what a wave is

  lemma {:induction false} LongestIsMax(inflight: map<Key, Batch>, pending: map<nat, int>, members: seq<nat>, m: nat)
    requires m in members
    ensures LengthOf(inflight, pending, m) <= Longest(inflight, pending, members)
  {
    if m != members[0] { LongestIsMax(inflight, pending, members[1..], m); }
  }

  lemma {:induction false} LongestIsAttained(inflight: map<Key, Batch>, pending: map<nat, int>, members: seq<nat>) returns (m: nat)
    requires members != []
    ensures m in members && LengthOf(inflight, pending, m) == Longest(inflight, pending, members)
  {
    m := members[0];
    if |members| > 1 && LengthOf(inflight, pending, m) != Longest(inflight, pending, members) {
      m := LongestIsAttained(inflight, pending, members[1..]);
    }
  }

  /** The batch a member brings to the wave that `key` completes. */
  function Brought(w: Work, key: Key, m: nat): Key
    requires m == key.inst || m in w.pending
  {
    if m == key.inst then key else Key(m, w.pending[m])
  }

  /** The length every batch of the wave runs at. */
  function WaveLength(config: Config, w: Work, key: Key): int
    requires config.Valid() && key.inst in config.groupOf
  {
    var entered := Enter(w, key.inst, key.id);
    Longest(entered.inflight, entered.pending, config.groups[config.groupOf[key.inst]])
  }

  /** What firing does to one member's batch. */
  ghost predicate PaddedTo(a: Batch, b: Batch, length: int) {
    && a.totalLen <= length && b.totalLen == length
    && b.kvLen - b.totalLen == a.kvLen - a.totalLen && b.numDecode - b.totalLen == a.numDecode - a.totalLen
    && b.ends == a.ends && b.fired == a.fired
  }

  lemma BroughtIsPadded(config: Config, w: Work, key: Key, m: nat)
    requires config.Valid() && Sound(config, w, {key}) && EntryOk(config, w, key) && key.inst !in w.pending && key.inst !in w.ready
    requires m in config.Members(config.groupOf[key.inst]) && (m == key.inst || m in w.pending)
    ensures var g, k := config.groupOf[key.inst], Brought(w, key, m);
      && k in w.inflight && k in PadWave(config, Enter(w, key.inst, key.id), g)
      && PaddedTo(w.inflight[k], PadWave(config, Enter(w, key.inst, key.id), g)[k], WaveLength(config, w, key))
  {
    var g, k, entered := config.groupOf[key.inst], Brought(w, key, m), Enter(w, key.inst, key.id);
    if m != key.inst { assert EntryOk(config, w, Key(m, w.pending[m])); }
    assert entered.pending[m] == k.id && m in entered.Waiting(config, g);
    LongestIsMax(entered.inflight, entered.pending, config.groups[g], m);
    hide Longest, Sound;
  }

  /** Member `m` of a wave that fired: its batch is at the common length; the joining member's is handed over
      unless the fabric holds it, any other waits in `ready`. */
  ghost predicate MemberFired(config: Config, w: Work, key: Key, blocked: bool, v: Work, m: nat)
    requires config.Valid() && key.inst in config.groupOf && (m == key.inst || m in w.pending)
  {
    var k := Brought(w, key, m);
    && k in w.inflight && k in v.inflight
    && PaddedTo(w.inflight[k], v.inflight[k], WaveLength(config, w, key))
    && (v.inflight[k].dispatched <==> m == key.inst && !blocked)
    && (m != key.inst || blocked ==> m in v.ready && v.ready[m] == k.id)
  }

  /** `v` has fired the wave that `key` completed in `w`: one batch per member, all at the length of the
      longest with the rest of their shape kept, and no batch outside the group is touched. */
  ghost predicate FiredAs(config: Config, w: Work, key: Key, blocked: bool, v: Work)
    requires config.Valid() && key.inst in config.groupOf && config.Members(config.groupOf[key.inst]) <= w.pending.Keys + {key.inst}
  {
    var g := config.groupOf[key.inst];
    && v.Waiting(config, g) == {}
    && (forall m {:trigger MemberFired(config, w, key, blocked, v, m)} :: m in config.Members(g) ==> MemberFired(config, w, key, blocked, v, m))
    && (exists m {:trigger Brought(w, key, m)} ::
         m in config.Members(g) && Brought(w, key, m) in w.inflight && w.inflight[Brought(w, key, m)].totalLen == WaveLength(config, w, key))
    && (forall k :: k in w.inflight && k.inst !in config.Members(g) ==> k in v.inflight && v.inflight[k] == w.inflight[k])
  }

  /** When the last member joins, the wave fires whole. */
  lemma WaveFires(config: Config, w: Work, key: Key, blocked: bool)
    requires config.Valid() && Sound(config, w, {key}) && EntryOk(config, w, key) && key.inst !in w.pending && key.inst !in w.ready
    requires config.Members(config.groupOf[key.inst]) <= w.pending.Keys + {key.inst}
    ensures FiredAs(config, w, key, blocked, Join(config, w, key.inst, key.id, blocked))
  {
    var g, v := config.groupOf[key.inst], Join(config, w, key.inst, key.id, blocked);
    WaveIsFull(config, w, key);
    FiredFrame(config, w, key, blocked);
    Attained(config, w, key);
    hide Sound, Join, WaveLength, MemberFired;
    forall m | m in config.Members(g) ensures MemberFired(config, w, key, blocked, v, m) { MemberFires(config, w, key, blocked, m); }
  }

  lemma WaveIsFull(config: Config, w: Work, key: Key)
    requires config.Valid() && key.inst in config.groupOf
    requires config.Members(config.groupOf[key.inst]) <= w.pending.Keys + {key.inst}
    ensures var g, entered := config.groupOf[key.inst], Enter(w, key.inst, key.id);
      Full(config, entered, g) && entered.Waiting(config, g) == config.Members(g)
  {
    var g, entered := config.groupOf[key.inst], Enter(w, key.inst, key.id);
    FullMeansAll(config, entered, g);
    assert entered.pending.Keys == w.pending.Keys + {key.inst};
  }

  lemma FiredFrame(config: Config, w: Work, key: Key, blocked: bool)
    requires config.Valid() && key.inst in config.groupOf
    requires Full(config, Enter(w, key.inst, key.id), config.groupOf[key.inst])
    requires Enter(w, key.inst, key.id).Waiting(config, config.groupOf[key.inst]) == config.Members(config.groupOf[key.inst])
    ensures var g, v := config.groupOf[key.inst], Join(config, w, key.inst, key.id, blocked);
      && v.Waiting(config, g) == {}
      && (forall k :: k in w.inflight && k.inst !in config.Members(g) ==> k in v.inflight && v.inflight[k] == w.inflight[k])
  {
    assert key.inst in config.Members(config.groupOf[key.inst]);
    hide Full, Longest, Padded;
  }

  lemma MemberFires(config: Config, w: Work, key: Key, blocked: bool, m: nat)
    requires config.Valid() && Sound(config, w, {key}) && EntryOk(config, w, key) && key.inst !in w.pending && key.inst !in w.ready
    requires Full(config, Enter(w, key.inst, key.id), config.groupOf[key.inst])
    requires Enter(w, key.inst, key.id).Waiting(config, config.groupOf[key.inst]) == config.Members(config.groupOf[key.inst])
    requires m in config.Members(config.groupOf[key.inst]) && (m == key.inst || m in w.pending)
    ensures MemberFired(config, w, key, blocked, Join(config, w, key.inst, key.id, blocked), m)
  {
    BroughtIsPadded(config, w, key, m);
    StaysUndispatched(config, w, key, m, config.groupOf[key.inst]);
    BroughtIsPadded(config, w, key, key.inst);
    hide Full, Sound, PadWave, WaveLength;
  }

  lemma StaysUndispatched(config: Config, w: Work, key: Key, m: nat, g: nat)
    requires config.Valid() && g < |config.groups| && Sound(config, w, {key}) && EntryOk(config, w, key)
    requires m == key.inst || m in w.pending
    ensures var entered, k := Enter(w, key.inst, key.id), Brought(w, key, m);
      k in PadWave(config, entered, g) && !PadWave(config, entered, g)[k].dispatched
  {
    if m != key.inst { assert EntryOk(config, w, Key(m, w.pending[m])); }
    PadWaveAt(config, Enter(w, key.inst, key.id), g, Brought(w, key, m));
    hide PadWave;
  }

  lemma Attained(config: Config, w: Work, key: Key)
    requires config.Valid() && Sound(config, w, {key}) && EntryOk(config, w, key) && key.inst !in w.pending && key.inst !in w.ready
    requires config.Members(config.groupOf[key.inst]) <= w.pending.Keys + {key.inst}
    ensures exists m {:trigger Brought(w, key, m)} ::
      m in config.Members(config.groupOf[key.inst]) && Brought(w, key, m) in w.inflight
      && w.inflight[Brought(w, key, m)].totalLen == WaveLength(config, w, key)
  {
    var g, entered := config.groupOf[key.inst], Enter(w, key.inst, key.id);
    assert key.inst in config.groups[g];
    var m := LongestIsAttained(entered.inflight, entered.pending, config.groups[g]);
    assert m in config.Members(g);
    if m != key.inst { assert EntryOk(config, w, Key(m, w.pending[m])); }
    assert Brought(w, key, m) in w.inflight;
  }
}
