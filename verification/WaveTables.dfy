/** The batch lists and wave dictionaries as the loop updates them in place; each method takes the step
  that DpWaves specifies. */
module WaveTables {
  import opened Wrappers
  import opened DpWaves
  import opened WaveSafety

  /** The batches of the wave whose member is listed, padded; the others as they are. */
  function PadListed(inflight: map<Key, Batch>, pending: map<nat, int>, members: set<nat>, longest: int): map<Key, Batch> {
    map k | k in inflight ::
      if k.inst in members && k.inst in pending && pending[k.inst] == k.id then Padded(inflight[k], longest) else inflight[k]
  }

  lemma PadOneMore(inflight: map<Key, Batch>, pending: map<nat, int>, members: set<nat>, longest: int, m: nat)
    requires m !in members && m in pending
    ensures var k, sofar := Key(m, pending[m]), PadListed(inflight, pending, members, longest);
      (if k in sofar then sofar[k := Padded(sofar[k], longest)] else sofar) == PadListed(inflight, pending, members + {m}, longest)
  {}

  class Tables {
    var inflight: map<Key, Batch>
    var lastId: map<nat, int>
    var pending: map<nat, int>
    var ready: map<nat, int>
    ghost var starts: seq<Key>

    ghost function View(): Work reads this { Work(inflight, lastId, pending, ready, starts) }

    constructor ()
      ensures View() == NoWork
    {
      inflight, lastId, pending, ready, starts := map[], map[], map[], map[], [];
    }

    method RecordReport(config: Config, inst: nat, sys: int, id: int) returns (completed: bool)
      requires inst < |config.instances|
      modifies this`inflight
      ensures (View(), completed) == Report(config, old(View()), inst, sys, id)
    {
      completed := false;
      var k := Key(inst, id - 1);
      if k !in inflight || sys in inflight[k].ends { return; }
      var ends := inflight[k].ends + {sys};
      if config.instances[inst].Endpoints() <= ends {
        inflight := inflight - {k};
        completed := true;
      } else {
        inflight := inflight[k := inflight[k].(ends := ends)];
      }
    }

    method AddNew(inst: nat, shape: Shape, sys: int) returns (id: int)
      modifies this`inflight, this`lastId
      ensures View() == AddBatch(old(View()), inst, shape, sys) && id == old(View()).NextId(inst)
      ensures Key(inst, id) in inflight
    {
      id := if inst in lastId then lastId[inst] + 1 else 0;
      lastId := lastId[inst := id];
      inflight := inflight[Key(inst, id) := Batch(shape.totalLen, shape.kvLen, shape.numDecode, {}, {sys}, false)];
    }

    method TryForm(config: Config, inst: nat, sys: int, id: int, shape: Option<Shape>) returns (batch: Option<int>)
      requires inst < |config.instances|
      modifies this`inflight, this`lastId
      ensures match Form(config, old(View()), inst, sys, id, shape)
              case None => batch == None && View() == old(View())
              case Some(v) => batch == Some(v.1) && View() == v.0 && Key(inst, v.1) in inflight
    {
      if sys == config.instances[inst].start {
        if shape.None? { return None; }
        if |set k | k in inflight && k.inst == inst| >= config.instances[inst].stages { return None; }
        var next := AddNew(inst, shape.value, sys);
        return Some(next);
      }
      var k := Key(inst, id);
      if k !in inflight || sys in inflight[k].fired { return None; }
      inflight := inflight[k := inflight[k].(fired := inflight[k].fired + {sys})];
      return Some(id);
    }

    /** Hand a graph to the backend. */
    method HandOver(k: Key)
      requires k in inflight
      modifies this`inflight, this`starts
      ensures View() == Launch(old(View()), k)
    {
      inflight := inflight[k := inflight[k].(dispatched := true)];
      starts := starts + [k];
    }

    /** The length of the longest waiting batch of a group. */
    method LongestOf(members: seq<nat>) returns (longest: int)
      requires members != []
      ensures longest == Longest(inflight, pending, members)
    {
      var i := |members| - 1;
      longest := if members[i] in pending && Key(members[i], pending[members[i]]) in inflight
                 then inflight[Key(members[i], pending[members[i]])].totalLen else 0;
      while i > 0
        invariant 0 <= i < |members|
        invariant longest == Longest(inflight, pending, members[i..])
      {
        i := i - 1;
        var m := members[i];
        assert members[i..][1..] == members[i + 1..];
        var length := if m in pending && Key(m, pending[m]) in inflight then inflight[Key(m, pending[m])].totalLen else 0;
        if length > longest { longest := length; }
      }
    }

    /** Pad every waiting batch of the group to the longest, in place. */
    method PadMembers(members: set<nat>, longest: int)
      requires members <= pending.Keys
      modifies this`inflight
      ensures inflight == PadListed(old(inflight), pending, members, longest)
    {
      var rest := members;
      assert PadListed(inflight, pending, {}, longest) == inflight;
      while rest != {}
        invariant rest <= members
        invariant inflight == PadListed(old(inflight), pending, members - rest, longest)
        decreases rest
      {
        var m :| m in rest;
        var k := Key(m, pending[m]);
        PadOneMore(old(inflight), pending, members - rest, longest, m);
        if k in inflight { inflight := inflight[k := Padded(inflight[k], longest)]; }
        assert members - (rest - {m}) == (members - rest) + {m};
        rest := rest - {m};
      }
      assert members - {} == members;
    }

    /** The wave is complete: pad it, and make the other members' workloads ready. */
    method FireWave(config: Config, g: nat, inst: nat)
      requires config.Valid() && g < |config.groups| && config.groups[g] != []
      requires forall m :: m in config.groups[g] ==> m in pending
      modifies this`inflight, this`pending, this`ready
      ensures View() == Fire(config, old(View()), g, inst)
    {
      ghost var w := View();
      var wave := set m | m in config.groups[g];
      assert wave == w.Waiting(config, g);
      var longest := LongestOf(config.groups[g]);
      PadMembers(wave, longest);
      assert inflight == PadWave(config, w, g);
      var others := map m | m in wave && m != inst :: pending[m];
      ready := ready + others;
      pending := pending - wave;
      hide PadWave;
    }

    /** A member's new batch joins its wave; the last member fires it. */
    method JoinWave(config: Config, inst: nat, id: int, blocked: bool) returns (ran: bool)
      requires config.Valid() && inst in config.groupOf && Key(inst, id) in inflight
      modifies this
      ensures View() == Join(config, old(View()), inst, id, blocked)
      ensures ran == (Full(config, Enter(old(View()), inst, id), config.groupOf[inst]) && !blocked)
    {
      var g := config.groupOf[inst];
      pending := pending[inst := id];
      assert View() == Enter(old(View()), inst, id);
      FullMeansAll(config, View(), g);
      ran := false;
      var waiting := set i | i in pending && i in config.groupOf && config.groupOf[i] == g;
      assert waiting == View().Waiting(config, g);
      if |waiting| == |config.Members(g)| {
        assert inst in config.groups[g];
        assert forall m :: m in config.groups[g] ==> m in config.Members(g);
        FireWave(config, g, inst);
        assert Key(inst, id) in inflight;
        hide Fire;
        if blocked {
          ready := ready[inst := id];
        } else {
          HandOver(Key(inst, id));
          ran := true;
        }
      }
    }

    /** Schedule an instance at a callback of one of its endpoints. */
    method Schedule(config: Config, inst: nat, sys: int, id: int, choice: Choice) returns (reply: Reply)
      requires config.Valid() && inst < |config.instances|
      modifies this
      ensures (View(), reply) == Dispatch(config, old(View()), inst, sys, id, choice)
    {
      var formed := None;
      if choice.mayForm { formed := TryForm(config, inst, sys, id, choice.shape); }
      var first := sys == config.instances[inst].start;
      if formed.Some? {
        var k := Key(inst, formed.value);
        if first && inst in config.groupOf {
          var ran := JoinWave(config, inst, formed.value, choice.fabricBlocked);
          return if ran then Ran(k) else Waits;
        }
        if first { HandOver(k); }
        return Ran(k);
      }
      if inst in ready && !choice.engineBlocked {
        var k := Key(inst, ready[inst]);
        ready := ready - {inst};
        if k in inflight {
          HandOver(k);
          return Ran(k);
        }
        return Nothing;
      }
      var idle := (set k | k in inflight && k.inst == inst) == {};
      if inst in config.groupOf && !choice.engineBlocked && first && idle {
        var g := config.groupOf[inst];
        var waiting := set i | i in pending && i in config.groupOf && config.groupOf[i] == g;
        if waiting != {} {
          var dummy := AddNew(inst, DummyShape, sys);
          var ran := JoinWave(config, inst, dummy, choice.fabricBlocked);
          return if ran then Ran(Key(inst, dummy)) else Waits;
        }
      }
      return Nothing;
    }
  }
}
