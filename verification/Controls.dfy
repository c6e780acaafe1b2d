/** One-shot control callbacks (serving/core/controller.py).

  The loop asks the backend for two kinds of callback: at an exact later time, and after every
  endpoint report of the present time. Event ids carry their kind, as the program's id prefixes do.
 */
module Controls {
  import opened Wrappers

  datatype EventId = ExactTime(n: nat) | SameTime(n: nat)

  // ---------------------------------------------------------------- exact-time controls

  datatype Schedule = Schedule(
    sequence: nat, pendingById: map<EventId, int>, pendingByTime: map<int, EventId>, completed: map<EventId, int>)
  {
    predicate HasPending() { pendingById != map[] }

    /** The two dictionaries are inverse to each other; ids are fresh, and pending or completed. */
    ghost predicate Valid() {
      && (forall id :: id in pendingById ==> pendingById[id] in pendingByTime && pendingByTime[pendingById[id]] == id)
      && (forall t :: t in pendingByTime ==> pendingByTime[t] in pendingById && pendingById[pendingByTime[t]] == t)
      && (forall id :: id in pendingById ==> id !in completed)
      && (forall id :: id in pendingById || id in completed ==> id.ExactTime? && id.n < sequence)
    }
  }

  const EmptySchedule := Schedule(0, map[], map[], map[])

  /** The id and the schedule after arming a time, or no id when the time needs no new callback. */
  function Armed(s: Schedule, time: int, now: int): Result<(Schedule, Option<EventId>)> {
    if time < 0 || now < 0 then Err("must be a non-negative integer")
    else if time <= now || time in s.pendingByTime then Ok((s, None))
    else
      var id := ExactTime(s.sequence);
      Ok((Schedule(s.sequence + 1, s.pendingById[id := time], s.pendingByTime[time := id], s.completed), Some(id)))
  }

  /** Whether this callback is the first for its id, and the schedule after it. */
  function Completed(s: Schedule, id: EventId, time: int): Result<(Schedule, bool)> {
    if time < 0 then Err("must be a non-negative integer")
    else if id in s.completed then
      if s.completed[id] != time then Err("duplicate control callback changed its timestamp") else Ok((s, false))
    else if id !in s.pendingById then Err("unknown analytical control callback")
    else if s.pendingById[id] != time then Err("analytical control callback timestamp changed")
    else Ok((Schedule(s.sequence, s.pendingById - {id}, s.pendingByTime - {time}, s.completed[id := time]), true))
  }

  lemma ArmedKeepsValid(s: Schedule, time: int, now: int)
    requires s.Valid()
    ensures Armed(s, time, now).Ok? ==> Armed(s, time, now).value.0.Valid()
  {}

  lemma CompletedKeepsValid(s: Schedule, id: EventId, time: int)
    requires s.Valid()
    ensures Completed(s, id, time).Ok? ==> Completed(s, id, time).value.0.Valid()
  {}

  /** Arming an armed time changes nothing, so at most one callback is pending per time. */
  lemma ArmIsIdempotent(s: Schedule, time: int, now: int)
    requires s.Valid() && Armed(s, time, now).Ok?
    ensures var t := Armed(s, time, now).value.0;
      Armed(t, time, now) == Ok((t, None)) && (time > now ==> time in t.pendingByTime)
  {}

  /** An armed time is owed exactly one callback: the one with its id at that time is the first, any repeat of it
      changes nothing, and another time or an id that was never armed is an error. */
  lemma ArmedIsOwedOnce(s: Schedule, time: int, now: int, id: EventId, other: int)
    requires s.Valid() && Armed(s, time, now).Ok? && Armed(s, time, now).value.1 == Some(id)
    ensures 0 <= now < time && time !in s.pendingByTime
    ensures var t := Armed(s, time, now).value.0;
      && Completed(t, id, time).Ok? && Completed(t, id, time).value.1
      && (other != time ==> Completed(t, id, other).Err?)
      && var u := Completed(t, id, time).value.0;
         && Completed(u, id, time) == Ok((u, false)) && (other != time ==> Completed(u, id, other).Err?)
         && u.pendingById == s.pendingById && u.pendingByTime == s.pendingByTime
  {
    var t := Armed(s, time, now).value.0;
    var u := Completed(t, id, time).value.0;
    assert u.pendingById == s.pendingById && u.pendingByTime == s.pendingByTime;
  }

  lemma UnknownIsAnError(s: Schedule, id: EventId, time: int)
    requires id !in s.pendingById && id !in s.completed
    ensures Completed(s, id, time).Err?
  {}

  datatype Call = Arm(time: int, now: int) | Complete(id: EventId, time: int)

  /** Completions reported as first by a run of calls, in order; None when a call raises. */
  function Firsts(s: Schedule, calls: seq<Call>): Option<seq<EventId>>
    decreases |calls|
  {
    if calls == [] then Some([])
    else match calls[0]
      case Arm(time, now) =>
        (match Armed(s, time, now) case Err(_) => None case Ok(v) => Firsts(v.0, calls[1..]))
      case Complete(id, time) =>
        (match Completed(s, id, time)
         case Err(_) => None
         case Ok(v) =>
           var rest := Firsts(v.0, calls[1..]);
           if rest.None? then None else Some((if v.1 then [id] else []) + rest.value))
  }

  /** Over any run of calls a callback id is reported as first at most once, and never again after it
      has completed. */
  lemma {:induction false} CallbacksAreOneShot(s: Schedule, calls: seq<Call>)
    requires s.Valid() && Firsts(s, calls).Some?
    ensures forall i, j :: 0 <= i < j < |Firsts(s, calls).value| ==> Firsts(s, calls).value[i] != Firsts(s, calls).value[j]
    ensures forall id :: id in Firsts(s, calls).value ==> id !in s.completed
    decreases |calls|
  {
    if calls != [] {
      match calls[0]
      case Arm(time, now) =>
        ArmedKeepsValid(s, time, now);
        CallbacksAreOneShot(Armed(s, time, now).value.0, calls[1..]);
      case Complete(id, time) =>
        CompletedKeepsValid(s, id, time);
        var t := Completed(s, id, time).value.0;
        CallbacksAreOneShot(t, calls[1..]);
        assert id in t.completed;
    }
  }

  /** The object form. */
  class ExactControlSchedule {
    var sequence: nat
    var pendingById: map<EventId, int>
    var pendingByTime: map<int, EventId>
    var completed: map<EventId, int>

    ghost function View(): Schedule reads this { Schedule(sequence, pendingById, pendingByTime, completed) }

    constructor ()
      ensures View() == EmptySchedule
    {
      sequence, pendingById, pendingByTime, completed := 0, map[], map[], map[];
    }

    method Arm(time: int, now: int) returns (r: Result<Option<EventId>>)
      modifies this
      ensures match Armed(old(View()), time, now)
              case Err(e) => r == Err(e) && View() == old(View())
              case Ok(v) => r == Ok(v.1) && View() == v.0
    {
      if time < 0 || now < 0 { return Err("must be a non-negative integer"); }
      if time <= now { return Ok(None); }
      if time in pendingByTime { return Ok(None); }
      var id := ExactTime(sequence);
      sequence := sequence + 1;
      pendingById := pendingById[id := time];
      pendingByTime := pendingByTime[time := id];
      r := Ok(Some(id));
    }

    method Complete(id: EventId, time: int) returns (r: Result<bool>)
      modifies this
      ensures match Completed(old(View()), id, time)
              case Err(_) => r.Err?
              case Ok(v) => r == Ok(v.1) && View() == v.0
    {
      if time < 0 { return Err("must be a non-negative integer"); }
      if id in completed {
        if completed[id] != time { return Err("duplicate control callback changed its timestamp"); }
        return Ok(false);
      }
      if id !in pendingById { return Err("unknown analytical control callback"); }
      var expected := pendingById[id];
      pendingById := pendingById - {id};
      if expected != time { return Err("analytical control callback timestamp changed"); }
      pendingByTime := pendingByTime - {time};
      completed := completed[id := time];
      r := Ok(true);
    }
  }

  // ---------------------------------------------------------------- the same-time barrier

  datatype Barrier = Barrier(sequence: nat, pending: Option<(EventId, int)>, completed: map<EventId, int>) {
    predicate HasPending() { pending.Some? }

    predicate Owns(id: EventId) { (pending.Some? && pending.value.0 == id) || id in completed }

    ghost predicate Valid() {
      && (forall id :: id in completed ==> id.SameTime? && id.n < sequence)
      && (pending.Some? ==> pending.value.0.SameTime? && pending.value.0.n < sequence && pending.value.0 !in completed)
    }
  }

  const EmptyBarrier := Barrier(0, None, map[])

  function BarrierArmed(b: Barrier, now: int): Result<(Barrier, Option<EventId>)> {
    if now < 0 then Err("must be a non-negative integer")
    else if b.pending.Some? then
      if b.pending.value.1 != now then Err("a same-time barrier is still pending at another timestamp") else Ok((b, None))
    else
      var id := SameTime(b.sequence);
      Ok((Barrier(b.sequence + 1, Some((id, now)), b.completed), Some(id)))
  }

  function BarrierCompleted(b: Barrier, id: EventId, now: int): Result<(Barrier, bool)> {
    if now < 0 then Err("must be a non-negative integer")
    else if id in b.completed then
      if b.completed[id] != now then Err("duplicate same-time barrier changed its timestamp") else Ok((b, false))
    else if b.pending.None? || b.pending.value.0 != id then Err("unknown same-time barrier callback")
    else if b.pending.value.1 != now then Err("same-time barrier timestamp changed")
    else Ok((Barrier(b.sequence, None, b.completed[id := now]), true))
  }

  /** The same for the barrier, of which one at most is pending: it may be armed again at its time only, and only
      its own callback at that time closes it. */
  lemma BarrierIsOwedOnce(b: Barrier, now: int, id: EventId, other: int, stranger: EventId)
    requires b.Valid() && b.pending.None? && BarrierArmed(b, now).Ok? && BarrierArmed(b, now).value.1 == Some(id)
    requires stranger != id && stranger !in b.completed && other != now
    ensures var t := BarrierArmed(b, now).value.0;
      && BarrierArmed(t, now) == Ok((t, None)) && BarrierArmed(t, other).Err?
      && BarrierCompleted(t, id, now).Ok? && BarrierCompleted(t, id, now).value.1
      && BarrierCompleted(t, id, other).Err? && BarrierCompleted(t, stranger, now).Err?
      && var u := BarrierCompleted(t, id, now).value.0;
         u.pending.None? && BarrierCompleted(u, id, now) == Ok((u, false)) && BarrierCompleted(u, id, other).Err?
  {}

  /** The object form. */
  class SameTimeControlBarrier {
    var sequence: nat
    var pending: Option<(EventId, int)>
    var completed: map<EventId, int>

    ghost function View(): Barrier reads this { Barrier(sequence, pending, completed) }

    constructor ()
      ensures View() == EmptyBarrier
    {
      sequence, pending, completed := 0, None, map[];
    }

    method Arm(now: int) returns (r: Result<Option<EventId>>)
      modifies this
      ensures match BarrierArmed(old(View()), now)
              case Err(e) => r == Err(e) && View() == old(View())
              case Ok(v) => r == Ok(v.1) && View() == v.0
    {
      if now < 0 { return Err("must be a non-negative integer"); }
      if pending.Some? {
        if pending.value.1 != now { return Err("a same-time barrier is still pending at another timestamp"); }
        return Ok(None);
      }
      var id := SameTime(sequence);
      sequence := sequence + 1;
      pending := Some((id, now));
      r := Ok(Some(id));
    }

    method Complete(id: EventId, now: int) returns (r: Result<bool>)
      modifies this
      ensures match BarrierCompleted(old(View()), id, now)
              case Err(e) => r == Err(e) && View() == old(View())
              case Ok(v) => r == Ok(v.1) && View() == v.0
    {
      if now < 0 { return Err("must be a non-negative integer"); }
      if id in completed {
        if completed[id] != now { return Err("duplicate same-time barrier changed its timestamp"); }
        return Ok(false);
      }
      if pending.None? || pending.value.0 != id { return Err("unknown same-time barrier callback"); }
      if pending.value.1 != now { return Err("same-time barrier timestamp changed"); }
      completed := completed[id := now];
      pending := None;
      r := Ok(true);
    }
  }
}
