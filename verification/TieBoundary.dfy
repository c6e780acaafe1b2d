/** What one commit does to the sessions (serving/core/router.py, lines 1740-1923): it freezes the source exactly
  when the tied completions end the measurement, and otherwise every session goes on with its next call.
 */
module TieBoundary {
  import opened Wrappers
  import opened Sorting
  import opened TieCommit

  // ---------------------------------------------------------------- which sessions a commit ends

  /** The sessions that the finishing requests among `ids` end. */
  function EndingNames(router: Router, byId: map<int, Item>, ids: seq<int>): set<string> {
    if ids == [] then {}
    else
      var last := ids[|ids| - 1];
      EndingNames(router, byId, ids[..|ids| - 1]) + if Ends(router, byId, last) then {FinalSession(router, last).value} else {}
  }

  lemma {:induction false} EndingNamesAre(router: Router, byId: map<int, Item>, ids: seq<int>, name: string)
    ensures name in EndingNames(router, byId, ids) <==> exists id :: id in ids && Ends(router, byId, id) && FinalSession(router, id).value == name
  {
    if ids != [] {
      var n := |ids| - 1;
      EndingNamesAre(router, byId, ids[..n], name);
      assert forall id :: id in ids <==> id in ids[..n] || id == ids[n];
      hide FinalSession;
    }
  }

  lemma {:induction false} OnlyTerminalsFinish(prefill: seq<Request>, r: Request)
    requires r in prefill && r.Terminal()
    ensures r in Terminals(prefill)
  {
    if r != prefill[0] { OnlyTerminalsFinish(prefill[1..], r); }
  }

  /** A finishing completion is one that the boundary test looks at. */
  lemma FinishingRequest(gpu: seq<Request>, hbf: seq<Request>, prefill: seq<Request>, x: Item)
    requires x in Items(gpu, hbf, prefill) && x.Finishing()
    ensures x.request in gpu + hbf + Terminals(prefill)
  {
    if x in Tagged(gpu, Gpu) {
      var i :| 0 <= i < |gpu| && Tagged(gpu, Gpu)[i] == x;
    } else if x in Tagged(hbf, Hbf) {
      var i :| 0 <= i < |hbf| && Tagged(hbf, Hbf)[i] == x;
    } else {
      var i :| 0 <= i < |prefill| && Tagged(prefill, Prefill)[i] == x;
      OnlyTerminalsFinish(prefill, x.request);
    }
  }

  /** The finishing completions in id order end exactly the sessions that the boundary test predicts. */
  lemma EndingNamesAreCompleting(router: Router, gpu: seq<Request>, hbf: seq<Request>, prefill: seq<Request>)
    requires var items := Items(gpu, hbf, prefill); |ById(items)| == |items|
    ensures var items := Items(gpu, hbf, prefill);
      EndingNames(router, ById(items), Sort(IntLe(), Ids(items))) == Completing(router, gpu + hbf + Terminals(prefill))
  {
    var items, final := Items(gpu, hbf, prefill), gpu + hbf + Terminals(prefill);
    var byId, ids := ById(items), Sort(IntLe(), Ids(items));
    NoDuplicates(items);
    DictionaryIsKeyed(items);
    SortedIdsAreKeys(items);
    hide Items, ById, Sort, FinalSession, Distinct, Ids, Terminals, EndingNames;
    forall name ensures name in EndingNames(router, byId, ids) <==> name in Completing(router, final) {
      EndingNamesAre(router, byId, ids, name);
      if name in EndingNames(router, byId, ids) {
        var id :| id in ids && Ends(router, byId, id) && FinalSession(router, id).value == name;
        FinishingRequest(gpu, hbf, prefill, byId[id]);
      }
      if name in Completing(router, final) { CompletingEnds(router, gpu, hbf, prefill, name); }
    }
  }

  lemma CompletingEnds(router: Router, gpu: seq<Request>, hbf: seq<Request>, prefill: seq<Request>, name: string)
    requires var items := Items(gpu, hbf, prefill); |ById(items)| == |items|
    requires name in Completing(router, gpu + hbf + Terminals(prefill))
    ensures var items := Items(gpu, hbf, prefill);
      exists id :: id in Sort(IntLe(), Ids(items)) && Ends(router, ById(items), id) && FinalSession(router, id).value == name
  {
    var items := Items(gpu, hbf, prefill);
    NoDuplicates(items);
    SortedIdsAreKeys(items);
    hide Items, ById, Sort, FinalSession, Distinct, Ids, Terminals;
    var r :| r in gpu + hbf + Terminals(prefill) && IsFinal(router, r.id) && FinalSession(router, r.id).value == name;
    var x := FinishingItem(gpu, hbf, prefill, r);
    LookUp(items, x);
    assert Ends(router, ById(items), r.id);
  }

  // ---------------------------------------------------------------- the freeze is not missed

  lemma {:induction false} FrozenCommitCompletes(t: Tie, byId: map<int, Item>, ids: seq<int>)
    requires t.router.Valid() && t.router.frozen && Distinct(ids)
    requires forall id :: id in byId ==> byId[id].request.id == id
    requires forall id :: id in ids ==> id in byId
    ensures CommitAll(t, byId, ids, true).router.completedIds == t.router.completedIds + EndingNames(t.router, byId, ids)
  {
    if ids != [] {
      var n := |ids| - 1;
      var front, last := ids[..n], ids[n];
      assert last in ids && ids == front + [last];
      DistinctSnoc(front, last);
      FrozenCommitCompletes(t, byId, front);
      FrozenCommit(t, byId, front);
      var mid := CommitAll(t, byId, front, true).router;
      assert FinalSession(mid, last) == FinalSession(t.router, last) && mid.Valid();
      hide CommitAll, Distinct, Router.Valid;
      if Ends(t.router, byId, last) { EndingIsLocal(mid, last); }
      hide EndingNames, Notified;
    }
  }

  /** What a frozen commit of the tied completions would make of the router. */
  function FrozenRouter(t: Tie, gpu: seq<Request>, hbf: seq<Request>, prefill: seq<Request>): Router {
    var items := Items(gpu, hbf, prefill);
    SortedIdsAreKeys(items);
    CommitAll(Started(t, true), ById(items), Sort(IntLe(), Ids(items)), true).router
  }

  lemma FrozenRouterIs(t: Tie, gpu: seq<Request>, hbf: seq<Request>, prefill: seq<Request>)
    requires t.router.Valid()
    requires var items := Items(gpu, hbf, prefill); |ById(items)| == |items|
    ensures var r, final := FrozenRouter(t, gpu, hbf, prefill), gpu + hbf + Terminals(prefill);
      && r.completedCount == t.router.completedCount + FinalCalls(t.router, final)
      && r.completedIds == t.router.completedIds + Completing(t.router, final)
      && r.released == t.router.released
  {
    var items, start := Items(gpu, hbf, prefill), Started(t, true);
    var byId, ids := ById(items), Sort(IntLe(), Ids(items));
    NoDuplicates(items);
    DictionaryIsKeyed(items);
    SortedIdsAreKeys(items);
    DistinctSort(IntLe(), Ids(items));
    hide Sort, ById, CommitAll, Items, EndingIds, EndingNames, FinalCalls, Completing, Distinct, Router.Valid, Ids;
    assert start.router == t.router.(frozen := true) && start.router.Valid() by { FlagKeepsValid(t.router); }
    FrozenCommit(start, byId, ids);
    FrozenCommitCompletes(start, byId, ids);
    EndingIdsAreFinalCalls(start.router, gpu, hbf, prefill);
    EndingNamesAreCompleting(start.router, gpu, hbf, prefill);
    FrozenFlagIsIgnored(t.router, start.router, gpu + hbf + Terminals(prefill));
  }

  lemma FlagKeepsValid(r: Router)
    requires r.Valid()
    ensures r.(frozen := true).Valid()
  {}

  /** While the cohort is incomplete the prediction is exact, by count and by required sessions. */
  lemma PredictionIsExact(router: Router, cohort: Cohort, requests: seq<Request>, r: Router)
    requires !BoundaryMet(router, cohort)
    requires r.completedCount == router.completedCount + FinalCalls(router, requests)
    requires r.completedIds == router.completedIds + Completing(router, requests)
    ensures ReachesBoundary(router, cohort, requests) <==> BoundaryMet(r, cohort)
  {
    hide FinalCalls, Completing;
    if cohort.AdmissionOrder? { RemainingIsCovered(cohort.required, router.completedIds, Completing(router, requests)); }
  }

  lemma RemainingIsCovered(required: set<string>, done: set<string>, more: set<string>)
    ensures required - done <= more <==> required <= done + more
    ensures required - done != {} <==> !(required <= done)
  {
    if required <= done + more {
      forall x | x in required - done ensures x in more {}
    }
    if !(required <= done) {
      var x :| x in required && x !in done;
      assert x in required - done;
    }
  }

  lemma NobodyNoBoundary(router: Router, cohort: Cohort)
    ensures !ReachesBoundary(router, cohort, [])
  {}

  /** No freeze is missed and none is early: a commit freezes the source exactly when the tied completions
      make the measured cohort complete. */
  lemma FreezeIsExact(t: Tie, policy: Policy, gpu: seq<Request>, hbf: seq<Request>, prefill: seq<Request>)
    requires t.router.Valid() && !t.stopRequested && policy.stopAfterMeasurement && !BoundaryMet(t.router, policy.cohort)
    requires Commit(t, policy, gpu, hbf, prefill).Ok?
    ensures var items := Items(gpu, hbf, prefill);
      && (forall id :: id in Sort(IntLe(), Ids(items)) ==> id in ById(items))
      && (Commit(t, policy, gpu, hbf, prefill).value.stopRequested
          <==> BoundaryMet(CommitAll(Started(t, true), ById(items), Sort(IntLe(), Ids(items)), true).router, policy.cohort))
  {
    AcceptedCommit(t, policy, gpu, hbf, prefill);
    SortedIdsAreKeys(Items(gpu, hbf, prefill));
    FrozenRouterIs(t, gpu, hbf, prefill);
    hide Sort, ById, CommitAll, Items, FinalCalls, Completing, Router.Valid, Ids, ReachesBoundary, BoundaryMet, Terminals;
    NobodyNoBoundary(t.router, policy.cohort);
    PredictionIsExact(t.router, policy.cohort, gpu + hbf + Terminals(prefill), FrozenRouter(t, gpu, hbf, prefill));
  }

  // ---------------------------------------------------------------- numbered calls

  /** Calls are numbered in one block per session, and a session's live request is the last one released. */
  ghost predicate WellNumbered(r: Router) {
    && r.Valid()
    && (forall id :: id in r.sessionOf ==> r.sessionOf[id] in r.open && LastReleased(r.open[r.sessionOf[id]], id))
    && (forall a, b :: a in r.open && b in r.open && a != b ==> Apart(r.open[a], r.open[b]))
  }

  predicate LastReleased(s: Session, id: int) { 1 <= s.nextIndex <= s.length && id == s.idBase + s.nextIndex - 1 }

  predicate Apart(s: Session, t: Session) { s.idBase + s.length <= t.idBase || t.idBase + t.length <= s.idBase }

  /** The request is live, or not a call of any open session. */
  predicate Tied(r: Router, id: int) {
    id in r.sessionOf || forall name :: name in r.open ==> !(r.open[name].idBase <= id < r.open[name].idBase + r.open[name].length)
  }

  /** The session of a live request. */
  function SessionOf(r: Router, id: int): Option<(string, Session)> {
    if id in r.sessionOf && r.sessionOf[id] in r.open then Some((r.sessionOf[id], r.open[r.sessionOf[id]])) else None
  }

  /** The call that follows a request in its session. */
  function Successor(r: Router, id: int): Option<int> {
    match SessionOf(r, id)
    case None => None
    case Some(s) => if s.1.nextIndex < s.1.length then Some(id + 1) else None
  }

  lemma NotifiedKeepsNumbers(r: Router, id: int)
    requires WellNumbered(r) && !r.frozen
    ensures WellNumbered(Notified(r, id)) && !Notified(r, id).frozen
  {
    var t := Notified(r, id);
    if id in r.sessionOf && r.open[r.sessionOf[id]].nextIndex < r.open[r.sessionOf[id]].length {
      NextIsFresh(r, id);
    }
  }

  lemma NextIsFresh(r: Router, id: int)
    requires WellNumbered(r) && id in r.sessionOf && r.open[r.sessionOf[id]].nextIndex < r.open[r.sessionOf[id]].length
    ensures id + 1 !in r.sessionOf
  {
    var a := r.sessionOf[id];
    assert forall b :: b in r.open && b != a ==> Apart(r.open[a], r.open[b]);
  }

  /** Announcing one completion changes nothing about the other tied ones. */
  lemma NotifiedIsLocal(r: Router, id: int, other: int)
    requires WellNumbered(r) && !r.frozen && other != id && Tied(r, other)
    ensures SessionOf(Notified(r, id), other) == SessionOf(r, other) && Tied(Notified(r, id), other)
  {
    if id in r.sessionOf {
      var name := r.sessionOf[id];
      var s := r.open[name];
      if s.nextIndex < s.length {
        assert other != id + 1 by { NextIsFresh(r, id); }
      }
      assert other in r.sessionOf ==> r.sessionOf[other] != name;
    }
  }

  /** Announcing one completion: the next call of its session, or the end of the session. */
  lemma NotifiedDelivers(r: Router, id: int)
    requires WellNumbered(r) && !r.frozen
    ensures var t := Notified(r, id);
      && t.released == r.released + (if Successor(r, id).Some? then [Successor(r, id).value] else [])
      && t.completedCount == r.completedCount + (if IsFinal(r, id) then 1 else 0)
      && t.completedIds == r.completedIds + (if IsFinal(r, id) then {FinalSession(r, id).value} else {})
  {}

  // ---------------------------------------------------------------- an unfrozen commit

  /** The calls that follow the finishing requests, in the order in which those are committed. */
  function Successors(r: Router, byId: map<int, Item>, ids: seq<int>): seq<int> {
    if ids == [] then []
    else
      var last := ids[|ids| - 1];
      Successors(r, byId, ids[..|ids| - 1])
      + if last in byId && byId[last].Finishing() && Successor(r, last).Some? then [Successor(r, last).value] else []
  }

  /** The router after part of an unfrozen commit. */
  ghost predicate OpenProgress(r0: Router, r: Router, byId: map<int, Item>, ids: seq<int>) {
    && WellNumbered(r) && !r.frozen
    && r.released == r0.released + Successors(r0, byId, ids)
    && r.completedCount == r0.completedCount + EndingIds(r0, byId, ids)
    && r.completedIds == r0.completedIds + EndingNames(r0, byId, ids)
    && (forall id :: id !in ids && Tied(r0, id) ==> SessionOf(r, id) == SessionOf(r0, id) && Tied(r, id))
  }

  lemma {:induction false} OpenCommit(t: Tie, byId: map<int, Item>, ids: seq<int>)
    requires WellNumbered(t.router) && !t.router.frozen && Distinct(ids)
    requires forall id :: id in byId ==> byId[id].request.id == id
    requires forall id :: id in ids ==> id in byId && Tied(t.router, id)
    ensures OpenProgress(t.router, CommitAll(t, byId, ids, false).router, byId, ids)
  {
    if ids != [] {
      var n := |ids| - 1;
      var front, last := ids[..n], ids[n];
      assert last in ids && ids == front + [last];
      DistinctSnoc(front, last);
      OpenCommit(t, byId, front);
      hide WellNumbered, Tied, Notified, OpenProgress, Distinct;
      OpenCommitOne(t.router, CommitAll(t, byId, front, false), byId, front, last);
    }
  }

  lemma OpenCommitOne(r0: Router, mid: Tie, byId: map<int, Item>, front: seq<int>, last: int)
    requires OpenProgress(r0, mid.router, byId, front) && last !in front && Tied(r0, last)
    requires last in byId && byId[last].request.id == last
    ensures OpenProgress(r0, CommitOne(mid, byId[last], false).router, byId, front + [last])
  {
    hide WellNumbered, Tied, Notified, SessionOf, FinalSession, Successor;
    var ids, r := front + [last], mid.router;
    assert ids[..|front|] == front;
    assert forall id :: id in ids <==> id in front || id == last;
    SameSession(r0, r, last);
    NotifiedDelivers(r, last);
    NotifiedKeepsNumbers(r, last);
    forall id | id !in ids && Tied(r0, id)
      ensures SessionOf(Notified(r, last), id) == SessionOf(r0, id) && Tied(Notified(r, last), id) { NotifiedIsLocal(r, last, id); }
    assert Successors(r0, byId, front) + [] == Successors(r0, byId, front);
  }

  lemma SameSession(r: Router, t: Router, id: int)
    requires SessionOf(r, id) == SessionOf(t, id)
    ensures FinalSession(r, id) == FinalSession(t, id) && Successor(r, id) == Successor(t, id)
  {}

  /** An unfrozen commit ends the sessions whose last call is tied, and releases the next call of every other
      tied session, in id order. */
  lemma OpenCommitReleases(t: Tie, policy: Policy, gpu: seq<Request>, hbf: seq<Request>, prefill: seq<Request>)
    requires WellNumbered(t.router) && !t.router.frozen && !t.stopRequested && !Reaches(t, policy, gpu, hbf, prefill)
    requires Commit(t, policy, gpu, hbf, prefill).Ok?
    requires forall item :: item in Items(gpu, hbf, prefill) ==> Tied(t.router, item.request.id)
    ensures var items, final := Items(gpu, hbf, prefill), gpu + hbf + Terminals(prefill);
      var after := Commit(t, policy, gpu, hbf, prefill).value;
      && !after.stopRequested && WellNumbered(after.router) && !after.router.frozen
      && after.router.released == t.router.released + Successors(t.router, ById(items), Sort(IntLe(), Ids(items)))
      && after.router.completedCount == t.router.completedCount + FinalCalls(t.router, final)
      && after.router.completedIds == t.router.completedIds + Completing(t.router, final)
  {
    var items := Items(gpu, hbf, prefill);
    var byId, ids := ById(items), Sort(IntLe(), Ids(items));
    AcceptedCommit(t, policy, gpu, hbf, prefill);
    NoDuplicates(items);
    DictionaryIsKeyed(items);
    SortedIdsAreKeys(items);
    DistinctSort(IntLe(), Ids(items));
    hide Sort, ById, CommitAll, Reaches, Items, EndingIds, EndingNames, FinalCalls, Completing, Distinct, WellNumbered, Tied, Ids, Successors;
    forall id | id in ids ensures id in byId && Tied(t.router, id) { assert byId[id] in items; }
    OpenCommit(t, byId, ids);
    EndingIdsAreFinalCalls(t.router, gpu, hbf, prefill);
    EndingNamesAreCompleting(t.router, gpu, hbf, prefill);
  }

  /** Whether or not it freezes, a commit that starts with an incomplete cohort stops the source exactly when
      the cohort is complete afterwards. */
  lemma CommitStopsExactly(t: Tie, policy: Policy, gpu: seq<Request>, hbf: seq<Request>, prefill: seq<Request>)
    requires WellNumbered(t.router) && !t.router.frozen && !t.stopRequested && policy.stopAfterMeasurement
    requires !BoundaryMet(t.router, policy.cohort) && Commit(t, policy, gpu, hbf, prefill).Ok?
    requires forall item :: item in Items(gpu, hbf, prefill) ==> Tied(t.router, item.request.id)
    ensures var after := Commit(t, policy, gpu, hbf, prefill).value;
      && (after.stopRequested <==> BoundaryMet(after.router, policy.cohort))
      && (!after.stopRequested ==> WellNumbered(after.router) && !after.router.frozen)
  {
    var final := gpu + hbf + Terminals(prefill);
    assert t.router.Valid();
    hide ReachesBoundary, BoundaryMet, FinalCalls, Completing, WellNumbered, Tied, Terminals, Items, ById, Sort, Ids, CommitAll, Router.Valid;
    if Reaches(t, policy, gpu, hbf, prefill) {
      FreezeIsDelivered(t, policy, gpu, hbf, prefill);
    } else {
      OpenCommitReleases(t, policy, gpu, hbf, prefill);
      NobodyNoBoundary(t.router, policy.cohort);
      PredictionIsExact(t.router, policy.cohort, final, Commit(t, policy, gpu, hbf, prefill).value.router);
    }
  }

  // ---------------------------------------------------------------- tokens and counts

  /** A prefill that has tokens left to generate only moves on to decode, or is censored by a freeze; every other
      completion finishes its request, and is announced unless the freeze cuts its session off. */
  lemma SettledByTokens(t: Tie, x: Item, frozen: bool)
    ensures var u, r := CommitOne(t, x, frozen), x.request;
      if x.kind.Prefill? && r.generated < r.requested then
        u == t.(effects := t.effects + [(r.id, if frozen then CensoredPrefill else HandedToDecode)])
      else
        var announced := !frozen || IsFinal(t.router, r.id);
        && u.effects == t.effects + [(r.id, Finished(announced))] && u.router == (if announced then Notified(t.router, r.id) else t.router)
        && u.requestCount == t.requestCount + (if x.kind.Gpu? then 0 else 1)
  {
    hide Notified, FinalSession;
  }

  /** Input and generated tokens of some requests. */
  function Inputs(requests: seq<Request>): int {
    if requests == [] then 0 else requests[0].input + Inputs(requests[1..])
  }

  function Generated(requests: seq<Request>): int {
    if requests == [] then 0 else requests[0].generated + Generated(requests[1..])
  }

  /** The HBF completions of a list, in order. */
  function HbfOf(items: seq<Item>): seq<Request> {
    if items == [] then []
    else HbfOf(items[..|items| - 1]) + if items[|items| - 1].kind.Hbf? then [items[|items| - 1].request] else []
  }

  /** Completions that the commit counts as requests: GPU ones were counted when they reported. */
  function Uncounted(items: seq<Item>): nat {
    if items == [] then 0
    else Uncounted(items[..|items| - 1]) + if items[|items| - 1].Finishing() && !items[|items| - 1].kind.Gpu? then 1 else 0
  }

  function RequestIds(requests: seq<Request>): (r: seq<int>)
    ensures |r| == |requests| && forall i :: 0 <= i < |r| ==> r[i] == requests[i].id
  {
    seq(|requests|, i requires 0 <= i < |requests| => requests[i].id)
  }

  lemma {:induction false} TokensSplit(a: seq<Request>, b: seq<Request>)
    ensures Inputs(a + b) == Inputs(a) + Inputs(b) && Generated(a + b) == Generated(a) + Generated(b)
    ensures RequestIds(a + b) == RequestIds(a) + RequestIds(b)
  {
    if a == [] {
      assert a + b == b;
    } else {
      TokensSplit(a[1..], b);
      assert (a + b)[1..] == a[1..] + b;
    }
  }

  /** What a commit of these completions, in this order, adds to the counters. */
  predicate Adds(t: Tie, u: Tie, items: seq<Item>) {
    && u.totalPrompt == t.totalPrompt + Inputs(HbfOf(items)) && u.promptOpen == t.promptOpen + Inputs(HbfOf(items))
    && u.totalGen == t.totalGen + Generated(HbfOf(items)) && u.genOpen == t.genOpen + Generated(HbfOf(items))
    && u.hbfCompleted == t.hbfCompleted + RequestIds(HbfOf(items))
    && u.requestCount == t.requestCount + Uncounted(items)
  }

  lemma {:induction false} CommitAllAdds(t: Tie, byId: map<int, Item>, ids: seq<int>, frozen: bool)
    requires forall id :: id in ids ==> id in byId
    ensures Adds(t, CommitAll(t, byId, ids, frozen), Picked(byId, ids))
  {
    if ids == [] {
      assert t.hbfCompleted + RequestIds([]) == t.hbfCompleted;
    } else {
      var n := |ids| - 1;
      var last := ids[n];
      assert last in ids;
      CommitAllAdds(t, byId, ids[..n], frozen);
      AddsOne(t, CommitAll(t, byId, ids[..n], frozen), Picked(byId, ids[..n]), byId[last], frozen);
      PickedSnoc(byId, ids);
      hide Picked, CommitOne, Adds;
    }
  }

  lemma PickedSnoc(byId: map<int, Item>, ids: seq<int>)
    requires ids != [] && ids[|ids| - 1] in byId
    ensures Picked(byId, ids) == Picked(byId, ids[..|ids| - 1]) + [byId[ids[|ids| - 1]]]
  {}

  lemma AddsOne(t: Tie, mid: Tie, items: seq<Item>, x: Item, frozen: bool)
    requires Adds(t, mid, items)
    ensures Adds(t, CommitOne(mid, x, frozen), items + [x])
  {
    var front := HbfOf(items);
    assert (items + [x])[..|items|] == items;
    assert front + [] == front;
    TokensSplit(front, [x.request]);
    assert [x.request][1..] == [] && RequestIds([x.request]) == [x.request.id];
    hide Notified, FinalSession, RequestIds;
  }

  /** A commit adds the input and generated tokens of the tied HBF completions, lists their ids in order, and
      counts every HBF and terminal prefill completion as a request. */
  lemma CommitCounts(t: Tie, policy: Policy, gpu: seq<Request>, hbf: seq<Request>, prefill: seq<Request>)
    requires Commit(t, policy, gpu, hbf, prefill).Ok?
    ensures Adds(t, Commit(t, policy, gpu, hbf, prefill).value, InIdOrder(Items(gpu, hbf, prefill)))
  {
    var items := Items(gpu, hbf, prefill);
    SortedIdsAreKeys(items);
    hide Sort, ById, CommitAll, Items, Ids, Reaches, Picked, HbfOf, Uncounted, Inputs, Generated;
    var reaches := Reaches(t, policy, gpu, hbf, prefill);
    CommitAllAdds(Started(t, reaches), ById(items), Sort(IntLe(), Ids(items)), t.stopRequested || reaches);
  }
}
