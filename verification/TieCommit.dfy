/** The atomic commit of all completions tied at one timestamp (serving/__main__.py,
  _process_full_model_hbf_tie_barrier), with the slice of the router it consults
  (serving/core/router.py): which session a request belongs to, whether it is that session's last
  call, and what a completion notification releases.
 */
module TieCommit {
  import opened Sorting
  import opened Wrappers

  datatype Request = Request(id: int, generated: int, requested: int, input: int) {
    /** A prefill that already produced every requested output token. */
    predicate Terminal() { generated >= requested }
  }

  // ---------------------------------------------------------------- the router slice

  datatype Session = Session(nextIndex: nat, length: nat, idBase: int)

  datatype Router = Router(
    sessionOf: map<int, string>, open: map<string, Session>,
    completedIds: set<string>, completedCount: nat, frozen: bool, released: seq<int>)
  {
    /** A session has at most one live request. */
    ghost predicate Valid() {
      forall a, b :: a in sessionOf && b in sessionOf && sessionOf[a] == sessionOf[b] ==> a == b
    }
  }

  /** How the measured cohort is chosen: a number of completions, or a fixed set of sessions. */
  datatype Cohort = CompletionOrder(target: nat) | AdmissionOrder(required: set<string>)

  /** The session of which this request is the final call. */
  function FinalSession(router: Router, id: int): Option<string> {
    if id !in router.sessionOf || router.sessionOf[id] !in router.open then None
    else
      var s := router.open[router.sessionOf[id]];
      if s.nextIndex < s.length then None else Some(router.sessionOf[id])
  }

  predicate IsFinal(router: Router, id: int) { FinalSession(router, id).Some? }

  function FinalCalls(router: Router, requests: seq<Request>): nat {
    if requests == [] then 0
    else (if IsFinal(router, requests[0].id) then 1 else 0) + FinalCalls(router, requests[1..])
  }

  function Completing(router: Router, requests: seq<Request>): set<string> {
    set r | r in requests && IsFinal(router, r.id) :: FinalSession(router, r.id).value
  }

  /** Whether these completions would end the measurement. */
  predicate ReachesBoundary(router: Router, cohort: Cohort, requests: seq<Request>) {
    match cohort
    case CompletionOrder(target) =>
      var finals := FinalCalls(router, requests);
      target > 0 && finals > 0 && router.completedCount + finals >= target
    case AdmissionOrder(required) =>
      required - router.completedIds != {} && required - router.completedIds <= Completing(router, requests)
  }

  /** Completion of a request: the next call of its session is released, or the session ends. After
      a freeze no successor is released. */
  function Notified(router: Router, id: int): Router {
    if id !in router.sessionOf || router.sessionOf[id] !in router.open then router
    else
      var name := router.sessionOf[id];
      var s := router.open[name];
      if router.frozen && s.nextIndex < s.length then router
      else if s.nextIndex < s.length then
        var next := s.idBase + s.nextIndex;
        router.(sessionOf := (router.sessionOf - {id})[next := name],
                open := router.open[name := s.(nextIndex := s.nextIndex + 1)],
                released := router.released + [next])
      else
        router.(sessionOf := router.sessionOf - {id}, open := router.open - {name},
                completedIds := router.completedIds + {name}, completedCount := router.completedCount + 1)
  }

  // ---------------------------------------------------------------- the commit

  datatype Kind = Gpu | Hbf | Prefill

  datatype Item = Item(request: Request, kind: Kind) {
    /** The request itself ends here; a non-terminal prefill only moves on. */
    predicate Finishing() { kind != Prefill || request.Terminal() }
  }

  datatype Outcome = HandedToDecode | CensoredPrefill | Finished(publishSuccessor: bool)

  /** Everything the commit changes. */
  datatype Tie = Tie(
    router: Router, stopRequested: bool, promptOpen: int, genOpen: int,
    totalPrompt: int, totalGen: int, requestCount: int, hbfCompleted: seq<int>,
    effects: seq<(int, Outcome)>)

  datatype Policy = Policy(stopAfterMeasurement: bool, cohort: Cohort)

  function Items(gpu: seq<Request>, hbf: seq<Request>, prefill: seq<Request>): seq<Item> {
    Tagged(gpu, Gpu) + Tagged(hbf, Hbf) + Tagged(prefill, Prefill)
  }

  function Tagged(requests: seq<Request>, kind: Kind): (r: seq<Item>)
    ensures |r| == |requests| && forall i :: 0 <= i < |r| ==> r[i] == Item(requests[i], kind)
  {
    seq(|requests|, i requires 0 <= i < |requests| => Item(requests[i], kind))
  }

  function Ids(items: seq<Item>): (r: seq<int>)
    ensures |r| == |items| && forall i :: 0 <= i < |r| ==> r[i] == items[i].request.id
  {
    seq(|items|, i requires 0 <= i < |items| => items[i].request.id)
  }

  function Terminals(prefill: seq<Request>): seq<Request> {
    if prefill == [] then []
    else (if prefill[0].Terminal() then [prefill[0]] else []) + Terminals(prefill[1..])
  }

  /** The dictionary from request id to completion; a later entry replaces an earlier one. */
  function ById(items: seq<Item>): (m: map<int, Item>)
    ensures forall id :: id in m <==> id in Ids(items)
  {
    if items == [] then map[]
    else
      var n := |items| - 1;
      assert Ids(items) == Ids(items[..n]) + [items[n].request.id];
      ById(items[..n])[items[n].request.id := items[n]]
  }

  /** Commit one completion. `frozen` says that the source is frozen at this tie. */
  function CommitOne(t: Tie, item: Item, frozen: bool): Tie {
    var r := item.request;
    if !item.Finishing() then
      t.(effects := t.effects + [(r.id, if frozen then CensoredPrefill else HandedToDecode)])
    else
      var censor := frozen && !IsFinal(t.router, r.id);
      var counted := if item.kind == Gpu then t else t.(requestCount := t.requestCount + 1);
      var reported :=
        if item.kind == Hbf then
          counted.(hbfCompleted := t.hbfCompleted + [r.id],
                   promptOpen := t.promptOpen + r.input, totalPrompt := t.totalPrompt + r.input,
                   genOpen := t.genOpen + r.generated, totalGen := t.totalGen + r.generated)
        else counted;
      reported.(effects := t.effects + [(r.id, Finished(!censor))],
                router := if censor then t.router else Notified(t.router, r.id))
  }

  function CommitAll(t: Tie, byId: map<int, Item>, ids: seq<int>, frozen: bool): Tie
    requires forall id :: id in ids ==> id in byId
  {
    if ids == [] then t
    else
      var last := ids[|ids| - 1];
      assert last in ids;
      CommitOne(CommitAll(t, byId, ids[..|ids| - 1], frozen), byId[last], frozen)
  }

  predicate Reaches(t: Tie, policy: Policy, gpu: seq<Request>, hbf: seq<Request>, prefill: seq<Request>) {
    var final := gpu + hbf + Terminals(prefill);
    final != [] && !t.stopRequested && policy.stopAfterMeasurement && ReachesBoundary(t.router, policy.cohort, final)
  }

  function Started(t: Tie, reaches: bool): Tie {
    if reaches then t.(router := t.router.(frozen := true)) else t
  }

  /** The whole commit: decide the freeze on the tied set, reject duplicates, then commit in the
      order of request ids. */
  function Commit(t: Tie, policy: Policy, gpu: seq<Request>, hbf: seq<Request>, prefill: seq<Request>): Result<Tie> {
    var reaches := Reaches(t, policy, gpu, hbf, prefill);
    var items := Items(gpu, hbf, prefill);
    var byId := ById(items);
    if |byId| != |items| then Err("duplicate request completion")
    else
      var ids := Sort(IntLe(), Ids(items));
      SortedIdsAreKeys(items);
      var done := CommitAll(Started(t, reaches), byId, ids, t.stopRequested || reaches);
      Ok(done.(stopRequested := t.stopRequested || reaches))
  }

  /** An accepted commit has no duplicate ids. */
  lemma AcceptedCommit(t: Tie, policy: Policy, gpu: seq<Request>, hbf: seq<Request>, prefill: seq<Request>)
    requires Commit(t, policy, gpu, hbf, prefill).Ok?
    ensures |ById(Items(gpu, hbf, prefill))| == |Items(gpu, hbf, prefill)|
  {}

  lemma SortedIdsAreKeys(items: seq<Item>)
    ensures forall id :: id in Sort(IntLe(), Ids(items)) <==> id in ById(items)
  {
    forall id ensures id in Sort(IntLe(), Ids(items)) <==> id in ById(items) {
      SortMembers(IntLe(), Ids(items), id);
    }
  }

  /** The completions of these ids, in their order. */
  function Picked(byId: map<int, Item>, ids: seq<int>): seq<Item> {
    if ids == [] then []
    else
      var last := ids[|ids| - 1];
      Picked(byId, ids[..|ids| - 1]) + if last in byId then [byId[last]] else []
  }

  /** Tied completions in the order in which they are committed. */
  function InIdOrder(items: seq<Item>): seq<Item> {
    Picked(ById(items), Sort(IntLe(), Ids(items)))
  }

  lemma {:induction false} PickedAt(byId: map<int, Item>, ids: seq<int>)
    requires forall id :: id in ids ==> id in byId
    ensures |Picked(byId, ids)| == |ids|
    ensures forall k :: 0 <= k < |ids| ==> ids[k] in byId && Picked(byId, ids)[k] == byId[ids[k]]
  {
    if ids != [] {
      var n := |ids| - 1;
      var last := ids[n];
      assert last in ids;
      PickedAt(byId, ids[..n]);
      forall k | 0 <= k < |ids| ensures ids[k] in byId && Picked(byId, ids)[k] == byId[ids[k]] {
        if k < n { assert ids[..n][k] == ids[k]; }
      }
    }
  }

  /** The k-th completion in that order is the one of the k-th smallest id. */
  lemma InIdOrderAt(items: seq<Item>)
    requires |ById(items)| == |items|
    ensures var ids, r := Sort(IntLe(), Ids(items)), InIdOrder(items);
      |r| == |ids| && forall k :: 0 <= k < |ids| ==> ids[k] in ById(items) && r[k] == ById(items)[ids[k]] && r[k].request.id == ids[k]
  {
    hide Sort, Ids, ById, Picked;
    SortedIdsAreKeys(items);
    PickedAt(ById(items), Sort(IntLe(), Ids(items)));
    NoDuplicates(items);
    DictionaryIsKeyed(items);
  }

  lemma InIdOrderPermutes(items: seq<Item>)
    requires |ById(items)| == |items|
    ensures multiset(InIdOrder(items)) == multiset(items)
  {
    hide Sort, Ids, ById, InIdOrder, Distinct;
    NoDuplicates(items);
    DistinctSort(IntLe(), Ids(items));
    SortPermutes(IntLe(), Ids(items));
    InIdOrderAt(items);
    var sorted := SortedItems(items, Sort(IntLe(), Ids(items)));
    assert InIdOrder(items) == sorted;
  }

  // ---------------------------------------------------------------- arrival order is irrelevant

  lemma {:induction false} FinalCallsSplit(router: Router, a: seq<Request>, b: seq<Request>)
    ensures FinalCalls(router, a + b) == FinalCalls(router, a) + FinalCalls(router, b)
  {
    if a == [] {
      assert a + b == b;
    } else {
      FinalCallsSplit(router, a[1..], b);
      assert (a + b)[1..] == a[1..] + b;
    }
  }

  lemma FinalCallsTakeOut(router: Router, left: seq<Request>, x: Request, right: seq<Request>)
    ensures FinalCalls(router, left + [x] + right) == (if IsFinal(router, x.id) then 1 else 0) + FinalCalls(router, left + right)
  {
    FinalCallsSplit(router, left + [x], right);
    FinalCallsSplit(router, left, [x]);
    FinalCallsSplit(router, left, right);
    assert [x][1..] == [];
  }

  lemma {:induction false} FinalCallsOfPermutation(router: Router, a: seq<Request>, b: seq<Request>)
    requires multiset(a) == multiset(b)
    ensures FinalCalls(router, a) == FinalCalls(router, b)
  {
    SameMembers(a, b);
    if a != [] {
      var left, right := TakeOut(b, a[0]);
      HeadAndTail(a);
      FinalCallsOfPermutation(router, a[1..], left + right);
      FinalCallsTakeOut(router, left, a[0], right);
    }
  }

  lemma BoundaryOfPermutation(router: Router, cohort: Cohort, a: seq<Request>, b: seq<Request>)
    requires multiset(a) == multiset(b)
    ensures ReachesBoundary(router, cohort, a) == ReachesBoundary(router, cohort, b)
  {
    FinalCallsOfPermutation(router, a, b);
    SameMembers(a, b);
    assert Completing(router, a) == Completing(router, b);
  }

  lemma {:induction false} TerminalsMultiplicity(prefill: seq<Request>, x: Request)
    ensures multiset(Terminals(prefill))[x] == if x.Terminal() then multiset(prefill)[x] else 0
  {
    if prefill != [] {
      TerminalsMultiplicity(prefill[1..], x);
      assert prefill == [prefill[0]] + prefill[1..];
    }
  }

  lemma TerminalsOfPermutation(a: seq<Request>, b: seq<Request>)
    requires multiset(a) == multiset(b)
    ensures multiset(Terminals(a)) == multiset(Terminals(b))
  {
    forall x ensures multiset(Terminals(a))[x] == multiset(Terminals(b))[x] {
      TerminalsMultiplicity(a, x);
      TerminalsMultiplicity(b, x);
    }
  }

  lemma {:induction false} TaggedOfPermutation(a: seq<Request>, b: seq<Request>, kind: Kind)
    requires multiset(a) == multiset(b)
    ensures multiset(Tagged(a, kind)) == multiset(Tagged(b, kind))
  {
    forall x ensures multiset(Tagged(a, kind))[x] == multiset(Tagged(b, kind))[x] {
      TaggedMultiplicity(a, kind, x);
      TaggedMultiplicity(b, kind, x);
    }
  }

  lemma {:induction false} TaggedMultiplicity(a: seq<Request>, kind: Kind, x: Item)
    ensures multiset(Tagged(a, kind))[x] == if x.kind == kind then multiset(a)[x.request] else 0
  {
    if a != [] {
      var head, rest := Item(a[0], kind), Tagged(a[1..], kind);
      TaggedMultiplicity(a[1..], kind, x);
      HeadAndTail(a);
      assert Tagged(a, kind) == [head] + rest;
      hide Tagged;
      assert multiset([head] + rest) == multiset{head} + multiset(rest);
    }
  }

  lemma IdsSplit(a: seq<Item>, b: seq<Item>)
    ensures Ids(a + b) == Ids(a) + Ids(b)
  {}

  lemma {:induction false} IdsOfPermutation(a: seq<Item>, b: seq<Item>)
    requires multiset(a) == multiset(b)
    ensures multiset(Ids(a)) == multiset(Ids(b))
  {
    SameMembers(a, b);
    if a != [] {
      var x := a[0];
      var left, right := TakeOut(b, x);
      HeadAndTail(a);
      IdsOfPermutation(a[1..], left + right);
      assert a == [x] + a[1..];
      IdsSplit([x], a[1..]);
      IdsSplit(left, right);
      IdsSplit(left + [x], right);
      IdsSplit(left, [x]);
      calc {
        multiset(Ids(b));
        multiset(Ids(left) + Ids([x]) + Ids(right));
        multiset(Ids([x])) + multiset(Ids(left) + Ids(right));
        multiset(Ids([x])) + multiset(Ids(a[1..]));
        multiset(Ids(a));
      }
    }
  }

  /** The dictionary has one entry per completion exactly when no id repeats. */
  lemma {:induction false} NoDuplicates(items: seq<Item>)
    ensures |ById(items)| <= |items|
    ensures |ById(items)| == |items| <==> Distinct(Ids(items))
  {
    if items != [] {
      var n := |items| - 1;
      var front, last := items[..n], items[n].request.id;
      NoDuplicates(front);
      assert items == front + [items[n]];
      IdsSplit(front, [items[n]]);
      KeysSnoc(front, items[n]);
      DistinctSnoc(Ids(front), last);
    }
  }

  lemma KeysSnoc(front: seq<Item>, x: Item)
    ensures |ById(front + [x])| == if x.request.id in Ids(front) then |ById(front)| else |ById(front)| + 1
  {
    var m, m' := ById(front), ById(front + [x]);
    assert (front + [x])[..|front|] == front;
    assert m' == m[x.request.id := x];
    assert m'.Keys == m.Keys + {x.request.id};
    assert |m| == |m.Keys| && |m'| == |m'.Keys|;
    if x.request.id in Ids(front) { assert m'.Keys == m.Keys; }
  }

  lemma {:induction false} LookUp(items: seq<Item>, x: Item)
    requires Distinct(Ids(items)) && x in items
    ensures x.request.id in ById(items) && ById(items)[x.request.id] == x
  {
    var n := |items| - 1;
    var front := items[..n];
    assert items == front + [items[n]];
    IdsSplit(front, [items[n]]);
    DistinctSnoc(Ids(front), items[n].request.id);
    if x != items[n] {
      assert x in front;
      LookUp(front, x);
    }
  }

  lemma SameDictionary(a: seq<Item>, b: seq<Item>)
    requires multiset(a) == multiset(b)
    ensures |ById(a)| == |a| <==> |ById(b)| == |b|
    ensures |ById(a)| == |a| ==> ById(a) == ById(b)
  {
    hide Distinct, ById, Ids;
    IdsOfPermutation(a, b);
    NoDuplicates(a);
    NoDuplicates(b);
    SameDistinct(Ids(a), Ids(b));
    if Distinct(Ids(a)) {
      SameMembers(a, b);
      SameMembers(Ids(a), Ids(b));
      forall id | id in ById(a) ensures id in ById(b) && ById(a)[id] == ById(b)[id] { SameEntry(a, b, id); }
    }
  }

  /** Two duplicate-free lists with the same members look an id up alike. */
  lemma SameEntry(a: seq<Item>, b: seq<Item>, id: int)
    requires Distinct(Ids(a)) && Distinct(Ids(b)) && (forall x :: x in a ==> x in b)
    requires id in Ids(a)
    ensures id in ById(a) && id in ById(b) && ById(a)[id] == ById(b)[id]
  {
    hide Distinct, ById;
    var i :| 0 <= i < |a| && Ids(a)[i] == id;
    LookUp(a, a[i]);
    LookUp(b, a[i]);
  }

  lemma ItemsOfPermutation(gpu: seq<Request>, hbf: seq<Request>, prefill: seq<Request>,
                           gpu': seq<Request>, hbf': seq<Request>, prefill': seq<Request>)
    requires multiset(gpu) == multiset(gpu') && multiset(hbf) == multiset(hbf') && multiset(prefill) == multiset(prefill')
    ensures multiset(Items(gpu, hbf, prefill)) == multiset(Items(gpu', hbf', prefill'))
    ensures |Items(gpu, hbf, prefill)| == |Items(gpu', hbf', prefill')|
  {
    TaggedOfPermutation(gpu, gpu', Gpu);
    TaggedOfPermutation(hbf, hbf', Hbf);
    TaggedOfPermutation(prefill, prefill', Prefill);
    SameMembers(Items(gpu, hbf, prefill), Items(gpu', hbf', prefill'));
  }

  lemma FreezeDecisionIgnoresOrder(t: Tie, policy: Policy,
                                   gpu: seq<Request>, hbf: seq<Request>, prefill: seq<Request>,
                                   gpu': seq<Request>, hbf': seq<Request>, prefill': seq<Request>)
    requires multiset(gpu) == multiset(gpu') && multiset(hbf) == multiset(hbf') && multiset(prefill) == multiset(prefill')
    ensures Reaches(t, policy, gpu, hbf, prefill) == Reaches(t, policy, gpu', hbf', prefill')
  {
    TerminalsOfPermutation(prefill, prefill');
    var final, final' := gpu + hbf + Terminals(prefill), gpu' + hbf' + Terminals(prefill');
    assert multiset(final) == multiset(final');
    SameMembers(final, final');
    BoundaryOfPermutation(t.router, policy.cohort, final, final');
  }

  /** The commit, its error, the freeze decision and every counter depend on the sets of tied
      completions only, not on the order in which they arrived. */
  lemma CommitIgnoresArrivalOrder(t: Tie, policy: Policy,
                                  gpu: seq<Request>, hbf: seq<Request>, prefill: seq<Request>,
                                  gpu': seq<Request>, hbf': seq<Request>, prefill': seq<Request>)
    requires multiset(gpu) == multiset(gpu') && multiset(hbf) == multiset(hbf') && multiset(prefill) == multiset(prefill')
    ensures Commit(t, policy, gpu, hbf, prefill) == Commit(t, policy, gpu', hbf', prefill')
  {
    FreezeDecisionIgnoresOrder(t, policy, gpu, hbf, prefill, gpu', hbf', prefill');
    ItemsOfPermutation(gpu, hbf, prefill, gpu', hbf', prefill');
    var items, items' := Items(gpu, hbf, prefill), Items(gpu', hbf', prefill');
    SameDictionary(items, items');
    IdsOfPermutation(items, items');
    IntLeIsTotalOrder();
    SortIgnoresOrder(IntLe(), Ids(items), Ids(items'));
    hide Sort, ById, CommitAll, Reaches, Items;
  }

  lemma IntLeIsTotalOrder()
    ensures TotalOrder(IntLe())
  {}

  // ---------------------------------------------------------------- each completion exactly once

  function OutcomeOf(item: Item, frozen: bool, final: bool): Outcome {
    if item.Finishing() then Finished(!frozen || final)
    else if frozen then CensoredPrefill else HandedToDecode
  }

  // ---------------------------------------------------------------- what a freeze does to the router

  /** The finishing requests among `ids` that end their session. */
  function EndingIds(router: Router, byId: map<int, Item>, ids: seq<int>): nat {
    if ids == [] then 0
    else
      var last := ids[|ids| - 1];
      EndingIds(router, byId, ids[..|ids| - 1])
      + if last in byId && byId[last].Finishing() && IsFinal(router, last) then 1 else 0
  }

  predicate Ends(router: Router, byId: map<int, Item>, id: int) {
    id in byId && byId[id].Finishing() && IsFinal(router, id)
  }

  /** The router after part of a frozen commit: nothing was released, the sessions of the committed
      final calls are complete, and the uncommitted requests are still what they were. */
  ghost predicate FrozenProgress(r0: Router, r: Router, byId: map<int, Item>, ids: seq<int>) {
    && r.frozen && r.Valid() && r.released == r0.released
    && r.completedCount == r0.completedCount + EndingIds(r0, byId, ids)
    && r0.completedIds <= r.completedIds
    && (forall id :: id in ids && Ends(r0, byId, id) ==> FinalSession(r0, id).value in r.completedIds)
    && (forall id :: id !in ids ==> FinalSession(r, id) == FinalSession(r0, id))
  }

  lemma {:induction false} FrozenCommit(t: Tie, byId: map<int, Item>, ids: seq<int>)
    requires t.router.Valid() && t.router.frozen && Distinct(ids)
    requires forall id :: id in byId ==> byId[id].request.id == id
    requires forall id :: id in ids ==> id in byId
    ensures FrozenProgress(t.router, CommitAll(t, byId, ids, true).router, byId, ids)
  {
    if ids != [] {
      var n := |ids| - 1;
      var front, last := ids[..n], ids[n];
      assert last in ids;
      DistinctSnoc(front, last);
      assert ids == front + [last];
      FrozenCommit(t, byId, front);
      FrozenCommitOne(t.router, CommitAll(t, byId, front, true), byId, front, last);
    }
  }

  lemma FrozenCommitOne(r0: Router, mid: Tie, byId: map<int, Item>, front: seq<int>, last: int)
    requires FrozenProgress(r0, mid.router, byId, front)
    requires r0.Valid() && last !in front && last in byId && byId[last].request.id == last
    ensures FrozenProgress(r0, CommitOne(mid, byId[last], true).router, byId, front + [last])
  {
    var ids, r := front + [last], mid.router;
    assert ids[..|front|] == front;
    assert forall id :: id in ids <==> id in front || id == last;
    if Ends(r0, byId, last) {
      var name := FinalSession(r0, last).value;
      assert FinalSession(r, last) == Some(name);
      EndingIsLocal(r, last);
    }
  }

  /** Ending one session leaves every other request as it was. */
  lemma EndingIsLocal(r: Router, id: int)
    requires r.Valid() && IsFinal(r, id)
    ensures var r' := Notified(r, id);
      && r'.Valid() && r'.frozen == r.frozen && r'.released == r.released
      && r'.completedCount == r.completedCount + 1
      && r'.completedIds == r.completedIds + {FinalSession(r, id).value}
      && forall other :: other != id ==> FinalSession(r', other) == FinalSession(r, other)
  {}

  function EndingItems(router: Router, items: seq<Item>): nat {
    if items == [] then 0
    else EndingItems(router, items[1..])
         + if items[0].Finishing() && IsFinal(router, items[0].request.id) then 1 else 0
  }

  lemma {:induction false} EndingItemsSplit(router: Router, a: seq<Item>, b: seq<Item>)
    ensures EndingItems(router, a + b) == EndingItems(router, a) + EndingItems(router, b)
  {
    if a == [] {
      assert a + b == b;
    } else {
      EndingItemsSplit(router, a[1..], b);
      assert (a + b)[1..] == a[1..] + b;
    }
  }

  lemma {:induction false} EndingItemsOfPermutation(router: Router, a: seq<Item>, b: seq<Item>)
    requires multiset(a) == multiset(b)
    ensures EndingItems(router, a) == EndingItems(router, b)
  {
    SameMembers(a, b);
    if a != [] {
      var left, right := TakeOut(b, a[0]);
      HeadAndTail(a);
      EndingItemsOfPermutation(router, a[1..], left + right);
      EndingItemsSplit(router, left + [a[0]], right);
      EndingItemsSplit(router, left, [a[0]]);
      EndingItemsSplit(router, left, right);
      assert [a[0]][1..] == [];
    }
  }

  lemma {:induction false} EndingTagged(router: Router, requests: seq<Request>, kind: Kind)
    requires kind != Prefill
    ensures EndingItems(router, Tagged(requests, kind)) == FinalCalls(router, requests)
  {
    if requests != [] {
      EndingTagged(router, requests[1..], kind);
      assert Tagged(requests, kind)[1..] == Tagged(requests[1..], kind);
    }
  }

  lemma {:induction false} EndingPrefills(router: Router, prefill: seq<Request>)
    ensures EndingItems(router, Tagged(prefill, Prefill)) == FinalCalls(router, Terminals(prefill))
  {
    if prefill != [] {
      EndingPrefills(router, prefill[1..]);
      assert Tagged(prefill, Prefill)[1..] == Tagged(prefill[1..], Prefill);
      if prefill[0].Terminal() {
        FinalCallsSplit(router, [prefill[0]], Terminals(prefill[1..]));
        assert [prefill[0]][1..] == [];
      } else {
        assert Terminals(prefill) == Terminals(prefill[1..]);
      }
    }
  }

  lemma {:induction false} EndingIdsOfItems(router: Router, byId: map<int, Item>, ids: seq<int>, items: seq<Item>)
    requires |ids| == |items|
    requires forall k :: 0 <= k < |ids| ==> ids[k] in byId && byId[ids[k]] == items[k] && items[k].request.id == ids[k]
    ensures EndingIds(router, byId, ids) == EndingItems(router, items)
  {
    if ids == [] {
    } else {
      var n := |ids| - 1;
      EndingIdsOfItems(router, byId, ids[..n], items[..n]);
      EndingItemsSplit(router, items[..n], [items[n]]);
      assert items == items[..n] + [items[n]];
      assert [items[n]][1..] == [];
    }
  }

  /** Counting the final calls over the sorted ids gives the number the boundary test used. */
  lemma EndingIdsAreFinalCalls(router: Router, gpu: seq<Request>, hbf: seq<Request>, prefill: seq<Request>)
    requires var items := Items(gpu, hbf, prefill); |ById(items)| == |items|
    ensures var items := Items(gpu, hbf, prefill);
      EndingIds(router, ById(items), Sort(IntLe(), Ids(items))) == FinalCalls(router, gpu + hbf + Terminals(prefill))
  {
    var items := Items(gpu, hbf, prefill);
    var byId, ids := ById(items), Sort(IntLe(), Ids(items));
    NoDuplicates(items);
    SortedIdsAreKeys(items);
    DistinctSort(IntLe(), Ids(items));
    SortPermutes(IntLe(), Ids(items));
    var sorted := SortedItems(items, ids);
    EndingIdsOfItems(router, byId, ids, sorted);
    EndingItemsOfPermutation(router, sorted, items);
    EndingItemsSplit(router, Tagged(gpu, Gpu) + Tagged(hbf, Hbf), Tagged(prefill, Prefill));
    EndingItemsSplit(router, Tagged(gpu, Gpu), Tagged(hbf, Hbf));
    EndingTagged(router, gpu, Gpu);
    EndingTagged(router, hbf, Hbf);
    EndingPrefills(router, prefill);
    FinalCallsSplit(router, gpu + hbf, Terminals(prefill));
    FinalCallsSplit(router, gpu, hbf);
  }

  lemma SortedItems(items: seq<Item>, ids: seq<int>) returns (sorted: seq<Item>)
    requires Distinct(Ids(items)) && Distinct(ids) && multiset(ids) == multiset(Ids(items))
    ensures |sorted| == |ids| && multiset(sorted) == multiset(items)
    ensures forall k :: 0 <= k < |ids| ==> ids[k] in ById(items) && sorted[k] == ById(items)[ids[k]] && sorted[k].request.id == ids[k]
  {
    SameMembers(ids, Ids(items));
    forall id | id in ids ensures id in ById(items) && ById(items)[id] in items && ById(items)[id].request.id == id {
      var i :| 0 <= i < |items| && Ids(items)[i] == id;
      LookUp(items, items[i]);
    }
    sorted := seq(|ids|, k requires 0 <= k < |ids| => ById(items)[ids[k]]);
    forall i, j | 0 <= i < j < |sorted| ensures sorted[i] != sorted[j] {
      assert sorted[i].request.id == ids[i] && sorted[j].request.id == ids[j];
    }
    DistinctItems(items);
    forall x ensures x in sorted <==> x in items {
      if x in items {
        LookUp(items, x);
        var i :| 0 <= i < |items| && items[i] == x;
        assert Ids(items)[i] in ids;
        var k :| 0 <= k < |ids| && ids[k] == x.request.id;
        assert sorted[k] == x;
      }
    }
    DistinctSameSet(sorted, items);
  }

  lemma DistinctItems(items: seq<Item>)
    requires Distinct(Ids(items))
    ensures Distinct(items)
  {
    forall i, j | 0 <= i < j < |items| ensures items[i] != items[j] {
      assert Ids(items)[i] != Ids(items)[j];
    }
  }

  lemma DictionaryIsKeyed(items: seq<Item>)
    requires Distinct(Ids(items))
    ensures forall id :: id in ById(items) ==> ById(items)[id].request.id == id && ById(items)[id] in items
  {
    forall id | id in ById(items) ensures ById(items)[id].request.id == id && ById(items)[id] in items {
      var i :| 0 <= i < |items| && Ids(items)[i] == id;
      LookUp(items, items[i]);
    }
  }

  /** A frozen commit releases no successor, and completes exactly as many sessions as the boundary
      test counted final calls. */
  lemma FrozenCommitReleasesNothing(t: Tie, policy: Policy, gpu: seq<Request>, hbf: seq<Request>, prefill: seq<Request>)
    requires t.router.Valid() && (t.stopRequested ==> t.router.frozen)
    requires Commit(t, policy, gpu, hbf, prefill).Ok?
    requires t.stopRequested || Reaches(t, policy, gpu, hbf, prefill)
    ensures var after := Commit(t, policy, gpu, hbf, prefill).value;
      && after.stopRequested && after.router.frozen && after.router.Valid()
      && after.router.released == t.router.released
      && after.router.completedCount == t.router.completedCount + FinalCalls(t.router, gpu + hbf + Terminals(prefill))
      && t.router.completedIds <= after.router.completedIds
  {
    var items := Items(gpu, hbf, prefill);
    var start := Started(t, Reaches(t, policy, gpu, hbf, prefill));
    var ids := Sort(IntLe(), Ids(items));
    NoDuplicates(items);
    DictionaryIsKeyed(items);
    SortedIdsAreKeys(items);
    DistinctSort(IntLe(), Ids(items));
    FrozenCommit(start, ById(items), ids);
    EndingIdsAreFinalCalls(start.router, gpu, hbf, prefill);
    FrozenFlagIsIgnored(t.router, start.router, gpu + hbf + Terminals(prefill));
    hide Sort, ById, CommitAll, Reaches, Items, EndingIds, FinalCalls;
  }

  lemma {:induction false} FrozenFlagIsIgnored(r: Router, f: Router, requests: seq<Request>)
    requires f == r.(frozen := f.frozen)
    ensures FinalCalls(f, requests) == FinalCalls(r, requests)
    ensures Completing(f, requests) == Completing(r, requests)
  {
    forall id ensures FinalSession(f, id) == FinalSession(r, id) {}
    if requests != [] { FrozenFlagIsIgnored(r, f, requests[1..]); }
  }

  /** The log of one commit names every id once, in order, with the outcome its class demands and
      its place in its session demands. */
  ghost predicate Accounts(effects: seq<(int, Outcome)>, before: seq<(int, Outcome)>, router: Router,
                           byId: map<int, Item>, ids: seq<int>, frozen: bool)
  {
    && |effects| == |before| + |ids|
    && effects[..|before|] == before
    && forall k :: 0 <= k < |ids| ==>
         && ids[k] in byId
         && effects[|before| + k] == (ids[k], OutcomeOf(byId[ids[k]], frozen, IsFinal(router, ids[k])))
  }

  /** Every tied completion is settled exactly once: under a freeze a final call ends its session and
      any other is censored; without one, everything is handed on. */
  lemma {:induction false} EveryCompletionOnce(t: Tie, byId: map<int, Item>, ids: seq<int>, frozen: bool)
    requires forall id :: id in ids ==> id in byId
    requires forall id :: id in byId ==> byId[id].request.id == id
    requires frozen ==> t.router.Valid() && t.router.frozen && Distinct(ids)
    ensures Accounts(CommitAll(t, byId, ids, frozen).effects, t.effects, t.router, byId, ids, frozen)
  {
    if ids != [] {
      var n := |ids| - 1;
      var front, last := ids[..n], ids[n];
      assert last in ids;
      assert ids == front + [last];
      if frozen { DistinctSnoc(front, last); }
      EveryCompletionOnce(t, byId, front, frozen);
      var mid := CommitAll(t, byId, front, frozen);
      if frozen { FrozenCommit(t, byId, front); }
      OneEffect(mid, byId[last], frozen);
      AccountsSnoc(mid.effects, t.effects, t.router, byId, front, last, frozen);
    }
  }

  lemma OneEffect(t: Tie, item: Item, frozen: bool)
    ensures CommitOne(t, item, frozen).effects
         == t.effects + [(item.request.id, OutcomeOf(item, frozen, IsFinal(t.router, item.request.id)))]
  {}

  lemma AccountsSnoc(effects: seq<(int, Outcome)>, before: seq<(int, Outcome)>, router: Router,
                     byId: map<int, Item>, front: seq<int>, last: int, frozen: bool)
    requires forall id :: id in front ==> id in byId
    requires last in byId && Accounts(effects, before, router, byId, front, frozen)
    ensures Accounts(effects + [(last, OutcomeOf(byId[last], frozen, IsFinal(router, last)))], before, router,
                     byId, front + [last], frozen)
  {
    var ids, all := front + [last], effects + [(last, OutcomeOf(byId[last], frozen, IsFinal(router, last)))];
    forall k | 0 <= k < |ids|
      ensures ids[k] in byId && all[|before| + k] == (ids[k], OutcomeOf(byId[ids[k]], frozen, IsFinal(router, ids[k]))) {
      if k < |front| {
        assert ids[k] == front[k] && all[|before| + k] == effects[|before| + k];
      }
    }
  }

  /** Tokens enter the open bucket and the total together, and every HBF or terminal prefill completion is
      counted as one request; GPU completions were counted when they reported. */
  lemma {:induction false} CommitConserves(t: Tie, byId: map<int, Item>, ids: seq<int>, frozen: bool)
    requires forall id :: id in ids ==> id in byId
    ensures var u := CommitAll(t, byId, ids, frozen);
      && u.totalPrompt - u.promptOpen == t.totalPrompt - t.promptOpen
      && u.totalGen - u.genOpen == t.totalGen - t.genOpen
      && u.requestCount == t.requestCount + NewlyCounted(byId, ids)
  {
    if ids != [] {
      var n := |ids| - 1;
      assert ids[n] in ids;
      CommitConserves(t, byId, ids[..n], frozen);
      hide Notified, FinalSession;
    }
  }

  function NewlyCounted(byId: map<int, Item>, ids: seq<int>): nat {
    if ids == [] then 0
    else
      var last := ids[|ids| - 1];
      NewlyCounted(byId, ids[..|ids| - 1]) + if last in byId && byId[last].Finishing() && byId[last].kind != Gpu then 1 else 0
  }

  // ---------------------------------------------------------------- the boundary is delivered

  predicate BoundaryMet(router: Router, cohort: Cohort) {
    match cohort
    case CompletionOrder(target) => target > 0 && router.completedCount >= target
    case AdmissionOrder(required) => required != {} && required <= router.completedIds
  }

  /** The measurement freezes on a prediction, before any completion is announced. The prediction is
      kept: once the tied completions are committed, the measured cohort is complete. */
  lemma FreezeIsDelivered(t: Tie, policy: Policy, gpu: seq<Request>, hbf: seq<Request>, prefill: seq<Request>)
    requires t.router.Valid() && !t.stopRequested
    requires Commit(t, policy, gpu, hbf, prefill).Ok? && Reaches(t, policy, gpu, hbf, prefill)
    ensures BoundaryMet(Commit(t, policy, gpu, hbf, prefill).value.router, policy.cohort)
  {
    FrozenCommitReleasesNothing(t, policy, gpu, hbf, prefill);
    if policy.cohort.AdmissionOrder? {
      var after := Commit(t, policy, gpu, hbf, prefill).value.router;
      var final := gpu + hbf + Terminals(prefill);
      forall name | name in policy.cohort.required ensures name in after.completedIds {
        if name !in t.router.completedIds {
          assert name in Completing(t.router, final);
          var r :| r in final && IsFinal(t.router, r.id) && FinalSession(t.router, r.id).value == name;
          FinalCallIsCommitted(t, policy, gpu, hbf, prefill, r);
        }
      }
    }
  }

  lemma {:induction false} TerminalsAreTerminal(prefill: seq<Request>, r: Request)
    requires r in Terminals(prefill)
    ensures r in prefill && r.Terminal()
  {
    if r in Terminals(prefill[1..]) { TerminalsAreTerminal(prefill[1..], r); }
  }

  lemma FinishingItem(gpu: seq<Request>, hbf: seq<Request>, prefill: seq<Request>, r: Request) returns (x: Item)
    requires r in gpu + hbf + Terminals(prefill)
    ensures x in Items(gpu, hbf, prefill) && x.request == r && x.Finishing()
  {
    if r in gpu {
      x := Item(r, Gpu);
      var i :| 0 <= i < |gpu| && gpu[i] == r;
      assert Tagged(gpu, Gpu)[i] == x;
    } else if r in hbf {
      x := Item(r, Hbf);
      var i :| 0 <= i < |hbf| && hbf[i] == r;
      assert Tagged(hbf, Hbf)[i] == x;
    } else {
      TerminalsAreTerminal(prefill, r);
      x := Item(r, Prefill);
      var i :| 0 <= i < |prefill| && prefill[i] == r;
      assert Tagged(prefill, Prefill)[i] == x;
    }
  }

  /** A tied final call leaves its session complete. */
  lemma FinalCallIsCommitted(t: Tie, policy: Policy, gpu: seq<Request>, hbf: seq<Request>, prefill: seq<Request>, r: Request)
    requires t.router.Valid() && Commit(t, policy, gpu, hbf, prefill).Ok? && Reaches(t, policy, gpu, hbf, prefill)
    requires r in gpu + hbf + Terminals(prefill) && IsFinal(t.router, r.id)
    ensures FinalSession(t.router, r.id).value in Commit(t, policy, gpu, hbf, prefill).value.router.completedIds
  {
    var items := Items(gpu, hbf, prefill);
    var byId, ids, start := ById(items), Sort(IntLe(), Ids(items)), Started(t, true);
    var x := FinishingItem(gpu, hbf, prefill, r);
    NoDuplicates(items);
    DictionaryIsKeyed(items);
    SortedIdsAreKeys(items);
    DistinctSort(IntLe(), Ids(items));
    FrozenCommit(start, byId, ids);
    LookUp(items, x);
    FrozenFlagIsIgnored(t.router, start.router, []);
    assert FinalSession(start.router, r.id) == FinalSession(t.router, r.id);
    hide Sort, ById, CommitAll, Reaches, Items, EndingIds, FinalCalls;
    assert Ends(start.router, byId, r.id) && r.id in ids;
  }
}
