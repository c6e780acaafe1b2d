/** The completion order of sessions in a full drain (serving/live_astra_comparison_collect.py). */
module SessionOrder {
  import opened RequestRows
  import opened Sorting
  import opened Wrappers

  function Last(rows: seq<Row>): Row requires rows != [] { rows[|rows| - 1] }

  function Front(rows: seq<Row>): seq<Row> requires rows != [] { rows[..|rows| - 1] }

  ghost predicate Seen(rows: seq<Row>, s: string) {
    exists row :: row in rows && row.sessionId == s
  }

  /** Latest completion of a session, 0 for a session without rows. */
  function LastCompletion(rows: seq<Row>, s: string): nat {
    if rows == [] then 0
    else
      var rest := LastCompletion(Front(rows), s);
      if Last(rows).sessionId == s && Last(rows).completionNs > rest then Last(rows).completionNs else rest
  }

  /** The call indices a session has rows for. */
  function Calls(rows: seq<Row>, s: string): set<nat> {
    set row | row in rows && row.sessionId == s :: row.callIndex
  }

  /** {0, ..., n-1} */
  function Range(n: nat): (r: set<nat>)
    ensures forall k: nat :: k in r <==> k < n
  {
    if n == 0 then {} else Range(n - 1) + {n - 1}
  }

  predicate Contiguous(calls: set<nat>) {
    calls == Range(|calls|)
  }

  predicate Precedes(completion: map<string, nat>, a: string, b: string) {
    var x, y := if a in completion then completion[a] else 0, if b in completion then completion[b] else 0;
    x < y || (x == y && LexLe(a, b))
  }

  function Order(completion: map<string, nat>): (string, string) -> bool {
    (a, b) => Precedes(completion, a, b)
  }

  lemma OrderIsTotal(completion: map<string, nat>)
    ensures TotalOrder(Order(completion))
  {
    var le := Order(completion);
    forall x: string, y: string ensures le(x, y) || le(y, x) { LexTotal(x, y); }
    forall x: string, y: string | le(x, y) && le(y, x) ensures x == y { LexAntisymmetric(x, y); }
    forall x: string, y: string, z: string | le(x, y) && le(y, z) ensures le(x, z) {
      if LexLe(x, y) && LexLe(y, z) { LexTransitive(x, y, z); }
    }
  }

  /** Every session once, strictly increasing in (last completion, id). */
  ghost predicate IsSessionOrder(rows: seq<Row>, order: seq<string>) {
    && (forall s :: s in order <==> Seen(rows, s))
    && Distinct(order)
    && (forall i, j :: 0 <= i < j < |order| ==> Earlier(rows, order[i], order[j]))
  }

  ghost predicate Earlier(rows: seq<Row>, a: string, b: string) {
    LastCompletion(rows, a) < LastCompletion(rows, b)
    || (LastCompletion(rows, a) == LastCompletion(rows, b) && LexLe(a, b) && a != b)
  }

  /** The dictionaries after the rows seen so far; `keys` is their insertion order. */
  ghost predicate Collected(rows: seq<Row>, keys: seq<string>, completion: map<string, nat>, calls: map<string, set<nat>>) {
    && Distinct(keys)
    && (forall s :: s in keys <==> Seen(rows, s))
    && (forall s :: s in completion <==> s in keys)
    && (forall s :: s in calls <==> s in keys)
    && (forall s :: s in keys ==> completion[s] == LastCompletion(rows, s) && calls[s] == Calls(rows, s))
  }

  /** Sessions by last completion; a session whose calls are not 0..n-1 is an error. */
  method NativeFullDrainSessionOrder(rows: seq<Row>) returns (r: Result<seq<string>>)
    ensures r.Ok? <==> forall s :: Seen(rows, s) ==> Contiguous(Calls(rows, s))
    ensures r.Ok? ==> IsSessionOrder(rows, r.value)
  {
    var keys: seq<string>, completion: map<string, nat>, calls: map<string, set<nat>> := [], map[], map[];
    for i := 0 to |rows|
      invariant Collected(rows[..i], keys, completion, calls)
    {
      var row := rows[i];
      var s := row.sessionId;
      ghost var keys0, completion0, calls0 := keys, completion, calls;
      var previous := if s in completion then completion[s] else row.completionNs;
      completion := completion[s := if row.completionNs > previous then row.completionNs else previous];
      if s !in calls {
        calls := calls[s := {}];
        keys := keys + [s];
      }
      calls := calls[s := calls[s] + {row.callIndex}];
      assert rows[..i + 1] == rows[..i] + [row];
      CollectOne(rows[..i], row, keys0, completion0, calls0, keys, completion, calls);
    }
    assert rows[..|rows|] == rows;
    r := OrderCollected(rows, keys, completion, calls);
  }

  /** The roster check and the final sort. */
  method OrderCollected(ghost rows: seq<Row>, keys: seq<string>, completion: map<string, nat>, calls: map<string, set<nat>>)
    returns (r: Result<seq<string>>)
    requires Collected(rows, keys, completion, calls)
    ensures r.Ok? <==> forall s :: Seen(rows, s) ==> Contiguous(Calls(rows, s))
    ensures r.Ok? ==> IsSessionOrder(rows, r.value)
  {
    hide Contiguous, LastCompletion, Sort;
    for i := 0 to |keys|
      invariant forall j :: 0 <= j < i ==> Contiguous(calls[keys[j]])
    {
      if !Contiguous(calls[keys[i]]) {
        assert keys[i] in keys;
        return Err("non-contiguous completed call roster");
      }
    }
    forall s | Seen(rows, s) ensures Contiguous(Calls(rows, s)) {
      assert s in keys;
    }
    SortedIsSessionOrder(rows, keys, completion, calls);
    r := Ok(Sort(Order(completion), keys));
  }

  lemma CollectOne(rows: seq<Row>, row: Row,
                   keys0: seq<string>, completion0: map<string, nat>, calls0: map<string, set<nat>>,
                   keys: seq<string>, completion: map<string, nat>, calls: map<string, set<nat>>)
    requires Collected(rows, keys0, completion0, calls0)
    requires keys == if row.sessionId in keys0 then keys0 else keys0 + [row.sessionId]
    requires var previous := if row.sessionId in completion0 then completion0[row.sessionId] else row.completionNs;
             completion == completion0[row.sessionId := if row.completionNs > previous then row.completionNs else previous]
    requires calls == calls0[row.sessionId := (if row.sessionId in calls0 then calls0[row.sessionId] else {}) + {row.callIndex}]
    ensures Collected(rows + [row], keys, completion, calls)
  {
    var all := rows + [row];
    assert Front(all) == rows && Last(all) == row;
    forall s ensures s in keys <==> Seen(all, s) {
      if s == row.sessionId { assert row in all; }
      if Seen(rows, s) {
        var x :| x in rows && x.sessionId == s;
        assert x in all;
      }
    }
    forall s | s in keys ensures calls[s] == Calls(all, s) && completion[s] == LastCompletion(all, s) {
      CallsSnoc(rows, row, s);
      if s !in keys0 {
        Unseen(rows, s);
      }
    }
  }

  lemma CallsSnoc(rows: seq<Row>, row: Row, s: string)
    ensures Calls(rows + [row], s) == if row.sessionId == s then Calls(rows, s) + {row.callIndex} else Calls(rows, s)
  {
    assert forall x :: x in rows + [row] <==> x in rows || x == row;
  }

  lemma {:induction false} Unseen(rows: seq<Row>, s: string)
    requires !Seen(rows, s)
    ensures LastCompletion(rows, s) == 0 && Calls(rows, s) == {}
  {
    if rows != [] {
      assert Last(rows) in rows;
      forall x | x in Front(rows) ensures x in rows {}
      Unseen(Front(rows), s);
    }
  }

  lemma SortedIsSessionOrder(rows: seq<Row>, keys: seq<string>, completion: map<string, nat>, calls: map<string, set<nat>>)
    requires Collected(rows, keys, completion, calls)
    ensures IsSessionOrder(rows, Sort(Order(completion), keys))
  {
    var le := Order(completion);
    var order := Sort(le, keys);
    OrderIsTotal(completion);
    SortSorts(le, keys);
    DistinctSort(le, keys);
    forall s ensures s in order <==> s in keys { SortMembers(le, keys, s); }
    forall i, j | 0 <= i < j < |order| ensures Earlier(rows, order[i], order[j]) {
      assert order[i] in order && order[j] in order;
      assert le(order[i], order[j]);
    }
  }

  // ---------------------------------------------------------------- row order does not matter

  lemma {:induction false} LastCompletionIsMax(rows: seq<Row>, s: string)
    ensures forall row :: row in rows && row.sessionId == s ==> row.completionNs <= LastCompletion(rows, s)
    ensures Seen(rows, s) ==> exists row :: row in rows && row.sessionId == s && row.completionNs == LastCompletion(rows, s)
    ensures !Seen(rows, s) ==> LastCompletion(rows, s) == 0
  {
    if rows != [] {
      LastCompletionIsMax(Front(rows), s);
      assert forall x :: x in rows <==> x in Front(rows) || x == Last(rows);
    }
  }

  lemma SameRowsSameCompletion(a: seq<Row>, b: seq<Row>, s: string)
    requires forall row :: row in a <==> row in b
    ensures LastCompletion(a, s) == LastCompletion(b, s)
  {
    LastCompletionIsMax(a, s);
    LastCompletionIsMax(b, s);
    if Seen(a, s) {
      var x :| x in a && x.sessionId == s && x.completionNs == LastCompletion(a, s);
      var y :| y in b && y.sessionId == s && y.completionNs == LastCompletion(b, s) by { assert x in b; }
      assert x in b && y in a;
    } else {
      assert !Seen(b, s);
    }
  }

  /** Any two orders of the same rows are the same order, whatever the order of the rows. */
  lemma OrderIgnoresRowOrder(a: seq<Row>, b: seq<Row>, x: seq<string>, y: seq<string>)
    requires multiset(a) == multiset(b)
    requires IsSessionOrder(a, x) && IsSessionOrder(b, y)
    ensures x == y
  {
    forall row ensures row in a <==> row in b {
      assert row in a <==> row in multiset(a);
      assert row in b <==> row in multiset(b);
    }
    forall s ensures s in x <==> s in y {
      if Seen(a, s) { var r :| r in a && r.sessionId == s; assert r in b; }
      if Seen(b, s) { var r :| r in b && r.sessionId == s; assert r in a; }
    }
    DistinctSameSet(x, y);
    var completion := map s | s in x :: LastCompletion(a, s);
    OrderIsTotal(completion);
    forall s | s in x ensures completion[s] == LastCompletion(b, s) { SameRowsSameCompletion(a, b, s); }
    EarlierIsSorted(a, x, completion);
    EarlierIsSorted(b, y, completion);
    SortedIsUnique(Order(completion), x, y);
  }

  lemma EarlierIsSorted(rows: seq<Row>, order: seq<string>, completion: map<string, nat>)
    requires IsSessionOrder(rows, order)
    requires forall s :: s in order ==> s in completion && completion[s] == LastCompletion(rows, s)
    ensures Sorted(Order(completion), order)
  {
    forall i, j | 0 <= i < j < |order| ensures Order(completion)(order[i], order[j]) {
      assert order[i] in order && order[j] in order;
      assert Earlier(rows, order[i], order[j]);
    }
  }

  // ---------------------------------------------------------------- acceptance counts the rows

  function RowsOf(rows: seq<Row>, s: string): nat {
    if rows == [] then 0 else RowsOf(Front(rows), s) + if Last(rows).sessionId == s then 1 else 0
  }

  function SumOfLengths(rows: seq<Row>, order: seq<string>): nat {
    if order == [] then 0 else |Calls(rows, order[0])| + SumOfLengths(rows, order[1..])
  }

  function SumOfRows(rows: seq<Row>, order: seq<string>): nat {
    if order == [] then 0 else RowsOf(rows, order[0]) + SumOfRows(rows, order[1..])
  }

  ghost predicate UniqueRows(rows: seq<Row>) {
    forall i, j :: 0 <= i < j < |rows| ==> (rows[i].sessionId, rows[i].callIndex) != (rows[j].sessionId, rows[j].callIndex)
  }

  lemma {:induction false} UniqueRowsAreCalls(rows: seq<Row>, s: string)
    requires UniqueRows(rows)
    ensures RowsOf(rows, s) == |Calls(rows, s)|
  {
    if rows != [] {
      var front, row := Front(rows), Last(rows);
      UniqueRowsAreCalls(front, s);
      CallsSnoc(front, row, s);
      assert rows == front + [row];
      if row.sessionId == s {
        assert row.callIndex !in Calls(front, s);
      }
    }
  }

  lemma {:induction false} SumOfRowsSnoc(rows: seq<Row>, order: seq<string>)
    requires rows != [] && Distinct(order)
    ensures SumOfRows(rows, order) == SumOfRows(Front(rows), order) + if Last(rows).sessionId in order then 1 else 0
  {
    if order != [] {
      assert forall j :: 1 <= j < |order| ==> order[0] != order[j];
      SumOfRowsSnoc(rows, order[1..]);
      assert order == [order[0]] + order[1..];
    }
  }

  lemma {:induction false} SumOfRowsIsLength(rows: seq<Row>, order: seq<string>)
    requires Distinct(order) && forall row :: row in rows ==> row.sessionId in order
    ensures SumOfRows(rows, order) == |rows|
  {
    if rows == [] {
      SumOfNoRows(order);
    } else {
      SumOfRowsSnoc(rows, order);
      assert Last(rows) in rows;
      forall row | row in Front(rows) ensures row in rows {}
      SumOfRowsIsLength(Front(rows), order);
    }
  }

  lemma {:induction false} SumOfNoRows(order: seq<string>)
    ensures SumOfRows([], order) == 0
  {
    if order != [] { SumOfNoRows(order[1..]); }
  }

  lemma {:induction false} SumsAgree(rows: seq<Row>, order: seq<string>)
    requires UniqueRows(rows)
    ensures SumOfRows(rows, order) == SumOfLengths(rows, order)
  {
    if order != [] {
      UniqueRowsAreCalls(rows, order[0]);
      SumsAgree(rows, order[1..]);
    }
  }

  /** Accepted rows with unique identities: each session's rows are its calls 0..n-1, once each, and
      the number of rows is the sum of the session lengths. */
  lemma AcceptedRowCount(rows: seq<Row>, order: seq<string>)
    requires UniqueRows(rows) && IsSessionOrder(rows, order)
    requires forall s :: Seen(rows, s) ==> Contiguous(Calls(rows, s))
    ensures |rows| == SumOfLengths(rows, order)
    ensures forall s, k: nat :: s in order ==> (k < RowsOf(rows, s) <==> k in Calls(rows, s))
  {
    forall row | row in rows ensures row.sessionId in order { assert Seen(rows, row.sessionId); }
    SumOfRowsIsLength(rows, order);
    SumsAgree(rows, order);
    forall s, k: nat | s in order ensures k < RowsOf(rows, s) <==> k in Calls(rows, s) {
      UniqueRowsAreCalls(rows, s);
      assert Contiguous(Calls(rows, s));
    }
  }
}
