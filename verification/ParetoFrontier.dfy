/** The cost/goodput frontier of the design-space sweep (serving/hbf_design_space_sweep.py). */
module ParetoFrontier {
  import opened Sets
  import opened Sorting
  import opened Wrappers

  datatype Point = Point(goodput: real, cost: real)

  /** One (key, pair) item of the mapping the caller passes, in its iteration order. */
  datatype Entry = Entry(key: string, point: Point) {
    predicate Valid() { key != [] && point.goodput > 0.0 && point.cost > 0.0 }
  }

  predicate Dominates(p: Point, q: Point) {
    p.goodput >= q.goodput && p.cost <= q.cost && (p.goodput > q.goodput || p.cost < q.cost)
  }

  /** A point that is at least as good in both respects and is not the same point dominates. */
  lemma DominatesExactly(p: Point, q: Point)
    ensures Dominates(p, q) <==> p != q && p.goodput >= q.goodput && q.cost >= p.cost
  {}

  predicate Dominated(m: map<string, Point>, key: string)
    requires key in m
  {
    exists other :: other in m && other != key && Dominates(m[other], m[key])
  }

  /** The mapping behind a list of items. */
  function AsMap(points: seq<Entry>): map<string, Point> {
    if points == [] then map[]
    else AsMap(points[..|points| - 1])[points[|points| - 1].key := points[|points| - 1].point]
  }

  function At(m: map<string, Point>, key: string): Point {
    if key in m then m[key] else Point(0.0, 0.0)
  }

  /** The sort key (cost, -goodput, key). */
  predicate KeyLe(m: map<string, Point>, a: string, b: string) {
    var p, q := At(m, a), At(m, b);
    p.cost < q.cost
    || (p.cost == q.cost && (p.goodput > q.goodput || (p.goodput == q.goodput && LexLe(a, b))))
  }

  function Order(m: map<string, Point>): (string, string) -> bool {
    (a, b) => KeyLe(m, a, b)
  }

  lemma OrderIsTotal(m: map<string, Point>)
    ensures TotalOrder(Order(m))
  {
    forall x: string, y: string ensures Order(m)(x, y) || Order(m)(y, x) { LexTotal(x, y); }
    forall x: string, y: string | Order(m)(x, y) && Order(m)(y, x) ensures x == y { LexAntisymmetric(x, y); }
    forall x: string, y: string, z: string | Order(m)(x, y) && Order(m)(y, z) ensures Order(m)(x, z) {
      if LexLe(x, y) && LexLe(y, z) { LexTransitive(x, y, z); }
    }
  }

  /** The keys left are the nondominated ones, each once, in the order of the sort key. */
  ghost predicate IsFrontier(m: map<string, Point>, keys: seq<string>) {
    && (forall k :: k in keys <==> k in m && !Dominated(m, k))
    && Distinct(keys)
    && Sorted(Order(m), keys)
  }

  /** Nondominated keys; rejects empty keys and non-positive coordinates. */
  method Frontier(points: seq<Entry>) returns (r: Result<seq<string>>)
    requires forall i, j :: 0 <= i < j < |points| ==> points[i].key != points[j].key
    ensures r.Ok? <==> forall e :: e in points ==> e.key != "" && e.point.goodput > 0.0 && e.point.cost > 0.0
    ensures r.Ok? ==> IsFrontier(AsMap(points), r.value)
  {
    var normalized: map<string, Point> := map[];
    for i := 0 to |points|
      invariant normalized == AsMap(points[..i])
      invariant forall j :: 0 <= j < i ==> points[j].Valid()
    {
      if !points[i].Valid() {
        assert points[i] in points;
        return Err("invalid Pareto point");
      }
      assert points[..i + 1][..i] == points[..i];
      normalized := normalized[points[i].key := points[i].point];
    }
    assert points[..|points|] == points;
    var frontier: seq<string> := [];
    for i := 0 to |points|
      invariant forall k :: k in frontier <==> (exists j :: 0 <= j < i && points[j].key == k && k in normalized && !Dominated(normalized, k))
      invariant Distinct(frontier)
    {
      var key := points[i].key;
      AsMapHas(points, i);
      var dominated := exists other | other in normalized :: other != key && Dominates(normalized[other], normalized[key]);
      if !dominated {
        assert key !in frontier;
        frontier := frontier + [key];
      }
    }
    forall k | k in normalized && !Dominated(normalized, k) ensures k in frontier {
      var j := AsMapKey(points, k);
    }
    OrderIsTotal(normalized);
    SortSorts(Order(normalized), frontier);
    DistinctSort(Order(normalized), frontier);
    forall k ensures k in Sort(Order(normalized), frontier) <==> k in frontier {
      SortMembers(Order(normalized), frontier, k);
    }
    r := Ok(Sort(Order(normalized), frontier));
  }

  lemma {:induction false} AsMapHas(points: seq<Entry>, i: nat)
    requires i < |points|
    requires forall i, j :: 0 <= i < j < |points| ==> points[i].key != points[j].key
    ensures points[i].key in AsMap(points) && AsMap(points)[points[i].key] == points[i].point
  {
    var n := |points| - 1;
    if i < n {
      AsMapHas(points[..n], i);
    }
  }

  lemma {:induction false} AsMapKey(points: seq<Entry>, k: string) returns (i: nat)
    requires k in AsMap(points)
    ensures i < |points| && points[i].key == k
  {
    var n := |points| - 1;
    if points[n].key == k {
      i := n;
    } else {
      i := AsMapKey(points[..n], k);
    }
  }

  // ---------------------------------------------------------------- what a frontier is

  /** Every excluded key is dominated by some returned key, not just by some key. */
  lemma {:induction false} ExcludedIsDominatedByFrontier(m: map<string, Point>, keys: seq<string>, k: string)
    returns (f: string)
    requires IsFrontier(m, keys) && k in m && k !in keys
    ensures f in keys && f in m && Dominates(m[f], m[k])
    decreases |set x | x in m && Dominates(m[x], m[k])|
  {
    var d :| d in m && d != k && Dominates(m[d], m[k]);
    if d in keys {
      f := d;
    } else {
      var above, below := set x | x in m && Dominates(m[x], m[d]), set x | x in m && Dominates(m[x], m[k]);
      assert d in below && d !in above;
      assert above <= below;
      SubsetCardinality(above, below);
      f := ExcludedIsDominatedByFrontier(m, keys, d);
    }
  }

  /** Along the frontier cost and goodput rise together; equal cost only at equal goodput, and then the
      keys are in order. */
  lemma FrontierIsMonotone(m: map<string, Point>, keys: seq<string>, i: nat, j: nat)
    requires IsFrontier(m, keys) && i < j < |keys|
    ensures keys[i] in m && keys[j] in m
    ensures m[keys[i]].cost <= m[keys[j]].cost && m[keys[i]].goodput <= m[keys[j]].goodput
    ensures m[keys[i]].cost == m[keys[j]].cost <==> m[keys[i]].goodput == m[keys[j]].goodput
    ensures m[keys[i]] == m[keys[j]] ==> LexLe(keys[i], keys[j]) && keys[i] != keys[j]
  {
    var a, b := keys[i], keys[j];
    assert a in keys && b in keys;
    assert Order(m)(a, b);
    assert a != b;
    assert !Dominates(m[a], m[b]) && !Dominates(m[b], m[a]);
  }

  /** The frontier of a mapping is unique, so it does not depend on the iteration order. */
  lemma FrontierIsUnique(m: map<string, Point>, a: seq<string>, b: seq<string>)
    requires IsFrontier(m, a) && IsFrontier(m, b)
    ensures a == b
  {
    DistinctSameSet(a, b);
    OrderIsTotal(m);
    SortedIsUnique(Order(m), a, b);
  }

  /** A nonempty mapping has a nonempty frontier. */
  lemma FrontierOfNonempty(m: map<string, Point>, keys: seq<string>)
    requires IsFrontier(m, keys) && m != map[]
    ensures keys != []
  {
    var k :| k in m;
    if k !in keys {
      var f := ExcludedIsDominatedByFrontier(m, keys, k);
    }
  }
}
