/** Selection of the tied best causal policies (serving/hbf_direct_policy_plots.py).

  Goodput means are reals; two means tie when math.isclose says so under a relative and an
  absolute tolerance of 1e-12.
 */
module TieSelection {
  import opened Wrappers

  const REL_TOL: real := 0.000000000001
  const ABS_TOL: real := 0.000000000001

  function Abs(x: real): real { if x < 0.0 then -x else x }

  function MaxReal(x: real, y: real): real { if x < y then y else x }

  /** math.isclose with the two tolerances. */
  predicate SameFloat(a: real, b: real) {
    a == b || Abs(a - b) <= MaxReal(REL_TOL * MaxReal(Abs(a), Abs(b)), ABS_TOL)
  }

  /** A tie with a far mean is a tie with everything in between, for means of any sign. */
  lemma TieCoversBetween(low: real, middle: real, high: real)
    requires low <= middle <= high && SameFloat(low, high)
    ensures SameFloat(low, middle) && SameFloat(middle, high)
  {}

  datatype Candidate = Candidate(key: string, mode: string, futureLooking: bool, mean: real)

  /** The causal candidates of one read mode, in roster order. */
  function Causal(candidates: seq<Candidate>, mode: string): (r: seq<Candidate>)
    ensures forall c :: c in r <==> c in candidates && c.mode == mode && !c.futureLooking
  {
    if candidates == [] then []
    else
      var c := candidates[0];
      (if c.mode == mode && !c.futureLooking then [c] else []) + Causal(candidates[1..], mode)
  }

  function BestMean(candidates: seq<Candidate>): (r: real)
    requires candidates != []
    ensures exists c :: c in candidates && c.mean == r
    ensures forall c :: c in candidates ==> c.mean <= r
  {
    if |candidates| == 1 then candidates[0].mean
    else MaxReal(candidates[0].mean, BestMean(candidates[1..]))
  }

  predicate Beats(other: real, mean: real) {
    other > mean && !SameFloat(other, mean)
  }

  function BeatenBy(candidates: seq<Candidate>, mean: real): nat {
    if candidates == [] then 0
    else (if Beats(candidates[0].mean, mean) then 1 else 0) + BeatenBy(candidates[1..], mean)
  }

  /** Competition rank: one more than the number of candidates strictly ahead. */
  function Rank(candidates: seq<Candidate>, mean: real): nat {
    1 + BeatenBy(candidates, mean)
  }

  datatype Selection = Selection(
    selected: set<string>, best: map<string, real>, ranks: map<string, nat>)

  predicate UniqueKeys(candidates: seq<Candidate>) {
    forall c, d :: c in candidates && d in candidates && c.key == d.key ==> c == d
  }

  /** What the selection says about one candidate once its read mode has been handled. */
  ghost predicate Classified(all: seq<Candidate>, c: Candidate, s: Selection, handled: bool) {
    if c.futureLooking || !handled then c.key !in s.selected && c.key !in s.ranks
    else
      && c.mode in s.best
      && c in Causal(all, c.mode)
      && s.best[c.mode] == BestMean(Causal(all, c.mode))
      && (c.key in s.selected <==> SameFloat(c.mean, s.best[c.mode]))
      && c.key in s.ranks && s.ranks[c.key] == Rank(Causal(all, c.mode), c.mean)
  }

  /** Add the tied best keys of one read mode, and the rank of each of its causal candidates. */
  method ClassifyMode(causal: seq<Candidate>, selected0: set<string>, ranks0: map<string, nat>)
    returns (selected: set<string>, ranks: map<string, nat>)
    requires causal != []
    requires UniqueKeys(causal)
    requires forall c :: c in causal ==> c.key !in selected0 && c.key !in ranks0
    ensures forall c :: c in causal ==>
      && (c.key in selected <==> SameFloat(c.mean, BestMean(causal)))
      && c.key in ranks && ranks[c.key] == Rank(causal, c.mean)
    ensures Extends(causal, selected0, selected, ranks0, ranks)
  {
    var bestMean := BestMean(causal);
    selected := selected0 + set c | c in causal && SameFloat(c.mean, bestMean) :: c.key;
    ranks := RankAll(causal, ranks0);
    forall c | c in causal && c.key in selected ensures SameFloat(c.mean, bestMean) {
      var d :| d in causal && SameFloat(d.mean, bestMean) && d.key == c.key;
    }
  }

  method RankAll(causal: seq<Candidate>, ranks0: map<string, nat>) returns (ranks: map<string, nat>)
    requires UniqueKeys(causal)
    ensures forall c :: c in causal ==> c.key in ranks && ranks[c.key] == Rank(causal, c.mean)
    ensures forall key :: key in ranks ==> key in ranks0 || exists c :: c in causal && c.key == key
    ensures forall key :: key in ranks0 ==> key in ranks
    ensures forall key :: key in ranks0 && (forall c :: c in causal ==> c.key != key) ==> ranks[key] == ranks0[key]
  {
    ranks := ranks0;
    for k := 0 to |causal|
      invariant forall j :: 0 <= j < k ==> causal[j].key in ranks && ranks[causal[j].key] == Rank(causal, causal[j].mean)
      invariant forall key :: key in ranks ==> key in ranks0 || exists c :: c in causal && c.key == key
      invariant forall key :: key in ranks0 ==> key in ranks
      invariant forall key :: key in ranks0 && (forall c :: c in causal ==> c.key != key) ==> ranks[key] == ranks0[key]
    {
      var candidate := causal[k];
      assert candidate in causal;
      ranks := ranks[candidate.key := Rank(causal, candidate.mean)];
      forall j | 0 <= j <= k ensures ranks[causal[j].key] == Rank(causal, causal[j].mean) {
        assert causal[j] in causal;
      }
    }
  }

  ghost predicate Ranked(causal: seq<Candidate>, c: Candidate, bestMean: real, selected: set<string>, ranks: map<string, nat>) {
    (c.key in selected <==> SameFloat(c.mean, bestMean)) && c.key in ranks && ranks[c.key] == Rank(causal, c.mean)
  }

  /** Only keys of these candidates were added. */
  ghost predicate Extends(causal: seq<Candidate>, selected0: set<string>, selected: set<string>, ranks0: map<string, nat>, ranks: map<string, nat>) {
    && selected0 <= selected
    && (forall key :: key in selected && key !in selected0 ==> exists c :: c in causal && c.key == key)
    && (forall key :: key in ranks && key !in ranks0 ==> exists c :: c in causal && c.key == key)
    && (forall key :: key in ranks0 && (forall c :: c in causal ==> c.key != key) ==> key in ranks && ranks[key] == ranks0[key])
  }

  /** Select every tied best causal policy, independently per read mode. */
  method SelectDirectPolicies(candidates: seq<Candidate>, modes: seq<string>) returns (r: Result<Selection>)
    requires UniqueKeys(candidates)
    requires forall i, j :: 0 <= i < j < |modes| ==> modes[i] != modes[j]
    ensures r.Ok? <==> forall mode :: mode in modes ==> Causal(candidates, mode) != []
    ensures r.Ok? ==> forall c :: c in candidates ==> Classified(candidates, c, r.value, c.mode in modes)
    ensures r.Ok? ==> r.value.best.Keys == set mode | mode in modes
    ensures r.Ok? ==> forall c :: c in candidates && !c.futureLooking && c.mode in modes ==>
      c.key in r.value.ranks
      && r.value.ranks[c.key] == 1 + |set i | 0 <= i < |candidates| && candidates[i].mode == c.mode && !candidates[i].futureLooking
                                            && candidates[i].mean > c.mean && !SameFloat(candidates[i].mean, c.mean)|
  {
    hide UniqueKeys, Classified, BestMean, Rank, SameFloat, Causal, Extends;
    var selected: set<string>, best: map<string, real>, ranks: map<string, nat> := {}, map[], map[];
    NothingClassified(candidates);
    for i := 0 to |modes|
      invariant forall mode :: mode in modes[..i] ==> Causal(candidates, mode) != []
      invariant best.Keys == set mode | mode in modes[..i]
      invariant AllClassified(candidates, Selection(selected, best, ranks), modes[..i])
    {
      var mode := modes[i];
      var causal := Causal(candidates, mode);
      if causal == [] {
        assert mode in modes;
        return Err("no causal candidates for read mode");
      }
      ghost var before := Selection(selected, best, ranks);
      assert mode !in modes[..i];
      FreshKeys(candidates, mode, before, modes[..i]);
      selected, ranks := ClassifyMode(causal, selected, ranks);
      best := best[mode := BestMean(causal)];
      assert modes[..i + 1] == modes[..i] + [mode];
      ModeClassified(candidates, mode, before, Selection(selected, best, ranks), modes[..i]);
    }
    assert modes[..|modes|] == modes;
    RanksCount(candidates, Selection(selected, best, ranks), modes);
    r := Ok(Selection(selected, best, ranks));
  }

  lemma RanksCount(all: seq<Candidate>, s: Selection, handled: seq<string>)
    requires AllClassified(all, s, handled)
    ensures forall c :: c in all && !c.futureLooking && c.mode in handled ==>
      c.key in s.ranks
      && s.ranks[c.key] == 1 + |set i | 0 <= i < |all| && all[i].mode == c.mode && !all[i].futureLooking
                                      && all[i].mean > c.mean && !SameFloat(all[i].mean, c.mean)|
  {
    forall c | c in all && !c.futureLooking && c.mode in handled
      ensures c.key in s.ranks
        && s.ranks[c.key] == 1 + |set i | 0 <= i < |all| && all[i].mode == c.mode && !all[i].futureLooking
                                        && all[i].mean > c.mean && !SameFloat(all[i].mean, c.mean)| {
      RankCounts(all, c.mode, c.mean);
    }
    hide Causal, Rank, SameFloat, BestMean;
  }

  ghost predicate AllClassified(all: seq<Candidate>, s: Selection, handled: seq<string>) {
    forall c :: c in all ==> Classified(all, c, s, c.mode in handled)
  }

  lemma NothingClassified(all: seq<Candidate>)
    ensures AllClassified(all, Selection({}, map[], map[]), [])
  {}

  lemma FreshKeys(all: seq<Candidate>, mode: string, s: Selection, handled: seq<string>)
    requires UniqueKeys(all) && AllClassified(all, s, handled) && mode !in handled
    ensures UniqueKeys(Causal(all, mode))
    ensures forall c :: c in Causal(all, mode) ==> c.key !in s.selected && c.key !in s.ranks
  {
    hide Causal;
    forall c | c in Causal(all, mode) ensures c.key !in s.selected && c.key !in s.ranks {
      assert Classified(all, c, s, false);
    }
  }

  lemma ModeClassified(all: seq<Candidate>, mode: string, s0: Selection, s: Selection, handled: seq<string>)
    requires UniqueKeys(all) && mode !in handled && Causal(all, mode) != []
    requires AllClassified(all, s0, handled)
    requires s.best == s0.best[mode := BestMean(Causal(all, mode))]
    requires Extends(Causal(all, mode), s0.selected, s.selected, s0.ranks, s.ranks)
    requires forall d :: d in Causal(all, mode) ==> Ranked(Causal(all, mode), d, BestMean(Causal(all, mode)), s.selected, s.ranks)
    ensures AllClassified(all, s, handled + [mode])
  {
    hide UniqueKeys, Classified, BestMean, Causal, Extends, Ranked;
    forall c | c in all ensures Classified(all, c, s, c.mode in handled + [mode]) {
      StaysClassified(all, c, mode, s0, s, handled);
    }
  }

  lemma StaysClassified(all: seq<Candidate>, c: Candidate, mode: string, s0: Selection, s: Selection, handled: seq<string>)
    requires UniqueKeys(all) && c in all && mode !in handled && Causal(all, mode) != []
    requires Classified(all, c, s0, c.mode in handled)
    requires s.best == s0.best[mode := BestMean(Causal(all, mode))]
    requires Extends(Causal(all, mode), s0.selected, s.selected, s0.ranks, s.ranks)
    requires forall d :: d in Causal(all, mode) ==> Ranked(Causal(all, mode), d, BestMean(Causal(all, mode)), s.selected, s.ranks)
    ensures Classified(all, c, s, c.mode in handled + [mode])
  {
    var causal := Causal(all, mode);
    if c !in causal {
      forall d | d in causal ensures d.key != c.key {}
    }
  }

  // ---------------------------------------------------------------- what a rank counts

  lemma {:induction false} BeatenBySplit(a: seq<Candidate>, b: seq<Candidate>, mean: real)
    ensures BeatenBy(a + b, mean) == BeatenBy(a, mean) + BeatenBy(b, mean)
  {
    if a == [] {
      assert a + b == b;
    } else {
      BeatenBySplit(a[1..], b, mean);
      assert (a + b)[1..] == a[1..] + b;
    }
  }

  lemma {:induction false} CausalSplit(a: seq<Candidate>, b: seq<Candidate>, mode: string)
    ensures Causal(a + b, mode) == Causal(a, mode) + Causal(b, mode)
  {
    hide Causal;
    CausalNone(mode);
    if a == [] {
      assert a + b == b && [] + Causal(b, mode) == Causal(b, mode);
    } else {
      CausalSplit(a[1..], b, mode);
      assert (a + b)[0] == a[0] && (a + b)[1..] == a[1..] + b;
      CausalHead(a, mode);
      CausalHead(a + b, mode);
      Associates(if a[0].mode == mode && !a[0].futureLooking then [a[0]] else [], Causal(a[1..], mode), Causal(b, mode));
    }
  }

  lemma Associates(x: seq<Candidate>, y: seq<Candidate>, z: seq<Candidate>)
    ensures x + (y + z) == (x + y) + z
  {}

  lemma CausalNone(mode: string)
    ensures Causal([], mode) == []
  {}

  lemma CausalHead(s: seq<Candidate>, mode: string)
    requires s != []
    ensures Causal(s, mode) == (if s[0].mode == mode && !s[0].futureLooking then [s[0]] else []) + Causal(s[1..], mode)
  {}

  /** The rank among the causal candidates of a mode is one more than the number of those in the roster whose
      mean is higher and not tied. */
  lemma {:induction false} RankCounts(candidates: seq<Candidate>, mode: string, mean: real)
    ensures Rank(Causal(candidates, mode), mean)
         == 1 + |set i | 0 <= i < |candidates| && candidates[i].mode == mode && !candidates[i].futureLooking
                       && candidates[i].mean > mean && !SameFloat(candidates[i].mean, mean)|
  {
    hide SameFloat, Causal, BeatenBy;
    if candidates == [] {
      NobodyCounts(mode, mean);
    } else {
      var n := |candidates| - 1;
      var front, last := candidates[..n], candidates[n];
      assert candidates == front + [last];
      RankCounts(front, mode, mean);
      CausalSplit(front, [last], mode);
      BeatenBySplit(Causal(front, mode), Causal([last], mode), mean);
      LastCounts(last, mode, mean);
      OneMoreAhead(front, last, mode, mean);
    }
  }

  lemma NobodyCounts(mode: string, mean: real)
    ensures BeatenBy(Causal([], mode), mean) == 0
  {}

  lemma OneMoreAhead(front: seq<Candidate>, last: Candidate, mode: string, mean: real)
    ensures var all := front + [last];
      |set i | 0 <= i < |all| && all[i].mode == mode && !all[i].futureLooking && all[i].mean > mean && !SameFloat(all[i].mean, mean)|
      == |set i | 0 <= i < |front| && front[i].mode == mode && !front[i].futureLooking && front[i].mean > mean && !SameFloat(front[i].mean, mean)|
         + if last.mode == mode && !last.futureLooking && last.mean > mean && !SameFloat(last.mean, mean) then 1 else 0
  {
    hide SameFloat;
    var all, n := front + [last], |front|;
    var ahead := set i | 0 <= i < |all| && all[i].mode == mode && !all[i].futureLooking && all[i].mean > mean && !SameFloat(all[i].mean, mean);
    var before := set i | 0 <= i < |front| && front[i].mode == mode && !front[i].futureLooking && front[i].mean > mean && !SameFloat(front[i].mean, mean);
    assert n !in before;
    assert ahead == if last.mode == mode && !last.futureLooking && last.mean > mean && !SameFloat(last.mean, mean) then before + {n} else before;
  }

  lemma LastCounts(c: Candidate, mode: string, mean: real)
    ensures BeatenBy(Causal([c], mode), mean)
         == if c.mode == mode && !c.futureLooking && c.mean > mean && !SameFloat(c.mean, mean) then 1 else 0
  {
    hide SameFloat;
    assert [c][1..] == [];
  }

  /** The tolerance is one part in 10^12 of the larger magnitude, and 10^-12 for means of magnitude at most 1. */
  lemma ToleranceIs(a: real, b: real)
    ensures -1.0 <= a <= 1.0 && -1.0 <= b <= 1.0 ==> (SameFloat(a, b) <==> -1.0 <= (a - b) * 1000000000000.0 <= 1.0)
    ensures b >= 1.0 && -b <= a <= b ==> (SameFloat(a, b) <==> (b - a) * 1000000000000.0 <= b)
  {}

  // ---------------------------------------------------------------- selection and rank agree

  lemma {:induction false} NobodyAhead(candidates: seq<Candidate>, mean: real)
    ensures BeatenBy(candidates, mean) == 0 <==> forall c :: c in candidates ==> !Beats(c.mean, mean)
  {
    if candidates != [] {
      NobodyAhead(candidates[1..], mean);
      assert candidates == [candidates[0]] + candidates[1..];
    }
  }

  /** A policy is selected exactly when nobody ranks ahead of it. */
  lemma SelectedExactlyWhenFirst(all: seq<Candidate>, c: Candidate, s: Selection)
    requires Classified(all, c, s, true) && !c.futureLooking
    ensures c.key in s.selected <==> s.ranks[c.key] == 1
  {
    var causal := Causal(all, c.mode);
    var best := BestMean(causal);
    NobodyAhead(causal, c.mean);
    var b :| b in causal && b.mean == best;
    if SameFloat(c.mean, best) {
      forall o | o in causal ensures !Beats(o.mean, c.mean) {
        if o.mean > c.mean { TieCoversBetween(c.mean, o.mean, best); }
      }
    } else {
      assert Beats(b.mean, c.mean);
    }
  }

  lemma BeatenIsMonotone(other: real, low: real, high: real)
    requires low <= high && Beats(other, high)
    ensures Beats(other, low)
  {
    if SameFloat(other, low) { TieCoversBetween(low, high, other); }
  }

  /** A higher mean never has a worse rank. */
  lemma {:induction false} RankNeverWorsens(candidates: seq<Candidate>, low: real, high: real)
    requires low <= high
    ensures Rank(candidates, high) <= Rank(candidates, low)
  {
    if candidates != [] {
      RankNeverWorsens(candidates[1..], low, high);
      if Beats(candidates[0].mean, high) { BeatenIsMonotone(candidates[0].mean, low, high); }
    }
  }

  /** Every handled read mode selects at least one policy. */
  lemma EveryModeSelectsSome(all: seq<Candidate>, mode: string, s: Selection) returns (c: Candidate)
    requires Causal(all, mode) != []
    requires forall c :: c in all && c.mode == mode ==> Classified(all, c, s, true)
    ensures c in all && c.mode == mode && !c.futureLooking
    ensures c.key in s.selected && c.key in s.ranks && s.ranks[c.key] == 1
  {
    var best := BestMean(Causal(all, mode));
    c :| c in Causal(all, mode) && c.mean == best;
    assert Classified(all, c, s, true);
    SelectedExactlyWhenFirst(all, c, s);
  }

  /** Ties are not transitive: the middle of these three ties with both ends and is selected with
      the best, the lowest ties with it, yet is neither selected nor ranked first. */
  lemma TiesAreNotTransitive()
    ensures var low, middle, high := 0.0, ABS_TOL, 2.0 * ABS_TOL;
      var all := [Candidate("a", "m", false, low), Candidate("b", "m", false, middle), Candidate("c", "m", false, high)];
      && SameFloat(low, middle) && SameFloat(middle, high) && !SameFloat(low, high)
      && Rank(all, middle) == 1 && Rank(all, high) == 1 && Rank(all, low) == 2
  {
    var low, middle, high := 0.0, ABS_TOL, 2.0 * ABS_TOL;
    var a, b, c := Candidate("a", "m", false, low), Candidate("b", "m", false, middle), Candidate("c", "m", false, high);
    forall x | x in [low, middle, high]
      ensures BeatenBy([a, b, c], x) ==
              (if Beats(low, x) then 1 else 0) + (if Beats(middle, x) then 1 else 0) + (if Beats(high, x) then 1 else 0)
    {
      assert [a, b, c][1..] == [b, c] && [b, c][1..] == [c] && [c][1..] == [];
      assert BeatenBy([c], x) == if Beats(high, x) then 1 else 0;
      assert BeatenBy([b, c], x) == (if Beats(middle, x) then 1 else 0) + BeatenBy([c], x);
    }
    assert low in [low, middle, high] && middle in [low, middle, high] && high in [low, middle, high];
  }
}
