/** Cardinalities of sets. */
module Sets {

  /** A subset has no more elements, and as many only if it is the whole set. */
  lemma {:induction false} SubsetCardinality<T>(a: set<T>, b: set<T>)
    requires a <= b
    ensures |a| <= |b| && (|a| == |b| <==> a == b)
  {
    if a == {} {
      if b != {} { var x :| x in b; assert |b| == |b - {x}| + 1; }
    } else {
      var x :| x in a;
      SubsetCardinality(a - {x}, b - {x});
      assert a == (a - {x}) + {x} && b == (b - {x}) + {x};
    }
  }
}
