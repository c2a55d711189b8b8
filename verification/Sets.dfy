/** Cardinality facts about finite sets. */
module Sets {
  lemma {:induction false} SubsetSize<T>(a: set<T>, b: set<T>)
    requires a <= b
    ensures |a| <= |b|
  {
    if a != {} {
      var x :| x in a;
      SubsetSize(a - {x}, b - {x});
    }
  }

  lemma UnionSize<T>(a: set<T>, b: set<T>)
    ensures |a + b| <= |a| + |b|
  {
    assert a + b == a + (b - a);
    SubsetSize(b - a, b);
  }

  /** Visiting one more of the elements still to do. */
  lemma OneVisited<T>(us: set<T>, todo: set<T>, x: T)
    requires x in todo
    ensures |us - (todo - {x})| == |us - todo| + if x in us then 1 else 0
  {
    if x in us {
      assert us - (todo - {x}) == (us - todo) + {x};
    } else {
      assert us - (todo - {x}) == us - todo;
    }
  }

  function Image<T, U>(m: map<T, U>, a: set<T>): set<U>
    requires a <= m.Keys
  {
    set x | x in a :: m[x]
  }

  /** An injective image is as large as its source. */
  lemma {:induction false} ImageSize<T, U>(m: map<T, U>, a: set<T>)
    requires a <= m.Keys
    requires forall x, y | x in a && y in a && m[x] == m[y] :: x == y
    ensures |Image(m, a)| == |a|
  {
    if a != {} {
      var x :| x in a;
      ImageSize(m, a - {x});
      assert Image(m, a) == Image(m, a - {x}) + {m[x]};
    }
  }
}
