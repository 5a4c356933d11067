// Values and set sizes every module uses.
module Prelude {
  datatype Option<+T> = None | Some(value: T)

  function One(b: bool): int { if b then 1 else 0 }

  lemma SwapOne<T>(before: set<T>, after: set<T>, p: T)
    requires before - {p} == after - {p}
    ensures |after| == |before| - One(p in before) + One(p in after)
  {
    assert p in before ==> before == (before - {p}) + {p};
    assert p !in before ==> before == before - {p};
    assert p in after ==> after == (after - {p}) + {p};
    assert p !in after ==> after == after - {p};
  }

  lemma {:induction false} SubsetSize<T>(a: set<T>, b: set<T>)
    requires a <= b
    ensures |a| <= |b|
  {
    assert b == a + (b - a);
  }
}
