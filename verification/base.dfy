/** Small types and facts shared by every other module. */
module Base {

  datatype Option<+T> = None | Some(value: T)

  datatype Result<+T, +E> = Ok(value: T) | Err(error: E)

  function One(b: bool): (n: nat) { if b then 1 else 0 }

  /** What a header value may hold: visible ASCII and the tab. */
  predicate HeaderCode(n: int) { n == 9 || 32 <= n < 127 }

  /** When only `k` may enter or leave, the size moves by that element alone. */
  lemma SizeMoves<T>(a: set<T>, b: set<T>, k: T)
    requires forall d :: d != k ==> (d in a <==> d in b)
    ensures |b| - (if k in b then 1 else 0) == |a| - (if k in a then 1 else 0)
  {
    assert a - {k} == b - {k};
    assert |a - {k}| == |a| - (if k in a then 1 else 0);
    assert |b - {k}| == |b| - (if k in b then 1 else 0);
  }

  /** A subset is no larger, and a proper one is smaller. */
  lemma SubsetSize<T>(a: set<T>, b: set<T>)
    requires a <= b
    ensures |a| <= |b| && (a != b ==> |a| < |b|)
  {
    assert b == a + (b - a);
    if a != b {
      var x :| x in b && x !in a;
      assert x in b - a;
    }
  }
}
