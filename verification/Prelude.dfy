/** Small datatypes and arithmetic shared by the other modules. */
module Prelude {

  datatype Option<+T> = None | Some(value: T)

  ghost predicate Distinct<T>(s: seq<T>)
  {
    forall i, j | 0 <= i < j < |s| :: s[i] != s[j]
  }

  function Max(a: int, b: int): int { if a < b then b else a }

  function Min(a: int, b: int): int { if a < b then a else b }

  function MaxReal(a: real, b: real): real { if a < b then b else a }

  function MinReal(a: real, b: real): real { if a < b then a else b }

  lemma MulNat(a: nat, b: nat)
    ensures 0 <= a * b
  {
  }

  lemma {:induction false} Subset<T>(a: set<T>, b: set<T>)
    requires a <= b
    ensures |a| <= |b|
    ensures a != b ==> |a| < |b|
  {
    if a == {} {
      assert b != {} ==> |b| > 0;
    } else {
      var x :| x in a;
      Subset(a - {x}, b - {x});
      assert a == b <==> a - {x} == b - {x};
    }
  }

  lemma Overwritten<K, V>(m: map<K, V>, k: K, a: V, b: V)
    ensures m[k := a][k := b] == m[k := b] && m[k := a] - {k} == m - {k}
    ensures k !in m ==> m[k := a] - {k} == m
  {
  }

  /** A product of reals under a name, so that it is taken apart only where a proof needs it. */
  function Times(a: real, b: real): real { a * b }

  /** What accrues at `rate` over `elapsed`. */
  function Accrued(rate: real, elapsed: real): real { rate * elapsed }

  lemma AccruedNonNegative(rate: real, elapsed: real)
    requires rate >= 0.0 && elapsed >= 0.0
    ensures Accrued(rate, elapsed) >= 0.0
  {
  }

  lemma AccruedSplit(rate: real, a: real, b: real, c: real)
    ensures Accrued(rate, b - a) + Accrued(rate, c - b) == Accrued(rate, c - a)
  {
  }
}
