/** Recency order of touched keys: the specification of the LRU cache of EmbeddingCache. */
module Recency {
  import opened Prelude

  /** `s` without the key `k`, among its first `n` elements. */
  function Without<K(==)>(s: seq<K>, n: nat, k: K): (r: seq<K>)
    requires n <= |s|
    ensures |r| <= n && k !in r
    ensures forall x | x in r :: x in s
  {
    if n == 0 then []
    else if s[n - 1] == k then Without(s, n - 1, k)
    else Without(s, n - 1, k) + [s[n - 1]]
  }

  /** `s` with `k` moved, or added, to its end. */
  function ToEnd<K(==)>(s: seq<K>, k: K): seq<K> { Without(s, |s|, k) + [k] }

  function Suffix<K>(s: seq<K>, cap: nat): seq<K>
  {
    if |s| <= cap then s else s[|s| - cap..]
  }

  /** The distinct keys of the first `n` touches, least recently touched first. */
  function ByRecency<K(==)>(touched: seq<K>, n: nat): seq<K>
    requires n <= |touched|
  {
    if n == 0 then [] else ToEnd(ByRecency(touched, n - 1), touched[n - 1])
  }

  lemma {:induction false} WithoutPrefix<K>(p: seq<K>, s: seq<K>, n: nat, k: K)
    requires n <= |p|
    ensures Without(p + s, n, k) == Without(p, n, k)
  {
    if n > 0 {
      WithoutPrefix(p, s, n - 1, k);
    }
  }

  lemma {:induction false} WithoutSplit<K>(p: seq<K>, s: seq<K>, n: nat, k: K)
    requires n <= |s|
    ensures Without(p + s, |p| + n, k) == Without(p, |p|, k) + Without(s, n, k)
  {
    if n == 0 {
      WithoutPrefix(p, s, |p|, k);
    } else {
      WithoutSplit(p, s, n - 1, k);
    }
  }

  lemma {:induction false} WithoutAbsent<K>(s: seq<K>, n: nat, k: K)
    requires n <= |s| && k !in s[..n]
    ensures Without(s, n, k) == s[..n]
  {
    if n > 0 {
      assert s[..n] == s[..n - 1] + [s[n - 1]];
      WithoutAbsent(s, n - 1, k);
    }
  }

  lemma {:induction false} WithoutFrom<K>(s: seq<K>, n: nat, k: K)
    requires n <= |s|
    ensures forall x | x in Without(s, n, k) :: x in s[..n]
  {
    if n > 0 {
      WithoutFrom(s, n - 1, k);
    }
  }

  lemma {:induction false} WithoutDistinct<K>(s: seq<K>, n: nat, k: K)
    requires Distinct(s) && n <= |s|
    ensures Distinct(Without(s, n, k))
    ensures forall x :: x in Without(s, n, k) <==> x in s[..n] && x != k
    ensures |Without(s, n, k)| == if k in s[..n] then n - 1 else n
  {
    if n > 0 {
      assert s[..n] == s[..n - 1] + [s[n - 1]];
      WithoutDistinct(s, n - 1, k);
      assert s[n - 1] !in s[..n - 1];
      var before := Without(s, n - 1, k);
      assert s[n - 1] !in before;
      assert forall i | 0 <= i < |before| :: before[i] in before;
    }
  }

  lemma WithoutNothing<K>(s: seq<K>, k: K)
    requires k !in s
    ensures Without(s, |s|, k) == s
  {
    assert s[..|s|] == s;
    WithoutAbsent(s, |s|, k);
  }

  lemma Assoc<K>(a: seq<K>, b: seq<K>, c: seq<K>)
    ensures (a + b) + c == a + (b + c)
  {
  }

  lemma WithoutConcat<K>(p: seq<K>, s: seq<K>, k: K)
    ensures Without(p + s, |p + s|, k) == Without(p, |p|, k) + Without(s, |s|, k)
  {
    assert |p + s| == |p| + |s|;
    WithoutSplit(p, s, |s|, k);
  }

  lemma TouchInside<K>(p: seq<K>, s: seq<K>, k: K)
    requires k !in p
    ensures ToEnd(p + s, k) == p + ToEnd(s, k)
  {
    WithoutConcat(p, s, k);
    WithoutNothing(p, k);
    Assoc(p, Without(s, |s|, k), [k]);
  }

  lemma TouchOutside<K>(p: seq<K>, s: seq<K>, k: K)
    requires k !in s
    ensures ToEnd(p + s, k) == Without(p, |p|, k) + (s + [k])
  {
    var w := Without(p, |p|, k);
    assert Without(p + s, |p + s|, k) == w + s by {
      WithoutConcat(p, s, k);
      WithoutNothing(s, k);
    }
    Assoc(w, s, [k]);
  }

  lemma TouchKept<K>(p: seq<K>, s: seq<K>, cap: nat, k: K)
    requires Distinct(p + s) && |s| <= cap && (p == [] || |s| == cap) && k in s
    ensures Suffix(ToEnd(p + s, k), cap) == ToEnd(s, k)
  {
    DistinctSplit(p, s, k);
    TouchInside(p, s, k);
    assert s[..|s|] == s;
    WithoutDistinct(s, |s|, k);
  }

  lemma TouchNew<K>(p: seq<K>, s: seq<K>, cap: nat, k: K)
    requires (p == [] || |s| == cap) && k !in s
    ensures Suffix(ToEnd(p + s, k), cap) == Suffix(s + [k], cap)
  {
    TouchOutside(p, s, k);
  }

  /** Touching a key in an LRU list of capacity `cap`, stated on the whole recency order. */
  lemma TouchSuffix<K>(r: seq<K>, cap: nat, k: K)
    requires Distinct(r)
    ensures var s := Suffix(r, cap);
            Suffix(ToEnd(r, k), cap) == if k in s then ToEnd(s, k) else Suffix(s + [k], cap)
  {
    var s := Suffix(r, cap);
    var p := r[..|r| - |s|];
    assert r == p + s;
    if k in s {
      TouchKept(p, s, cap, k);
    } else {
      TouchNew(p, s, cap, k);
    }
  }

  lemma DistinctSplit<K>(p: seq<K>, s: seq<K>, k: K)
    requires Distinct(p + s)
    ensures Distinct(s) && !(k in p && k in s)
  {
    var r := p + s;
    assert forall i | 0 <= i < |s| :: s[i] == r[|p| + i];
    assert forall i | 0 <= i < |p| :: p[i] == r[i];
  }

  // ----- what recency order means -----

  /** The index of the last touch of `k` among the first `n`, or -1. */
  function LastTouch<K(==)>(touched: seq<K>, n: nat, k: K): (i: int)
    requires n <= |touched|
    ensures -1 <= i < n
    ensures i >= 0 ==> touched[i] == k
    ensures forall j | i < j < n :: touched[j] != k
  {
    if n == 0 then -1 else if touched[n - 1] == k then n - 1 else LastTouch(touched, n - 1, k)
  }

  ghost predicate Increasing<K>(touched: seq<K>, n: nat, s: seq<K>)
    requires n <= |touched|
  {
    forall i, j | 0 <= i < j < |s| :: LastTouch(touched, n, s[i]) < LastTouch(touched, n, s[j])
  }

  /** `ByRecency` lists every touched key once, in the order of its last touch. */
  lemma {:induction false} ByRecencyIsRecency<K>(touched: seq<K>, n: nat)
    requires n <= |touched|
    ensures var r := ByRecency(touched, n);
            && Distinct(r)
            && (forall k :: k in r <==> k in touched[..n])
            && Increasing(touched, n, r)
  {
    if n > 0 {
      var k, before := touched[n - 1], ByRecency(touched, n - 1);
      assert touched[..n] == touched[..n - 1] + [k];
      ByRecencyIsRecency(touched, n - 1);
      WithoutIncreasing(touched, n, before, |before|);
      WithoutDistinct(before, |before|, k);
      assert before[..|before|] == before;
    }
  }

  lemma {:induction false} WithoutIncreasing<K>(touched: seq<K>, n: nat, before: seq<K>, m: nat)
    requires 0 < n <= |touched| && m <= |before| && Increasing(touched, n - 1, before)
    ensures Increasing(touched, n, Without(before, m, touched[n - 1]))
  {
    if m > 0 {
      var k, last := touched[n - 1], before[m - 1];
      var w := Without(before, m - 1, k);
      WithoutIncreasing(touched, n, before, m - 1);
      WithoutFrom(before, m - 1, k);
      if last != k {
        forall i | 0 <= i < |w| ensures LastTouch(touched, n, w[i]) < LastTouch(touched, n, last) {
          assert w[i] in before[..m - 1];
          var j :| 0 <= j < m - 1 && before[j] == w[i];
          assert w[i] in w && LastTouch(touched, n - 1, before[j]) < LastTouch(touched, n - 1, last);
        }
      }
    }
  }

  lemma {:induction false} ByRecencyPrefix<K>(touched: seq<K>, k: K, n: nat)
    requires n <= |touched|
    ensures ByRecency(touched + [k], n) == ByRecency(touched, n)
  {
    if n > 0 {
      ByRecencyPrefix(touched, k, n - 1);
    }
  }

  /** The `cap` most recently touched keys, least recent first. */
  function MostRecent<K(==)>(touched: seq<K>, cap: nat): seq<K>
  {
    Suffix(ByRecency(touched, |touched|), cap)
  }

  lemma MostRecentDistinct<K>(touched: seq<K>, cap: nat)
    ensures Distinct(MostRecent(touched, cap)) && |MostRecent(touched, cap)| <= cap
  {
    ByRecencyIsRecency(touched, |touched|);
  }

  /** Touching a key extends the history; an LRU list follows by moving the key or appending it. */
  lemma TouchExtends<K>(touched: seq<K>, cap: nat, k: K)
    ensures var s := MostRecent(touched, cap);
            MostRecent(touched + [k], cap) == if k in s then ToEnd(s, k) else Suffix(s + [k], cap)
  {
    ByRecencyIsRecency(touched, |touched|);
    ByRecencyPrefix(touched, k, |touched|);
    TouchSuffix(ByRecency(touched, |touched|), cap, k);
  }

  lemma ToEndKeeps<K>(s: seq<K>, k: K)
    requires Distinct(s) && k in s
    ensures forall x :: x in ToEnd(s, k) <==> x in s
  {
    assert s[..|s|] == s;
    WithoutDistinct(s, |s|, k);
  }

  lemma PrefixOlder<K>(touched: seq<K>, n: nat, p: seq<K>, s: seq<K>, k: K, i: nat)
    requires n <= |touched| && Increasing(touched, n, p + s) && k in p && i < |s|
    ensures LastTouch(touched, n, k) < LastTouch(touched, n, s[i])
  {
    var j :| 0 <= j < |p| && p[j] == k;
    assert (p + s)[j] == k && (p + s)[|p| + i] == s[i];
  }

  lemma SuffixIncreasing<K>(touched: seq<K>, n: nat, p: seq<K>, s: seq<K>)
    requires n <= |touched| && Increasing(touched, n, p + s)
    ensures Increasing(touched, n, s)
  {
    assert forall i | 0 <= i < |s| :: (p + s)[|p| + i] == s[i];
  }

  lemma SplitMostRecent<K>(touched: seq<K>, cap: nat) returns (p: seq<K>)
    ensures ByRecency(touched, |touched|) == p + MostRecent(touched, cap)
    ensures p == [] || |MostRecent(touched, cap)| == cap
  {
    var all := ByRecency(touched, |touched|);
    p := all[..|all| - |MostRecent(touched, cap)|];
  }

  lemma ListedKeys<K>(touched: seq<K>, k: K)
    ensures k in ByRecency(touched, |touched|) <==> k in touched
  {
    ByRecencyIsRecency(touched, |touched|);
    assert touched[..|touched|] == touched;
  }

  /** `MostRecent` lists touched keys in the order of their last touches. */
  lemma MostRecentInOrder<K>(touched: seq<K>, cap: nat)
    ensures Increasing(touched, |touched|, MostRecent(touched, cap))
  {
    ByRecencyIsRecency(touched, |touched|);
    var p := SplitMostRecent(touched, cap);
    SuffixIncreasing(touched, |touched|, p, MostRecent(touched, cap));
  }

  /** It lists only touched keys, and all of them if they fit. */
  lemma MostRecentLists<K>(touched: seq<K>, cap: nat, k: K)
    ensures k in MostRecent(touched, cap) ==> k in touched
    ensures |MostRecent(touched, cap)| < cap ==> (k in MostRecent(touched, cap) <==> k in touched)
  {
    var p := SplitMostRecent(touched, cap);
    ListedKeys(touched, k);
    assert k in p + MostRecent(touched, cap) <==> k in p || k in MostRecent(touched, cap);
  }

  /** A touch of a listed key moves it to the end of the list. */
  lemma HitListed<K>(touched: seq<K>, cap: nat, k: K)
    requires k in MostRecent(touched, cap)
    ensures MostRecent(touched + [k], cap) == ToEnd(MostRecent(touched, cap), k)
    ensures forall x :: x in MostRecent(touched + [k], cap) <==> x in MostRecent(touched, cap)
  {
    TouchExtends(touched, cap, k);
    MostRecentDistinct(touched, cap);
    ToEndKeeps(MostRecent(touched, cap), k);
  }

  /** A touch of any other key appends it, and drops the head of an overfull list. */
  lemma PutNew<K>(touched: seq<K>, cap: nat, k: K)
    requires k !in MostRecent(touched, cap) && cap > 0
    ensures var t := MostRecent(touched, cap) + [k];
            && MostRecent(touched + [k], cap) == (if |t| > cap then t[1..] else t)
            && (forall x :: x in t[1..] <==> x in t && x != t[0])
  {
    TouchExtends(touched, cap, k);
    MostRecentDistinct(touched, cap);
  }

  /** What is not listed was last touched before everything that is. */
  lemma NotListedIsOlder<K>(touched: seq<K>, cap: nat, k: K, i: nat)
    requires k in touched && k !in MostRecent(touched, cap) && i < |MostRecent(touched, cap)|
    ensures LastTouch(touched, |touched|, k) < LastTouch(touched, |touched|, MostRecent(touched, cap)[i])
  {
    ByRecencyIsRecency(touched, |touched|);
    assert touched[..|touched|] == touched;
    var p := SplitMostRecent(touched, cap);
    PrefixOlder(touched, |touched|, p, MostRecent(touched, cap), k, i);
  }
}
