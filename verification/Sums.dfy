/** Sums over maps whose keys are numbers below a bound, and over sequences. */
module Sums {

  function Sum<T>(m: map<nat, T>, f: T -> nat, n: nat): nat {
    if n == 0 then 0 else Sum(m, f, n - 1) + if n - 1 in m then f(m[n - 1]) else 0
  }

  function At<T>(m: map<nat, T>, f: T -> nat, k: nat): nat { if k in m then f(m[k]) else 0 }

  /** Two maps that differ in the contribution of one key below the bound. */
  lemma {:induction false} SumDiffers<T>(m: map<nat, T>, m': map<nat, T>, f: T -> nat, n: nat, k: nat)
    requires forall i :: i != k ==> At(m, f, i) == At(m', f, i)
    ensures k < n ==> Sum(m', f, n) == Sum(m, f, n) - At(m, f, k) + At(m', f, k)
    ensures k >= n ==> Sum(m', f, n) == Sum(m, f, n)
  {
    if n > 0 {
      SumDiffers(m, m', f, n - 1, k);
      assert n - 1 != k ==> At(m, f, n - 1) == At(m', f, n - 1);
    }
  }

  lemma {:induction false} SumAgrees<T>(m: map<nat, T>, m': map<nat, T>, f: T -> nat, n: nat)
    requires forall i :: At(m, f, i) == At(m', f, i)
    ensures Sum(m', f, n) == Sum(m, f, n)
  {
    if n > 0 {
      SumAgrees(m, m', f, n - 1);
      assert At(m, f, n - 1) == At(m', f, n - 1);
    }
  }

  lemma {:induction false} SumEmpty<T>(f: T -> nat, n: nat)
    ensures Sum(map[], f, n) == 0
  {
    if n > 0 {
      SumEmpty(f, n - 1);
    }
  }

  function SumSeq<T>(s: seq<T>, f: T -> nat): nat {
    if s == [] then 0 else SumSeq(s[..|s| - 1], f) + f(s[|s| - 1])
  }

  lemma SumSeqOne<T>(s: seq<T>, x: T, f: T -> nat)
    ensures SumSeq(s + [x], f) == SumSeq(s, f) + f(x)
  {
  }

  lemma {:induction false} SumSeqConcat<T>(s: seq<T>, t: seq<T>, f: T -> nat)
    ensures SumSeq(s + t, f) == SumSeq(s, f) + SumSeq(t, f)
  {
    if t == [] {
      assert s + t == s;
    } else {
      var front := t[..|t| - 1];
      SumSeqConcat(s, front, f);
      assert s + t == (s + front) + [t[|t| - 1]];
      SumSeqOne(s + front, t[|t| - 1], f);
    }
  }
}
