/** The cut of a vertex's skinning weights to the four largest, each with the index of its bone. */
module SkinWeights {

  /** A weight and the index of its bone. */
  type Share = (real, int)

  const NOTHING: Share := (0.0, 0)

  ghost predicate Descending(s: seq<Share>) {
    forall i, j :: 0 <= i < j < |s| ==> s[i].0 >= s[j].0
  }

  function Shares(weights: seq<real>, indices: seq<int>): seq<Share>
    requires |weights| == |indices|
  {
    seq(|weights|, i requires 0 <= i < |weights| => (weights[i], indices[i]))
  }

  // ---------------------------------------------------------------------------------------------
  // One weight more

  lemma ReplaceOne(s: seq<Share>, k: nat, x: Share)
    requires k < |s|
    ensures multiset(s[k := x]) + multiset{s[k]} == multiset(s) + multiset{x}
  {
  }

  /** The weight moves in where it belongs and pushes the smaller ones on; the smallest falls out. */
  method Sift(weight: array<real>, wIndex: array<int>, newWeight: real, newIndex: int) returns (ghost out: Share)
    requires weight.Length == wIndex.Length == 4 && Descending(Shares(weight[..], wIndex[..]))
    modifies weight, wIndex
    ensures Descending(Shares(weight[..], wIndex[..])) && out.0 <= weight[3] && weight[3] >= old(weight[3])
    ensures multiset(Shares(weight[..], wIndex[..])) + multiset{out}
            == multiset(old(Shares(weight[..], wIndex[..]))) + multiset{(newWeight, newIndex)}
  {
    var currentWeight, currentIndex := newWeight, newIndex;
    for k := 0 to 4
      invariant Descending(Shares(weight[..], wIndex[..])) && weight[3] >= old(weight[3])
      invariant forall j :: 0 <= j < k ==> currentWeight <= weight[j]
      invariant multiset(Shares(weight[..], wIndex[..])) + multiset{(currentWeight, currentIndex)}
                == multiset(old(Shares(weight[..], wIndex[..]))) + multiset{(newWeight, newIndex)}
    {
      if currentWeight > weight[k] {
        ghost var before := Shares(weight[..], wIndex[..]);
        ReplaceOne(before, k, (currentWeight, currentIndex));
        var comparedWeight := weight[k];
        weight[k] := currentWeight;
        ghost var pushed := currentWeight;
        currentWeight := comparedWeight;
        var tmp := wIndex[k];
        wIndex[k] := currentIndex;
        assert Shares(weight[..], wIndex[..]) == before[k := (pushed, currentIndex)];
        currentIndex := tmp;
      }
    }
    out := (currentWeight, currentIndex);
  }

  // ---------------------------------------------------------------------------------------------
  // All weights

  const FOUR_NOTHINGS: seq<Share> := [NOTHING, NOTHING, NOTHING, NOTHING]

  /** The kept four, and what fell out, are the given shares and four empty ones; nothing that fell out is larger. */
  ghost predicate IsCut(kept: seq<Share>, dropped: seq<Share>, all: seq<Share>) {
    && |kept| == 4 && Descending(kept)
    && multiset(kept) + multiset(dropped) == multiset(all) + multiset(FOUR_NOTHINGS)
    && forall d :: d in dropped ==> d.0 <= kept[3].0
  }

  lemma Exchange(next: multiset<Share>, out: multiset<Share>, kept: multiset<Share>, x: multiset<Share>,
                 dropped: multiset<Share>, all: multiset<Share>, rest: multiset<Share>)
    requires next + out == kept + x && kept + dropped == all + rest
    ensures next + (dropped + out) == (all + x) + rest
  {
    assert next + (dropped + out) == (next + out) + dropped;
    assert (kept + x) + dropped == (kept + dropped) + x;
    assert (all + rest) + x == (all + x) + rest;
  }

  lemma CutGoesOn(kept: seq<Share>, dropped: seq<Share>, all: seq<Share>, x: Share, next: seq<Share>, out: Share)
    requires IsCut(kept, dropped, all) && |next| == 4 && Descending(next) && out.0 <= next[3].0
    requires kept[3].0 <= next[3].0
    requires multiset(next) + multiset{out} == multiset(kept) + multiset{x}
    ensures IsCut(next, dropped + [out], all + [x])
  {
    assert multiset(dropped + [out]) == multiset(dropped) + multiset{out};
    assert multiset(all + [x]) == multiset(all) + multiset{x};
    Exchange(multiset(next), multiset{out}, multiset(kept), multiset{x}, multiset(dropped), multiset(all),
        multiset(FOUR_NOTHINGS));
    forall d | d in dropped + [out] ensures d.0 <= next[3].0 {
      assert d in dropped || d == out;
    }
  }

  /** The four largest of more than four weights. */
  method KeepFour(weights: seq<real>, indices: seq<int>)
    returns (weight: array<real>, wIndex: array<int>, ghost dropped: seq<Share>)
    requires |weights| == |indices|
    ensures fresh(weight) && fresh(wIndex) && weight.Length == wIndex.Length == 4
    ensures IsCut(Shares(weight[..], wIndex[..]), dropped, Shares(weights, indices))
  {
    weight := new real[4](_ => 0.0);
    wIndex := new int[4](_ => 0);
    dropped := [];
    assert Shares(weight[..], wIndex[..]) == FOUR_NOTHINGS;
    hide IsCut, Shares, Descending;
    NothingCut();
    for i := 0 to |weights|
      invariant fresh(weight) && fresh(wIndex) && weight.Length == wIndex.Length == 4
      invariant IsCut(Shares(weight[..], wIndex[..]), dropped, Shares(weights[..i], indices[..i]))
    {
      ghost var kept := Shares(weight[..], wIndex[..]);
      CutShape(kept, dropped, Shares(weights[..i], indices[..i]));
      SharesShape(weight[..], wIndex[..]);
      ghost var out := Sift(weight, wIndex, weights[i], indices[i]);
      SharesShape(weight[..], wIndex[..]);
      CutGoesOn(kept, dropped, Shares(weights[..i], indices[..i]), (weights[i], indices[i]),
          Shares(weight[..], wIndex[..]), out);
      OneMoreShare(weights, indices, i);
      dropped := dropped + [out];
    }
    assert weights[..|weights|] == weights && indices[..|indices|] == indices;
  }

  lemma NothingCut()
    ensures IsCut(FOUR_NOTHINGS, [], Shares([], []))
  {
  }

  lemma CutShape(kept: seq<Share>, dropped: seq<Share>, all: seq<Share>)
    requires IsCut(kept, dropped, all)
    ensures |kept| == 4 && Descending(kept)
  {
  }

  lemma SharesShape(weights: seq<real>, indices: seq<int>)
    requires |weights| == |indices| == 4
    ensures |Shares(weights, indices)| == 4 && Shares(weights, indices)[3].0 == weights[3]
  {
  }

  lemma OneMoreShare(weights: seq<real>, indices: seq<int>, i: nat)
    requires i < |weights| == |indices|
    ensures Shares(weights[..i + 1], indices[..i + 1]) ==
        Shares(weights[..i], indices[..i]) + [(weights[i], indices[i])]
  {
  }

  /** Exactly four weights for each vertex: the largest of more than four, or fewer filled up with zeros. */
  method FourWeights(weights: seq<real>, indices: seq<int>)
    returns (w: seq<real>, x: seq<int>, ghost dropped: seq<Share>)
    requires |weights| == |indices|
    ensures |w| == |x| == 4
    ensures |weights| > 4 ==> IsCut(Shares(w, x), dropped, Shares(weights, indices))
    ensures |weights| <= 4 ==> weights <= w && indices <= x && forall i :: |weights| <= i < 4 ==>
        w[i] == 0.0 && x[i] == 0
  {
    w, x, dropped := weights, indices, [];
    if |w| > 4 {
      var weight, wIndex;
      weight, wIndex, dropped := KeepFour(weights, indices);
      w, x := weight[..], wIndex[..];
    }
    while |w| < 4
      invariant |w| == |x| && (|w| < 4 ==> |weights| < 4)
      invariant |weights| > 4 ==> |w| == 4 && IsCut(Shares(w, x), dropped, Shares(weights, indices))
      invariant |weights| <= 4 ==> |weights| <= |w| <= 4 && weights <= w && indices <= x
      invariant |weights| <= 4 ==> forall i :: |weights| <= i < |w| ==> w[i] == 0.0 && x[i] == 0
      decreases 4 - |w|
    {
      w := w + [0.0];
      x := x + [0];
    }
  }

  // ---------------------------------------------------------------------------------------------
  // What is kept

  /** A kept share with a positive weight is one of the given ones, and every share above the smallest kept
      weight is kept, each as often as it was given. */
  lemma KeptSharesAreGiven(kept: seq<Share>, dropped: seq<Share>, all: seq<Share>, p: Share)
    requires IsCut(kept, dropped, all) && p.0 > 0.0
    ensures multiset(kept)[p] <= multiset(all)[p]
    ensures p.0 > kept[3].0 ==> multiset(kept)[p] == multiset(all)[p]
  {
    assert (multiset(kept) + multiset(dropped))[p] == (multiset(all) + multiset(FOUR_NOTHINGS))[p];
    assert p !in FOUR_NOTHINGS;
    assert p in multiset(dropped) <==> p in dropped;
  }

  /** Whatever is kept is one of the given shares, or no weight on bone 0. */
  lemma KeptOrNothing(kept: seq<Share>, dropped: seq<Share>, all: seq<Share>, i: nat)
    requires IsCut(kept, dropped, all) && i < 4
    ensures kept[i] in all || kept[i] == (0.0, 0)
  {
    assert kept[i] in multiset(kept) && kept[i] in multiset(kept) + multiset(dropped);
    assert kept[i] in multiset(all) || kept[i] in multiset(FOUR_NOTHINGS);
  }

  function WeightsOf(s: seq<Share>): seq<real> {
    seq(|s|, i requires 0 <= i < |s| => s[i].0)
  }

  ghost predicate Falling(s: seq<real>) {
    forall i, j :: 0 <= i < j < |s| ==> s[i] >= s[j]
  }

  lemma WeightsOfSum(a: seq<Share>, b: seq<Share>)
    ensures WeightsOf(a + b) == WeightsOf(a) + WeightsOf(b)
  {
  }

  lemma WithoutOne(s: seq<Share>, j: nat)
    requires j < |s|
    ensures multiset(s) == multiset(s[..j] + s[j + 1..]) + multiset{s[j]}
    ensures multiset(WeightsOf(s)) == multiset(WeightsOf(s[..j] + s[j + 1..])) + multiset{s[j].0}
  {
    assert s == s[..j] + [s[j]] + s[j + 1..];
    var w := WeightsOf(s);
    assert w == w[..j] + [w[j]] + w[j + 1..];
    assert WeightsOf(s[..j] + s[j + 1..]) == w[..j] + w[j + 1..];
  }

  /** The same shares have the same weights. */
  lemma {:induction false} SameWeights(a: seq<Share>, b: seq<Share>)
    requires multiset(a) == multiset(b)
    ensures multiset(WeightsOf(a)) == multiset(WeightsOf(b))
    decreases |a|
  {
    assert |a| == |multiset(a)| && |b| == |multiset(b)|;
    if a != [] {
      assert a[0] in multiset(b);
      var j: nat :| j < |b| && b[j] == a[0];
      WithoutOne(a, 0);
      WithoutOne(b, j);
      assert multiset(a[..0] + a[1..]) == multiset(a) - multiset{a[0]};
      assert multiset(b[..j] + b[j + 1..]) == multiset(b) - multiset{b[j]};
      SameWeights(a[..0] + a[1..], b[..j] + b[j + 1..]);
    }
  }

  lemma HeadsAgree(kept: seq<real>, dropped: multiset<real>, all: seq<real>)
    requires Falling(kept) && Falling(all) && multiset(kept) + dropped == multiset(all) && kept != []
    requires forall d :: d in dropped ==> d <= kept[|kept| - 1]
    ensures all != [] && kept[0] == all[0]
  {
    assert kept[0] in multiset(kept) && kept[0] in multiset(all);
    assert all[0] in multiset(all) && all[0] in multiset(kept) + dropped;
  }

  lemma TailsAgree(kept: seq<real>, dropped: multiset<real>, all: seq<real>)
    requires multiset(kept) + dropped == multiset(all) && kept != [] && all != [] && kept[0] == all[0]
    ensures multiset(kept[1..]) + dropped == multiset(all[1..])
  {
    assert kept == [kept[0]] + kept[1..] && all == [all[0]] + all[1..];
    assert multiset(kept) == multiset{kept[0]} + multiset(kept[1..]);
    assert multiset(all) == multiset{all[0]} + multiset(all[1..]);
    Cancel(multiset{kept[0]}, multiset(kept[1..]), dropped, multiset(all[1..]));
  }

  lemma Cancel(head: multiset<real>, tail: multiset<real>, dropped: multiset<real>, rest: multiset<real>)
    requires (head + tail) + dropped == head + rest
    ensures tail + dropped == rest
  {
    forall v ensures (tail + dropped)[v] == rest[v] {
      assert ((head + tail) + dropped)[v] == (head + rest)[v];
    }
  }

  lemma PrefixOfTails(kept: seq<real>, all: seq<real>)
    requires kept != [] && all != [] && kept[0] == all[0] && kept[1..] <= all[1..]
    ensures kept <= all
  {
  }

  /** A falling list of which nothing left out is larger is the beginning of the whole falling list. */
  lemma {:induction false} TopOfFalling(kept: seq<real>, dropped: multiset<real>, all: seq<real>)
    requires Falling(kept) && Falling(all) && multiset(kept) + dropped == multiset(all)
    requires kept != [] ==> forall d :: d in dropped ==> d <= kept[|kept| - 1]
    ensures kept <= all
    decreases |kept|
  {
    if kept != [] {
      HeadsAgree(kept, dropped, all);
      TailsAgree(kept, dropped, all);
      TopOfFalling(kept[1..], dropped, all[1..]);
      PrefixOfTails(kept, all);
    }
  }

  /** Of more than four non-negative weights the four largest are kept, largest first. */
  lemma KeptAreTheLargest(kept: seq<Share>, dropped: seq<Share>, all: seq<Share>, sorted: seq<real>)
    requires IsCut(kept, dropped, all) && |all| > 4
    requires forall i :: 0 <= i < |all| ==> all[i].0 >= 0.0
    requires Falling(sorted) && |sorted| == |all| && multiset(sorted) == multiset(WeightsOf(all))
    ensures WeightsOf(kept) == sorted[..4]
  {
    var zeros := WeightsOf(FOUR_NOTHINGS);
    SameWeights(kept + dropped, all + FOUR_NOTHINGS);
    WeightsOfSum(kept, dropped);
    WeightsOfSum(all, FOUR_NOTHINGS);
    forall i | 0 <= i < |sorted| ensures sorted[i] >= 0.0 {
      assert sorted[i] in multiset(WeightsOf(all));
    }
    assert multiset(WeightsOf(kept)) + multiset(WeightsOf(dropped)) == multiset(sorted + zeros);
    forall d | d in multiset(WeightsOf(dropped)) ensures d <= kept[3].0 {
      var i: nat :| i < |dropped| && WeightsOf(dropped)[i] == d;
      assert dropped[i] in dropped;
    }
    TopOfFalling(WeightsOf(kept), multiset(WeightsOf(dropped)), sorted + zeros);
    assert (sorted + zeros)[..4] == sorted[..4];
  }
}
