/** How many loot objects appear: a share of the shortage that grows with the time nothing appeared. */
module LootGenerators {
  import opened Geometry

  function Pow(x: real, n: nat): real { if n == 0 then 1.0 else x * Pow(x, n - 1) }

  /** The probability that something has appeared after so many milliseconds.  With q for the chance that nothing
      appears in one, 1 - (1 - p)^(t / interval) is 1 - q^t for the q with q^interval = 1 - p. */
  datatype Curve = Curve(q: real) {
    function At(t: nat): real { 1.0 - Pow(q, t) }

    predicate Sound() { 0.0 <= q <= 1.0 }

    predicate Calibrated(baseIntervalMs: nat, probability: real) {
      Sound() && Pow(q, baseIntervalMs) == 1.0 - probability
    }
  }

  function Clamp01(x: real): real { if x < 0.0 then 0.0 else if x > 1.0 then 1.0 else x }

  /** std::round of a non-negative number. */
  function Round(x: real): nat
    requires x >= 0.0
  {
    (x + 0.5).Floor
  }

  function Shortage(loot: nat, looters: nat): nat { if loot > looters then 0 else looters - loot }

  function Share(shortage: nat, chance: real): (r: real)
    requires 0.0 <= chance <= 1.0
    ensures 0.0 <= r <= shortage as real
  {
    ShareBounds(shortage as real, chance, shortage as real * chance);
    shortage as real * chance
  }

  lemma ShareBounds(s: real, chance: real, p: real)
    requires s >= 0.0 && 0.0 <= chance <= 1.0 && p == s * chance
    ensures 0.0 <= p <= s
  {
  }

  /** The objects that appear after `elapsed` milliseconds without any. */
  function Appearing(curve: Curve, elapsed: nat, loot: nat, looters: nat, random: real): nat {
    AppearingAt(curve.At(elapsed), Shortage(loot, looters), random)
  }

  function AppearingAt(chance: real, shortage: nat, random: real): nat {
    Round(Share(shortage, Clamp01(chance * random)))
  }

  /** What appears is the shortage times the chance, cut to the range from 0 to 1, rounded to the nearest integer, and
      up from the middle between two. */
  lemma AppearingIsRounded(q: real, elapsed: nat, loot: nat, looters: nat, random: real)
    ensures var lacking := if loot > looters then 0 else looters - loot;
            var chance := (1.0 - Pow(q, elapsed)) * random;
            var x := lacking as real * (if chance < 0.0 then 0.0 else if chance > 1.0 then 1.0 else chance);
            var count := Appearing(Curve(q), elapsed, loot, looters, random);
            count as real - 0.5 <= x < count as real + 0.5
  {
  }

  class LootGenerator {
    const curve: Curve
    const baseIntervalMs: nat
    var timeWithoutLoot: nat

    constructor (baseIntervalMs: nat, curve: Curve)
      ensures this.curve == curve && this.baseIntervalMs == baseIntervalMs && timeWithoutLoot == 0
    {
      this.curve, this.baseIntervalMs, timeWithoutLoot := curve, baseIntervalMs, 0;
    }

    method Generate(deltaMs: nat, loot: nat, looters: nat, random: real) returns (count: nat)
      modifies this
      ensures count == Appearing(curve, old(timeWithoutLoot) + deltaMs, loot, looters, random)
      ensures timeWithoutLoot == if count > 0 then 0 else old(timeWithoutLoot) + deltaMs
      ensures var lacking := if loot > looters then 0 else looters - loot;
              var chance := (1.0 - Pow(curve.q, old(timeWithoutLoot) + deltaMs)) * random;
              var x := lacking as real * (if chance < 0.0 then 0.0 else if chance > 1.0 then 1.0 else chance);
              count as real - 0.5 <= x < count as real + 0.5
    {
      timeWithoutLoot := timeWithoutLoot + deltaMs;
      var shortage := if loot > looters then 0 else looters - loot;
      var probability := Clamp01(curve.At(timeWithoutLoot) * random);
      count := Round(Share(shortage, probability));
      if count > 0 {
        timeWithoutLoot := 0;
      }
    }
  }

  // ---------------------------------------------------------------------------------------------
  // Bounds

  /** Never more than what the looters lack, whatever the curve and the random number. */
  lemma NeverMoreThanShortage(curve: Curve, elapsed: nat, loot: nat, looters: nat, random: real)
    ensures Appearing(curve, elapsed, loot, looters, random) <= Shortage(loot, looters)
    ensures loot >= looters ==> Appearing(curve, elapsed, loot, looters, random) == 0
  {
  }

  /** A sure thing covers the whole shortage. */
  lemma CertaintyCoversShortage(curve: Curve, elapsed: nat, loot: nat, looters: nat)
    requires curve.At(elapsed) == 1.0
    ensures Appearing(curve, elapsed, loot, looters, 1.0) == Shortage(loot, looters)
  {
    hide Curve.At;
    assert Clamp01(curve.At(elapsed) * 1.0) == 1.0;
    TimesOne(Shortage(loot, looters) as real);
  }

  lemma TimesOne(x: real)
    ensures x * 1.0 == x
  {
  }

  /** Waiting longer never yields fewer objects. */
  lemma MoreTimeMoreLoot(curve: Curve, t1: nat, t2: nat, loot: nat, looters: nat, random: real)
    requires curve.Sound() && t1 <= t2 && random >= 0.0
    ensures Appearing(curve, t1, loot, looters, random) <= Appearing(curve, t2, loot, looters, random)
  {
    hide Curve.At, AppearingAt;
    CurveGrows(curve, t1, t2);
    LikelierIsMore(curve.At(t1), curve.At(t2), Shortage(loot, looters), random);
  }

  lemma ShareGrows(shortage: nat, c1: real, c2: real)
    requires 0.0 <= c1 <= c2 <= 1.0
    ensures Share(shortage, c1) <= Share(shortage, c2)
  {
    ProductOrder(c1, c2, shortage as real, c1 * (shortage as real), c2 * (shortage as real));
  }

  lemma LikelierIsMore(p1: real, p2: real, shortage: nat, random: real)
    requires p1 <= p2 && random >= 0.0
    ensures AppearingAt(p1, shortage, random) <= AppearingAt(p2, shortage, random)
  {
    ProductOrder(p1, p2, random, p1 * random, p2 * random);
    ShareGrows(shortage, Clamp01(p1 * random), Clamp01(p2 * random));
    hide Share;
    RoundOrder(Share(shortage, Clamp01(p1 * random)), Share(shortage, Clamp01(p2 * random)));
  }

  lemma RoundOrder(x: real, y: real)
    requires 0.0 <= x <= y
    ensures Round(x) <= Round(y)
  {
  }

  // ---------------------------------------------------------------------------------------------
  // The curve

  lemma Scaled(x: real, p: real, y: real)
    requires 0.0 <= x <= 1.0 && 0.0 <= p <= 1.0 && y == x * p
    ensures 0.0 <= y <= p
  {
    ProductOrder(0.0, x, p, 0.0, y);
    ProductOrder(x, 1.0, p, y, p);
  }

  lemma PowStep(x: real, n: nat)
    requires 0.0 <= x <= 1.0 && n > 0 && 0.0 <= Pow(x, n - 1) <= 1.0
    ensures 0.0 <= Pow(x, n) <= Pow(x, n - 1)
  {
    Scaled(x, Pow(x, n - 1), Pow(x, n));
  }

  lemma {:induction false} PowFalls(x: real, m: nat, n: nat)
    requires 0.0 <= x <= 1.0 && m <= n
    ensures 0.0 <= Pow(x, n) <= Pow(x, m) <= 1.0
    decreases n
  {
    if n > 0 {
      PowFalls(x, if m == n then m - 1 else m, n - 1);
      PowStep(x, n);
      hide Pow;
    }
  }

  /** From zero on the probability grows, and it never exceeds one. */
  lemma CurveGrows(curve: Curve, t1: nat, t2: nat)
    requires curve.Sound() && t1 <= t2
    ensures curve.At(0) == 0.0 && 0.0 <= curve.At(t1) <= curve.At(t2) <= 1.0
  {
    PowFalls(curve.q, t1, t2);
  }

  lemma {:induction false} PowAdds(x: real, m: nat, n: nat)
    ensures Pow(x, m + n) == Pow(x, m) * Pow(x, n)
  {
    if m > 0 {
      PowAdds(x, m - 1, n);
      Regroup(x, Pow(x, m - 1), Pow(x, n));
    }
  }

  lemma Regroup(x: real, y: real, z: real)
    ensures x * (y * z) == (x * y) * z
  {
  }

  lemma {:induction false} PowOfPow(x: real, m: nat, n: nat)
    ensures Pow(Pow(x, m), n) == Pow(x, m * n)
  {
    if n > 0 {
      PowOfPow(x, m, n - 1);
      PowAdds(x, m, m * (n - 1));
      assert m * n == m + m * (n - 1);
    }
  }

  /** The chance that nothing has appeared after t milliseconds, taken to the power of the interval, is that of one
      interval to the power of t: it is the real power (1 - p)^(t / interval). */
  lemma CurveIsThePower(curve: Curve, baseIntervalMs: nat, probability: real, t: nat)
    requires curve.Calibrated(baseIntervalMs, probability)
    ensures Pow(1.0 - curve.At(t), baseIntervalMs) == Pow(1.0 - probability, t)
  {
    PowOfPow(curve.q, t, baseIntervalMs);
    PowOfPow(curve.q, baseIntervalMs, t);
    assert t * baseIntervalMs == baseIntervalMs * t;
  }

  lemma LargerProduct(x: real, y: real, p: real, q: real, xp: real, yq: real)
    requires 0.0 <= x < y && 0.0 <= p <= q && 0.0 < q && xp == x * p && yq == y * q
    ensures 0.0 <= xp < yq
  {
    assert yq - xp == (y - x) * q + x * (q - p);
    ProductOrder(0.0, x, q - p, 0.0, x * (q - p));
    ProductPositive(y - x, q, (y - x) * q);
    ProductOrder(0.0, x, p, 0.0, xp);
  }

  lemma {:induction false} PowGrows(x: real, y: real, n: nat)
    requires 0.0 <= x < y
    ensures 0.0 <= Pow(x, n) <= Pow(y, n) && Pow(y, n) > 0.0
    ensures n > 0 ==> Pow(x, n) < Pow(y, n)
  {
    if n > 0 {
      PowGrows(x, y, n - 1);
      LargerProduct(x, y, Pow(x, n - 1), Pow(y, n - 1), Pow(x, n), Pow(y, n));
    }
  }

  /** A fraction and its root of any degree, enclosed within 1 / 2^k. */
  ghost predicate Encloses(lo: real, hi: real, n: nat, a: real) {
    0.0 <= lo <= hi <= 1.0 && Pow(lo, n) <= a <= Pow(hi, n)
  }

  function Half(k: nat): real { if k == 0 then 1.0 else Half(k - 1) / 2.0 }

  lemma {:induction false} PowOfEnds(n: nat)
    requires n > 0
    ensures Pow(0.0, n) == 0.0 && Pow(1.0, n) == 1.0
  {
    if n > 1 {
      PowOfEnds(n - 1);
    }
  }

  /** Halving an interval k times. */
  lemma {:induction false} Bisect(n: nat, a: real, k: nat) returns (lo: real, hi: real)
    requires n > 0 && 0.0 <= a <= 1.0
    ensures Encloses(lo, hi, n, a) && hi - lo == Half(k)
  {
    if k == 0 {
      PowOfEnds(n);
      lo, hi := 0.0, 1.0;
    } else {
      lo, hi := Bisect(n, a, k - 1);
      var mid := (lo + hi) / 2.0;
      if Pow(mid, n) <= a {
        lo := mid;
      } else {
        hi := mid;
      }
    }
  }

  lemma PowUnfolds(x: real, n: nat)
    requires n > 0
    ensures Pow(x, n) == x * Pow(x, n - 1)
  {
  }

  lemma TimesOneMore(n: nat, d: real)
    requires n > 0 && d >= 0.0
    ensures Times(n as real, d) == Times((n - 1) as real, d) + d && Times((n - 1) as real, d) >= 0.0
  {
    ProductSign((n - 1) as real, d, Times((n - 1) as real, d));
  }

  lemma NoPower(x: real, d: real)
    ensures Pow(x, 0) == 1.0 && Times(0.0, d) == 0.0
  {
  }

  /** On fractions a power changes by no more than its exponent times the change. */
  lemma {:induction false} PowChanges(x: real, y: real, n: nat)
    requires 0.0 <= x <= y <= 1.0
    ensures Pow(y, n) - Pow(x, n) <= Times(n as real, y - x)
  {
    hide Pow, Times;
    if n == 0 {
      NoPower(x, y - x);
      NoPower(y, y - x);
    } else {
      PowChanges(x, y, n - 1);
      PowFalls(x, 0, n - 1);
      PowFalls(y, 0, n - 1);
      TimesOneMore(n, y - x);
      PowersStep(x, y, n, Times((n - 1) as real, y - x));
    }
  }

  lemma PowersStep(x: real, y: real, n: nat, bound: real)
    requires 0.0 <= x <= y <= 1.0 && n > 0 && 0.0 <= Pow(x, n - 1) <= 1.0 && 0.0 <= Pow(y, n - 1) <= 1.0
    requires Pow(y, n - 1) - Pow(x, n - 1) <= bound && 0.0 <= bound
    ensures Pow(y, n) - Pow(x, n) <= bound + (y - x)
  {
    PowUnfolds(x, n);
    PowUnfolds(y, n);
    hide Pow;
    OneFactorMore(x, y, Pow(x, n - 1), Pow(y, n - 1), Pow(x, n), Pow(y, n), bound);
  }

  lemma OneFactorMore(x: real, y: real, px: real, py: real, xp: real, yp: real, bound: real)
    requires 0.0 <= x <= y <= 1.0 && 0.0 <= px <= 1.0 && 0.0 <= py <= 1.0 && xp == x * px && yp == y * py
    requires py - px <= bound && 0.0 <= bound
    ensures yp - xp <= bound + (y - x)
  {
    assert yp - xp == y * (py - px) + px * (y - x);
    AtMost(y, py - px, bound, y * (py - px));
    AtMost(px, y - x, y - x, px * (y - x));
  }

  lemma AtMost(c: real, d: real, bound: real, p: real)
    requires 0.0 <= c <= 1.0 && d <= bound && 0.0 <= bound && p == c * d
    ensures p <= bound
  {
    ProductOrder(d, bound, c, p, c * bound);
    ProductOrder(c, 1.0, bound, c * bound, bound);
  }

  lemma {:induction false} HalfShrinks(k: nat)
    ensures Half(k) > 0.0 && Half(k) * (k as real + 1.0) <= 1.0
  {
    if k > 0 {
      HalfShrinks(k - 1);
    }
  }

  lemma SmallEnough(bound: real, eps: real) returns (k: nat)
    requires bound >= 0.0 && eps > 0.0
    ensures bound * Half(k) <= eps
  {
    k := (bound / eps).Floor + 1;
    HalfShrinks(k);
    Scale(bound, eps, bound / eps, k as real + 1.0, Half(k));
  }

  lemma Scale(bound: real, eps: real, q: real, steps: real, half: real)
    requires bound >= 0.0 && eps > 0.0 && q * eps == bound && q <= steps && half > 0.0 && half * steps <= 1.0
    ensures bound * half <= eps
  {
    ProductOrder(q, steps, half, q * half, steps * half);
    ProductOrder(q * half, 1.0, eps, q * half * eps, eps);
    Regroup(q, half, eps);
    Regroup(q, eps, half);
  }

  /** For every base interval and probability there is a curve that meets them to any precision. */
  lemma CurveCanBeCalibrated(baseIntervalMs: nat, probability: real, eps: real) returns (curve: Curve)
    requires baseIntervalMs > 0 && 0.0 <= probability <= 1.0 && eps > 0.0
    ensures curve.Sound() && 0.0 <= Pow(curve.q, baseIntervalMs) - (1.0 - probability) <= eps
  {
    var k := SmallEnough(baseIntervalMs as real, eps);
    var lo, hi := Bisect(baseIntervalMs, 1.0 - probability, k);
    PowChanges(lo, hi, baseIntervalMs);
    hide Pow, Half;
    assert Times(baseIntervalMs as real, hi - lo) == baseIntervalMs as real * Half(k);
    curve := Curve(hi);
  }

  /** Interval and probability determine the curve. */
  lemma CurveIsUnique(c: Curve, d: Curve, baseIntervalMs: nat, probability: real)
    requires baseIntervalMs > 0 && c.Calibrated(baseIntervalMs, probability)
    requires d.Calibrated(baseIntervalMs, probability)
    ensures c == d
  {
    if c.q < d.q {
      PowGrows(c.q, d.q, baseIntervalMs);
    } else if d.q < c.q {
      PowGrows(d.q, c.q, baseIntervalMs);
    }
  }

  // ---------------------------------------------------------------------------------------------
  // Many calls

  datatype Call = Call(deltaMs: nat, loot: nat, looters: nat, random: real)

  /** The generator's clock after the calls. */
  function ClockAfter(curve: Curve, clock: nat, calls: seq<Call>): nat {
    if calls == [] then clock
    else
      var last := calls[|calls| - 1];
      var elapsed := ClockAfter(curve, clock, calls[..|calls| - 1]) + last.deltaMs;
      if Appearing(curve, elapsed, last.loot, last.looters, last.random) > 0 then 0 else elapsed
  }

  /** What the last of the calls yields. */
  function LastYield(curve: Curve, clock: nat, calls: seq<Call>): nat
    requires calls != []
  {
    var last := calls[|calls| - 1];
    Appearing(curve, ClockAfter(curve, clock, calls[..|calls| - 1]) + last.deltaMs, last.loot, last.looters,
        last.random)
  }

  function TotalMs(calls: seq<Call>): nat {
    if calls == [] then 0 else TotalMs(calls[..|calls| - 1]) + calls[|calls| - 1].deltaMs
  }

  ghost predicate AllBarren(curve: Curve, clock: nat, calls: seq<Call>) {
    forall k: nat :: 0 < k <= |calls| ==> LastYield(curve, clock, calls[..k]) == 0
  }

  lemma {:induction false} BarrenCallsOnlyAddTime(curve: Curve, clock: nat, calls: seq<Call>)
    requires AllBarren(curve, clock, calls)
    ensures ClockAfter(curve, clock, calls) == clock + TotalMs(calls)
  {
    if calls != [] {
      var before := calls[..|calls| - 1];
      assert forall k: nat :: k <= |before| ==> before[..k] == calls[..k];
      assert calls[..|calls|] == calls;
      BarrenCallsOnlyAddTime(curve, clock, before);
    }
  }

  /** Calls that yielded nothing can be fused into the next one: only the sum of the times counts. */
  lemma BarrenCallsFuse(curve: Curve, clock: nat, barren: seq<Call>, next: Call)
    requires AllBarren(curve, clock, barren)
    ensures LastYield(curve, clock, barren + [next]) ==
            LastYield(curve, clock, [next.(deltaMs := TotalMs(barren) + next.deltaMs)])
    ensures ClockAfter(curve, clock, barren + [next]) ==
            ClockAfter(curve, clock, [next.(deltaMs := TotalMs(barren) + next.deltaMs)])
  {
    BarrenCallsOnlyAddTime(curve, clock, barren);
    assert (barren + [next])[..|barren|] == barren;
    var fused := [next.(deltaMs := TotalMs(barren) + next.deltaMs)];
    assert fused[..0] == [];
  }
}
