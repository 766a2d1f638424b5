/** Rotation curves of the animation loader: keys are inserted so that no two neighbours are more than 180 degrees
    apart. */
module RotationCurves {

  const HALF_TURN := 180.0

  datatype Key = Key(time: real, value: real)

  function Abs(x: real): real { if x < 0.0 then -x else x }

  function Least(m: nat, n: nat): nat { if m <= n then m else n }

  /** Slices past the end are empty, so an index past the end appends. */
  function Inject<T>(a1: seq<T>, index: nat, a2: seq<T>): seq<T> {
    var at := Least(index, |a1|);
    a1[..at] + a2 + a1[at..]
  }

  // ---------------------------------------------------------------------------------------------
  // Between two keys

  function Times(n: nat, x: real): real { n as real * x }

  function Quotient(x: real, n: real): real
    requires n > 0.0
  {
    x / n
  }

  /** How many half turns the value goes through. */
  function SubIntervals(p: Key, q: Key): real { Abs(q.value - p.value) / HALF_TURN }

  /** How many natural numbers from 1 on are below n. */
  function NaturalsBelow(n: real): (c: nat)
    requires n >= 1.0
    ensures c as real < n <= c as real + 1.0
  {
    var c := -((-n).Floor) - 1;
    c
  }

  predicate NeedsKeys(p: Key, q: Key) { Abs(q.value - p.value) >= HALF_TURN && q.time > p.time }

  /** Point j of the way from p on, in steps of a half turn. */
  function StepKey(p: Key, q: Key, j: nat): Key
    requires Abs(q.value - p.value) >= HALF_TURN
  {
    var n := SubIntervals(p, q);
    Key(p.time + Times(j, Quotient(q.time - p.time, n)), p.value + Times(j, Quotient(q.value - p.value, n)))
  }

  /** The keys to insert between two neighbours. */
  function Between(p: Key, q: Key): seq<Key> {
    if NeedsKeys(p, q)
    then seq(NaturalsBelow(SubIntervals(p, q)), j requires 0 <= j => StepKey(p, q, j + 1))
    else []
  }

  lemma QuotientTimes(x: real, n: real, y: real)
    requires n > 0.0 && y == x / n
    ensures y * n == x && (x > 0.0 ==> y > 0.0) && (x < 0.0 ==> y < 0.0)
  {
  }

  /** Every step turns by exactly a half turn. */
  lemma StepTurn(p: Key, q: Key)
    requires Abs(q.value - p.value) >= HALF_TURN
    ensures SubIntervals(p, q) >= 1.0
    ensures Quotient(q.value - p.value, SubIntervals(p, q)) == if q.value > p.value then HALF_TURN else -HALF_TURN
  {
  }

  /** j steps of the n fit strictly before the end exactly when j is below n. */
  lemma StepsBeforeEnd(j: real, n: real, dt: real, interval: real, p: real)
    requires n >= 1.0 && dt > 0.0 && interval * n == dt && interval > 0.0 && p == j * interval
    ensures p < dt <==> j < n
  {
  }

  /** The loop over the inserted keys runs on while they come before the end. */
  lemma StepTimes(p: Key, q: Key, j: nat)
    requires NeedsKeys(p, q)
    ensures SubIntervals(p, q) >= 1.0
    ensures StepKey(p, q, j).time < q.time <==> j as real < SubIntervals(p, q)
    ensures StepKey(p, q, j).time < StepKey(p, q, j + 1).time
    ensures StepKey(p, q, 0) == p
  {
    var n, dt := SubIntervals(p, q), q.time - p.time;
    var interval := Quotient(dt, n);
    QuotientTimes(dt, n, interval);
    StepsBeforeEnd(j as real, n, dt, interval, Times(j, interval));
    OneMoreTime(j, interval);
  }

  lemma OneMoreTime(j: nat, x: real)
    ensures Times(j + 1, x) == Times(j, x) + x
    ensures Times(0, x) == 0.0
  {
  }

  /** Values and times advance in proportion. */
  lemma StepOnLine(p: Key, q: Key, j: nat)
    requires Abs(q.value - p.value) >= HALF_TURN
    ensures var k := StepKey(p, q, j);
            (k.value - p.value) * (q.time - p.time) == (k.time - p.time) * (q.value - p.value)
  {
  }

  /** Neighbouring steps are a half turn apart, and the last is no more than that from the end. */
  lemma StepValues(p: Key, q: Key, j: nat)
    requires NeedsKeys(p, q)
    ensures Abs(StepKey(p, q, j + 1).value - StepKey(p, q, j).value) == HALF_TURN
    ensures j == NaturalsBelow(SubIntervals(p, q)) ==> Abs(q.value - StepKey(p, q, j).value) <= HALF_TURN
  {
    StepTurn(p, q);
    var n := SubIntervals(p, q);
    OneMoreTime(j, Quotient(q.value - p.value, n));
    if j == NaturalsBelow(n) {
      assert Times(j, HALF_TURN) == j as real * HALF_TURN;
      assert Times(j, -HALF_TURN) == -(j as real * HALF_TURN);
    }
  }

  // ---------------------------------------------------------------------------------------------
  // The whole curve

  /** The keys of a curve.  A time without a value or a value without a time is none. */
  function Zip(times: seq<real>, values: seq<real>): (keys: seq<Key>)
    ensures |keys| == Least(|times|, |values|)
  {
    var n := Least(|times|, |values|);
    seq(n, i requires 0 <= i < n => Key(times[i], values[i]))
  }

  /** The keys with the inserted ones in between. */
  function Expanded(keys: seq<Key>): seq<Key> {
    if |keys| <= 1 then keys
    else
      var front := keys[..|keys| - 1];
      Expanded(front) + Between(front[|front| - 1], keys[|keys| - 1]) + [keys[|keys| - 1]]
  }

  lemma {:induction false} ExpandedEnds(keys: seq<Key>)
    ensures |Expanded(keys)| >= |keys|
    ensures keys != [] ==> Expanded(keys)[0] == keys[0] && Expanded(keys)[|Expanded(keys)| - 1] == keys[|keys| - 1]
  {
    if |keys| > 1 {
      ExpandedEnds(keys[..|keys| - 1]);
    }
  }

  /** The keys from p to q after insertion. */
  function Stretch(p: Key, q: Key): seq<Key> { [p] + Between(p, q) + [q] }

  lemma StretchKey(p: Key, q: Key, i: nat)
    requires i < |Stretch(p, q)| - 1 && NeedsKeys(p, q)
    ensures Stretch(p, q)[i] == StepKey(p, q, i)
  {
  }

  /** Along a stretch between keys in order of time, neighbours are at most a half turn apart and in order. */
  lemma StretchIsFine(p: Key, q: Key, i: nat)
    requires i + 1 < |Stretch(p, q)|
    ensures q.time > p.time || Abs(q.value - p.value) <= HALF_TURN ==>
              Abs(Stretch(p, q)[i + 1].value - Stretch(p, q)[i].value) <= HALF_TURN
    ensures q.time > p.time ==> Stretch(p, q)[i].time < Stretch(p, q)[i + 1].time
  {
    if NeedsKeys(p, q) {
      hide Between, StepKey;
      StretchKey(p, q, i);
      StepTimes(p, q, i);
      StepValues(p, q, i);
      BetweenLength(p, q);
      if i + 2 < |Stretch(p, q)| {
        StretchKey(p, q, i + 1);
      }
    }
  }

  lemma BetweenLength(p: Key, q: Key)
    requires NeedsKeys(p, q)
    ensures SubIntervals(p, q) >= 1.0 && |Between(p, q)| == NaturalsBelow(SubIntervals(p, q))
  {
  }

  /** The end of an expanded list is the stretch between the last two keys. */
  lemma ExpandedTail(keys: seq<Key>)
    requires |keys| > 1
    ensures var front, p, q := keys[..|keys| - 1], keys[|keys| - 2], keys[|keys| - 1];
            && |Expanded(front)| > 0 && |Expanded(keys)| == |Expanded(front)| + |Stretch(p, q)| - 1
            && Expanded(keys)[|Expanded(front)| - 1..] == Stretch(p, q)
  {
    var front, p, q := keys[..|keys| - 1], keys[|keys| - 2], keys[|keys| - 1];
    ExpandedEnds(front);
    TailOfSum(Expanded(front), Between(p, q), [q]);
  }

  lemma TailOfSum(a: seq<Key>, b: seq<Key>, c: seq<Key>)
    requires a != []
    ensures (a + b + c)[|a| - 1..] == [a[|a| - 1]] + b + c
  {
  }

  /** Where key j is after insertion. */
  function Pos(keys: seq<Key>, j: nat): int
    requires j < |keys|
  {
    |Expanded(keys[..j + 1])| - 1
  }

  lemma ExpandedFront(keys: seq<Key>)
    requires |keys| > 1
    ensures Expanded(keys[..|keys| - 1]) <= Expanded(keys)
  {
  }

  lemma PosInFront(keys: seq<Key>, j: nat)
    requires j + 1 < |keys|
    ensures Pos(keys[..|keys| - 1], j) == Pos(keys, j)
  {
    hide Expanded;
    assert keys[..|keys| - 1][..j + 1] == keys[..j + 1];
  }

  lemma LastStretchAt(keys: seq<Key>)
    requires |keys| > 1
    ensures 0 <= Pos(keys, |keys| - 2) < Pos(keys, |keys| - 1) < |Expanded(keys)|
    ensures Expanded(keys)[Pos(keys, |keys| - 2)..Pos(keys, |keys| - 1) + 1] ==
        Stretch(keys[|keys| - 2], keys[|keys| - 1])
  {
    hide Expanded, Between;
    assert keys[..|keys|] == keys;
    ExpandedTail(keys);
  }

  /** The keys stay, in their order, and between two of them is the stretch from one to the other. */
  lemma {:induction false} StretchAt(keys: seq<Key>, j: nat)
    requires j + 1 < |keys|
    ensures 0 <= Pos(keys, j) < Pos(keys, j + 1) < |Expanded(keys)|
    ensures Expanded(keys)[Pos(keys, j)..Pos(keys, j + 1) + 1] == Stretch(keys[j], keys[j + 1])
  {
    hide Expanded, Stretch, Pos;
    var front := keys[..|keys| - 1];
    if j + 2 == |keys| {
      LastStretchAt(keys);
    } else {
      StretchAt(front, j);
      ExpandedFront(keys);
      PosInFront(keys, j);
      PosInFront(keys, j + 1);
      SliceOfPrefix(Expanded(front), Expanded(keys), Pos(keys, j), Pos(keys, j + 1) + 1);
    }
  }

  lemma SliceOfPrefix(a: seq<Key>, b: seq<Key>, from: nat, to: nat)
    requires a <= b && from <= to <= |a|
    ensures b[from..to] == a[from..to]
  {
  }

  lemma SeveralKeys(keys: seq<Key>, i: nat)
    requires i + 1 < |Expanded(keys)|
    ensures |keys| > 1
  {
  }

  /** Every pair of neighbours lies in one of the stretches. */
  lemma {:induction false} Covered(keys: seq<Key>, i: nat) returns (j: nat)
    requires i + 1 < |Expanded(keys)|
    ensures j + 1 < |keys| && Pos(keys, j) <= i < Pos(keys, j + 1)
    decreases |keys|
  {
    hide Expanded;
    SeveralKeys(keys, i);
    var front := keys[..|keys| - 1];
    assert keys[..|keys|] == keys;
    if i + 1 < |Expanded(front)| {
      j := Covered(front, i);
      PosInFront(keys, j);
      PosInFront(keys, j + 1);
    } else {
      j := |keys| - 2;
    }
  }

  /** A pair of neighbours, as part of its stretch. */
  lemma PairInStretch(keys: seq<Key>, i: nat) returns (j: nat, k: nat)
    requires i + 1 < |Expanded(keys)|
    ensures j + 1 < |keys| && k + 1 < |Stretch(keys[j], keys[j + 1])| && i == Pos(keys, j) + k
    ensures Expanded(keys)[i] == Stretch(keys[j], keys[j + 1])[k]
    ensures Expanded(keys)[i + 1] == Stretch(keys[j], keys[j + 1])[k + 1]
  {
    hide Expanded, Stretch;
    j := Covered(keys, i);
    StretchAt(keys, j);
    k := i - Pos(keys, j);
  }

  predicate CloseAt(keys: seq<Key>, i: nat)
    requires i + 1 < |keys|
  {
    Abs(keys[i + 1].value - keys[i].value) <= HALF_TURN
  }

  /** No two neighbours are more than a half turn apart. */
  ghost predicate AllClose(keys: seq<Key>) {
    forall i: nat :: i + 1 < |keys| ==> CloseAt(keys, i)
  }

  predicate FixableAt(keys: seq<Key>, i: nat)
    requires i + 1 < |keys|
  {
    keys[i + 1].time > keys[i].time || CloseAt(keys, i)
  }

  /** Every far pair of neighbours comes in order of time. */
  ghost predicate AllFixable(keys: seq<Key>) {
    forall i: nat :: i + 1 < |keys| ==> FixableAt(keys, i)
  }

  lemma FixableBecomesClose(keys: seq<Key>)
    requires AllFixable(keys)
    ensures AllClose(Expanded(keys))
  {
    hide Expanded, Stretch;
    forall i: nat | i + 1 < |Expanded(keys)| ensures CloseAt(Expanded(keys), i) {
      var j, k := PairInStretch(keys, i);
      assert FixableAt(keys, j);
      StretchIsFine(keys[j], keys[j + 1], k);
    }
  }

  lemma CloseWasFixable(keys: seq<Key>)
    requires AllClose(Expanded(keys))
    ensures AllFixable(keys)
  {
    hide Expanded;
    forall j: nat | j + 1 < |keys| ensures FixableAt(keys, j) {
      StretchAt(keys, j);
      if keys[j + 1].time <= keys[j].time {
        var i := Pos(keys, j);
        assert Stretch(keys[j], keys[j + 1]) == [keys[j], keys[j + 1]];
        assert Expanded(keys)[i..Pos(keys, j + 1) + 1][0] == keys[j] &&
            Expanded(keys)[i..Pos(keys, j + 1) + 1][1] == keys[j + 1];
        assert CloseAt(Expanded(keys), i);
      }
    }
  }

  /** Afterwards no two neighbours are more than a half turn apart, exactly if every two keys that were came in
      order of time. */
  lemma CloseIff(keys: seq<Key>)
    ensures AllClose(Expanded(keys)) <==> AllFixable(keys)
  {
    if AllFixable(keys) {
      FixableBecomesClose(keys);
    }
    if AllClose(Expanded(keys)) {
      CloseWasFixable(keys);
    }
  }

  /** Two keys with one time and three quarters of a turn between them stay as they are. */
  lemma SameTimeStaysFar()
    ensures var keys := [Key(1.0, 0.0), Key(1.0, 270.0)]; Expanded(keys) == keys && !AllClose(Expanded(keys))
  {
    var keys := [Key(1.0, 0.0), Key(1.0, 270.0)];
    assert keys[..1] == [keys[0]] && Expanded(keys[..1]) == keys[..1];
    assert !CloseAt(keys, 0);
  }

  ghost predicate TimesIncrease(keys: seq<Key>) {
    forall i, j :: 0 <= i < j < |keys| ==> keys[i].time < keys[j].time
  }

  /** Keys with increasing times keep that property. */
  lemma TimesStillIncrease(keys: seq<Key>)
    requires TimesIncrease(keys)
    ensures TimesIncrease(Expanded(keys))
  {
    hide Expanded, Stretch;
    forall i: nat | i + 1 < |Expanded(keys)| ensures Expanded(keys)[i].time < Expanded(keys)[i + 1].time {
      var j, k := PairInStretch(keys, i);
      StretchIsFine(keys[j], keys[j + 1], k);
    }
    NeighboursSuffice(Expanded(keys));
  }

  lemma {:induction false} NeighboursSuffice(keys: seq<Key>)
    requires forall i: nat :: i + 1 < |keys| ==> keys[i].time < keys[i + 1].time
    ensures TimesIncrease(keys)
  {
    if |keys| > 1 {
      NeighboursSuffice(keys[..|keys| - 1]);
      assert keys[|keys| - 2].time < keys[|keys| - 2 + 1].time;
    }
  }

  predicate OnLine(p: Key, q: Key, k: Key) {
    (k.value - p.value) * (q.time - p.time) == (k.time - p.time) * (q.value - p.value)
  }

  /** The keys stay where they are in the order, and every inserted one lies on the line between its neighbours
      among them, strictly between them in time. */
  lemma KeysStayAndInsertedFit(keys: seq<Key>, j: nat)
    requires j + 1 < |keys|
    ensures 0 <= Pos(keys, j) < Pos(keys, j + 1) < |Expanded(keys)|
    ensures Expanded(keys)[Pos(keys, j)] == keys[j] && Expanded(keys)[Pos(keys, j + 1)] == keys[j + 1]
    ensures forall i :: Pos(keys, j) < i < Pos(keys, j + 1) ==> Fits(keys[j], keys[j + 1], Expanded(keys)[i])
  {
    StretchAt(keys, j);
    InStretch(Expanded(keys), Pos(keys, j), Pos(keys, j + 1), keys[j], keys[j + 1]);
  }

  /** The key is k half turns on from p in the direction of q, at that share of the time. */
  predicate IsTurn(p: Key, q: Key, k: int, key: Key) {
    var turn := if q.value < p.value then p.value - q.value else q.value - p.value;
    && key.value == (if q.value < p.value then p.value - k as real * 180.0 else p.value + k as real * 180.0)
    && (key.time - p.time) * turn == k as real * 180.0 * (q.time - p.time)
  }

  /** Between two keys at least 180 degrees apart and in order of time there are as many new ones as whole half turns
      fit strictly between, the k-th of them exactly k half turns on, at its share of the time; between other keys there
      is none. */
  lemma InsertedInHalfTurns(keys: seq<Key>, j: nat, k: nat)
    requires j + 1 < |keys|
    ensures 0 <= Pos(keys, j) < Pos(keys, j + 1) < |Expanded(keys)|
    ensures var p, q, count := keys[j], keys[j + 1], Pos(keys, j + 1) - Pos(keys, j) - 1;
            var turn := if q.value < p.value then p.value - q.value else q.value - p.value;
            if turn >= 180.0 && q.time > p.time
            then count as real * 180.0 < turn <= (count + 1) as real * 180.0
                 && (1 <= k <= count ==> IsTurn(p, q, k, Expanded(keys)[Pos(keys, j) + k]))
            else count == 0
  {
    hide Expanded, Stretch, StepKey, IsTurn;
    StretchAt(keys, j);
    var p, q, from, to := keys[j], keys[j + 1], Pos(keys, j), Pos(keys, j + 1);
    var s := Expanded(keys)[from..to + 1];
    StretchCount(p, q);
    if 1 <= k <= to - from - 1 {
      assert s[k] == Expanded(keys)[from + k];
      StretchMember(p, q, k);
      StepIsTurn(p, q, k);
    }
  }

  lemma StretchCount(p: Key, q: Key)
    ensures var turn, count := Abs(q.value - p.value), |Stretch(p, q)| - 2;
            if turn >= 180.0 && q.time > p.time
            then count as real * 180.0 < turn <= (count + 1) as real * 180.0
            else count == 0
  {
    if NeedsKeys(p, q) {
      BetweenLength(p, q);
    }
  }

  lemma StepIsTurn(p: Key, q: Key, k: nat)
    requires NeedsKeys(p, q)
    ensures IsTurn(p, q, k, StepKey(p, q, k))
  {
    var n, dt, dv := SubIntervals(p, q), q.time - p.time, q.value - p.value;
    StepTurn(p, q);
    QuotientTimes(dt, n, Quotient(dt, n));
    TurnTime(k as real, Quotient(dt, n), n, dt, Abs(dv), Times(k, Quotient(dt, n)));
  }

  lemma TurnTime(k: real, interval: real, n: real, dt: real, turn: real, passed: real)
    requires interval * n == dt && n * 180.0 == turn && passed == k * interval
    ensures passed * turn == k * 180.0 * dt
  {
  }

  /** On the line between two keys, and strictly between them in time. */
  predicate Fits(p: Key, q: Key, k: Key) { OnLine(p, q, k) && p.time < k.time < q.time }

  lemma InStretch(keys: seq<Key>, from: nat, to: nat, p: Key, q: Key)
    requires from < to < |keys| && keys[from..to + 1] == Stretch(p, q)
    ensures keys[from] == p && keys[to] == q
    ensures forall i :: from < i < to ==> Fits(p, q, keys[i])
  {
    hide Stretch, Fits;
    var s := keys[from..to + 1];
    StretchEnds(p, q);
    assert s[0] == keys[from] && s[to - from] == keys[to];
    forall i | from < i < to ensures Fits(p, q, keys[i]) {
      StretchMember(p, q, i - from);
      InsertedFits(p, q, i - from);
      assert keys[i] == s[i - from];
    }
  }

  lemma StretchEnds(p: Key, q: Key)
    ensures Stretch(p, q)[0] == p && Stretch(p, q)[|Stretch(p, q)| - 1] == q
  {
  }

  lemma StretchMember(p: Key, q: Key, k: nat)
    requires 0 < k < |Stretch(p, q)| - 1
    ensures NeedsKeys(p, q) && k <= |Between(p, q)| && Stretch(p, q)[k] == StepKey(p, q, k)
  {
  }

  lemma InsertedFits(p: Key, q: Key, k: nat)
    requires NeedsKeys(p, q) && 0 < k <= |Between(p, q)|
    ensures Fits(p, q, StepKey(p, q, k))
  {
    StepOnLine(p, q, k);
    BetweenLength(p, q);
    StepTimes(p, q, k);
    StepsGoOn(p, q, k);
  }

  lemma {:induction false} StepsGoOn(p: Key, q: Key, k: nat)
    requires NeedsKeys(p, q) && k > 0
    ensures p.time < StepKey(p, q, k).time
  {
  }

  /** Nothing is left to insert. */
  lemma NothingMoreToInsert(keys: seq<Key>, i: nat)
    requires i + 1 < |Expanded(keys)|
    ensures Between(Expanded(keys)[i], Expanded(keys)[i + 1]) == []
  {
    hide Expanded, Stretch;
    var j, k := PairInStretch(keys, i);
    if NeedsKeys(keys[j], keys[j + 1]) {
      StretchIsFine(keys[j], keys[j + 1], k);
      HalfTurnIsQuiet(Expanded(keys)[i], Expanded(keys)[i + 1]);
    } else {
      ShortStretch(keys[j], keys[j + 1]);
    }
  }

  lemma ShortStretch(p: Key, q: Key)
    requires !NeedsKeys(p, q)
    ensures Stretch(p, q) == [p, q] && Between(p, q) == []
  {
  }

  lemma HalfTurnIsQuiet(p: Key, q: Key)
    requires Abs(q.value - p.value) <= HALF_TURN
    ensures Between(p, q) == []
  {
  }

  // ---------------------------------------------------------------------------------------------
  // The loops

  lemma EmptyStep(p: Key, q: Key)
    requires Abs(q.value - p.value) >= HALF_TURN && q.time <= p.time
    ensures SubIntervals(p, q) >= 1.0
    ensures p.time + Quotient(q.time - p.time, SubIntervals(p, q)) >= q.time
  {
  }

  lemma FirstStep(p: Key, q: Key)
    requires Abs(q.value - p.value) >= HALF_TURN
    ensures var n := SubIntervals(p, q);
            n >= 1.0 && StepKey(p, q, 1) ==
                Key(p.time + Quotient(q.time - p.time, n), p.value + Quotient(q.value - p.value, n))
  {
  }

  lemma NextStep(p: Key, q: Key, j: nat)
    requires Abs(q.value - p.value) >= HALF_TURN
    ensures var n, k := SubIntervals(p, q), StepKey(p, q, j);
            n >= 1.0 && StepKey(p, q, j + 1) ==
                Key(k.time + Quotient(q.time - p.time, n), k.value + Quotient(q.value - p.value, n))
  {
  }

  /** The keys to insert between p and q, found step by step. */
  method Interpolate(p: Key, q: Key) returns (times: seq<real>, values: seq<real>)
    requires Abs(q.value - p.value) >= HALF_TURN
    ensures |times| == |values| && Zip(times, values) == Between(p, q)
  {
    var numSubIntervals := Abs(q.value - p.value) / HALF_TURN;
    assert numSubIntervals == SubIntervals(p, q);
    hide StepKey, Quotient, SubIntervals, NaturalsBelow;
    FirstStep(p, q);
    var step := Quotient(q.value - p.value, numSubIntervals);
    var nextValue := p.value + step;
    var interval := Quotient(q.time - p.time, numSubIntervals);
    var nextTime := p.time + interval;
    times, values := [], [];
    if q.time <= p.time {
      EmptyStep(p, q);
    }
    while nextTime < q.time
      invariant q.time > p.time || nextTime >= q.time
      invariant |times| == |values| <= NaturalsBelow(numSubIntervals)
      invariant q.time <= p.time ==> times == []
      invariant Key(nextTime, nextValue) == StepKey(p, q, |times| + 1)
      invariant forall j :: 0 <= j < |times| ==> Key(times[j], values[j]) == StepKey(p, q, j + 1)
      decreases NaturalsBelow(numSubIntervals) - |times|
    {
      StepTimes(p, q, |times| + 1);
      NextStep(p, q, |times| + 1);
      times := times + [nextTime];
      nextTime := nextTime + interval;
      values := values + [nextValue];
      nextValue := nextValue + step;
    }
    if q.time > p.time {
      StepTimes(p, q, |times| + 1);
      BetweenLength(p, q);
    }
  }

  lemma ZipInject(times: seq<real>, values: seq<real>, i: nat, moreTimes: seq<real>, moreValues: seq<real>)
    requires |moreTimes| == |moreValues| && i <= |times| && i <= |values|
    ensures Zip(Inject(times, i, moreTimes), Inject(values, i, moreValues)) ==
        Inject(Zip(times, values), i, Zip(moreTimes, moreValues))
  {
  }

  /** Times without a value and values without a time. */
  function SpareOf(times: seq<real>, values: seq<real>): (spare: (seq<real>, seq<real>))
    ensures var n := Least(|times|, |values|); |times| == n + |spare.0| && |values| == n + |spare.1|
  {
    var n := Least(|times|, |values|);
    (times[n..], values[n..])
  }

  lemma TailInject(list: seq<real>, i: nat, n: nat, more: seq<real>)
    requires i <= n <= |list|
    ensures n + |more| <= |Inject(list, i, more)| && Inject(list, i, more)[n + |more|..] == list[n..]
  {
  }

  /** They stay past the keys. */
  lemma SpareInject(times: seq<real>, values: seq<real>, i: nat, moreTimes: seq<real>, moreValues: seq<real>)
    requires |moreTimes| == |moreValues| && i <= |times| && i <= |values|
    ensures SpareOf(Inject(times, i, moreTimes), Inject(values, i, moreValues)) == SpareOf(times, values)
  {
    var n := Least(|times|, |values|);
    TailInject(times, i, n, moreTimes);
    TailInject(values, i, n, moreValues);
  }

  /** The first e keys are the expansion of the first j of the old ones, the rest the old ones from j on. */
  ghost predicate Halfway(now: seq<Key>, keys: seq<Key>, j: nat, e: nat) {
    j <= |keys| && e <= |now| && now[..e] == Expanded(keys[..j]) && now[e..] == keys[j..]
  }

  lemma HalfwayStarts(keys: seq<Key>)
    ensures if keys == [] then Halfway(keys, keys, 0, 0) else Halfway(keys, keys, 1, 1)
  {
  }

  lemma HalfwayEnds(now: seq<Key>, keys: seq<Key>, j: nat, e: nat)
    requires Halfway(now, keys, j, e)
    ensures e <= |now| && j <= |keys| && (e == |now| ==> now == Expanded(keys))
  {
    if e == |now| {
      assert now[..e] == now && keys[..j] == keys;
    }
  }

  lemma InjectNothing<T>(now: seq<T>, i: nat)
    ensures Inject(now, i, []) == now
  {
  }

  lemma ExpandedOnce(keys: seq<Key>, j: nat)
    requires 0 < j < |keys|
    ensures Expanded(keys[..j + 1]) == Expanded(keys[..j]) + Between(keys[j - 1], keys[j]) + [keys[j]]
  {
    assert keys[..j + 1][..j] == keys[..j];
  }

  lemma InjectParts(now: seq<Key>, e: nat, more: seq<Key>)
    requires e < |now|
    ensures |Inject(now, e, more)| == |now| + |more|
    ensures Inject(now, e, more)[..e + |more| + 1] == now[..e] + more + [now[e]]
    ensures Inject(now, e, more)[e + |more| + 1..] == now[e..][1..]
  {
  }

  lemma HalfwayHere(now: seq<Key>, keys: seq<Key>, j: nat, e: nat)
    requires Halfway(now, keys, j, e) && 0 < j && e < |now|
    ensures j < |keys| && e > 0 && now[e - 1] == keys[j - 1] && now[e] == keys[j]
  {
  }

  lemma HalfwayOnce(now: seq<Key>, keys: seq<Key>, j: nat, e: nat)
    requires Halfway(now, keys, j, e) && 0 < j && e < |now|
    ensures j < |keys| && e > 0 && now[e - 1] == keys[j - 1] && now[e] == keys[j]
    ensures var more := Between(keys[j - 1], keys[j]); Halfway(Inject(now, e, more), keys, j + 1, e + |more| + 1)
  {
    hide Expanded, Between, Inject;
    HalfwayHere(now, keys, j, e);
    ExpandedOnce(keys, j);
    InjectParts(now, e, Between(keys[j - 1], keys[j]));
    assert keys[j + 1..] == keys[j..][1..];
  }

  lemma HalfwayFits(now: seq<Key>, keys: seq<Key>, j: nat, e: nat)
    requires Halfway(now, keys, j, e)
    ensures j <= |keys| && e <= |now|
  {
  }

  /** Inside the expanded part there is nothing to insert. */
  lemma HalfwayQuiet(now: seq<Key>, keys: seq<Key>, j: nat, e: nat, i: nat)
    requires Halfway(now, keys, j, e) && 0 < i < e
    ensures Between(now[i - 1], now[i]) == []
  {
    NothingMoreToInsert(keys[..j], i - 1);
    assert now[..e][i - 1] == now[i - 1] && now[..e][i] == now[i];
  }

  class Curve {
    var times: seq<real>
    var values: seq<real>

    constructor (times: seq<real>, values: seq<real>)
      ensures this.times == times && this.values == values
    {
      this.times, this.values := times, values;
    }

    /** Only the common part of times and values holds keys. */
    function Keys(): (keys: seq<Key>)
      reads this
      ensures |keys| == Least(|times|, |values|)
    {
      Zip(times, values)
    }

    function Spare(): (spare: (seq<real>, seq<real>))
      reads this
      ensures |times| == |Keys()| + |spare.0| && |values| == |Keys()| + |spare.1|
    {
      SpareOf(times, values)
    }

    /** The keys to insert before key i are put in.  Where a key has no time, every comparison fails and nothing is
        inserted. */
    method InjectAt(i: nat)
      requires 0 < i < |values|
      modifies this
      ensures Spare() == old(Spare())
      ensures i < |old(Keys())| ==> Keys() == Inject(old(Keys()), i, Between(old(Keys())[i - 1], old(Keys())[i]))
      ensures i >= |old(Keys())| ==> Keys() == old(Keys())
    {
      var interpolatedTimes, interpolatedValues := [], [];
      if i < |times| {
        var p, q := Key(times[i - 1], values[i - 1]), Key(times[i], values[i]);
        assert p == Keys()[i - 1] && q == Keys()[i];
        if Abs(q.value - p.value) >= HALF_TURN {
          interpolatedTimes, interpolatedValues := Interpolate(p, q);
        }
        hide Between;
        ZipInject(times, values, i, interpolatedTimes, interpolatedValues);
        SpareInject(times, values, i, interpolatedTimes, interpolatedValues);
      } else {
        InjectNothing(times, i);
        InjectNothing(values, i);
      }
      hide Inject, Zip, SpareOf;
      times := Inject(times, i, interpolatedTimes);
      values := Inject(values, i, interpolatedValues);
    }

    /** The loop walks over the arrays while it makes them longer. */
    method InterpolateRotations()
      modifies this
      ensures Keys() == Expanded(old(Keys())) && Spare() == old(Spare())
    {
      hide Expanded, Between, Halfway, Inject;
      ghost var keys := Keys();
      var i := 1;
      ghost var j: nat := if keys == [] then 0 else 1;
      ghost var e: nat := j;
      HalfwayStarts(keys);
      while i < |values|
        invariant Halfway(Keys(), keys, j, e) && Spare() == old(Spare())
        invariant i > 0 && e <= |Keys()| && (i <= e || e == |Keys()|) && (j == 0 ==> keys == [] == Keys())
        decreases |keys| - j, |values| - i
      {
        if i < e {
          HalfwayQuiet(Keys(), keys, j, e, i);
          InjectNothing(Keys(), i);
        } else if i < |Keys()| {
          ghost var more := Between(Keys()[i - 1], Keys()[i]);
          HalfwayOnce(Keys(), keys, j, e);
          HalfwayFits(Inject(Keys(), e, more), keys, j + 1, e + |more| + 1);
          j, e := j + 1, e + |more| + 1;
        }
        InjectAt(i);
        i := i + 1;
      }
      HalfwayEnds(Keys(), keys, j, e);
    }
  }
}
