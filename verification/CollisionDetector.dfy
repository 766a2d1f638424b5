/** Which items a moving gatherer passes close enough to collect, and when. */
module CollisionDetector {
  import opened Geometry
  import opened Sorting

  datatype CollectionResult = CollectionResult(sqDistance: real, projRatio: real) {
    predicate IsCollected(collectRadius: real) {
      0.0 <= projRatio <= 1.0 && sqDistance <= collectRadius * collectRadius
    }
  }

  datatype Item = Item(position: Vec, width: real)

  datatype Gatherer = Gatherer(startPos: Vec, endPos: Vec, width: real)

  datatype GatheringEvent = GatheringEvent(itemId: nat, gathererId: nat, sqDistance: real, time: real)

  /** The two numbers, for the way v and the item at u, both seen from the start of the way. */
  function ResultFor(u: Vec, v: Vec): CollectionResult
    requires v != ORIGIN
  {
    LengthSign(v);
    ResultFrom(SqLen(u), Dot(u, v), SqLen(v))
  }

  function ResultFrom(uLen2: real, uDotV: real, vLen2: real): CollectionResult
    requires vLen2 > 0.0
  {
    CollectionResult(uLen2 - uDotV * uDotV / vLen2, uDotV / vLen2)
  }

  /** The gatherer moves from a to b past the point c. */
  function TryCollectPoint(a: Vec, b: Vec, c: Vec): CollectionResult
    requires a != b
  {
    ResultFor(Sub(c, a), Sub(b, a))
  }

  // ---------------------------------------------------------------------------------------------
  // What the two numbers mean

  /** The vector from the item to the point at the fraction t of the way. */
  function Gap(u: Vec, v: Vec, t: real): Vec { Vec(Times(t, v.x) - u.x, Times(t, v.y) - u.y) }

  lemma GapIsDifference(a: Vec, b: Vec, c: Vec, t: real)
    ensures Sub(Along(a, b, t), c) == Gap(Sub(c, a), Sub(b, a), t)
  {
  }

  /** Pythagoras about the foot of the perpendicular. */
  lemma GapSplitsAtFoot(u: Vec, v: Vec, t: real)
    requires v != ORIGIN
    ensures var r := ResultFor(u, v);
            SqLen(Gap(u, v, t)) == r.sqDistance + Square(t - r.projRatio) * SqLen(v)
  {
    LengthSign(v);
    ExpandDistance(u, v, t);
    CompleteSquare(SqLen(u), Dot(u, v), SqLen(v), t);
  }

  /** The squared distance from c to any point of the line is the smallest one plus the squared way
      from the foot of the perpendicular. */
  lemma DistanceSplitsAtFoot(a: Vec, b: Vec, c: Vec, t: real)
    requires a != b
    ensures var r := TryCollectPoint(a, b, c);
            SqDist(Along(a, b, t), c) == r.sqDistance + Square(t - r.projRatio) * SqLen(Sub(b, a))
  {
    GapIsDifference(a, b, c, t);
    GapSplitsAtFoot(Sub(c, a), Sub(b, a), t);
  }

  lemma ExpandDistance(u: Vec, v: Vec, t: real)
    ensures SqLen(Gap(u, v, t)) == SqLen(u) - 2.0 * (t * Dot(u, v)) + t * t * SqLen(v)
  {
  }

  lemma CompleteSquare(uu: real, d: real, l: real, t: real)
    requires l > 0.0
    ensures var r := ResultFrom(uu, d, l);
            uu - 2.0 * (t * d) + t * t * l == r.sqDistance + Square(t - r.projRatio) * l
  {
  }

  lemma FootAtDistance(u: Vec, v: Vec)
    requires v != ORIGIN
    ensures var r := ResultFor(u, v); 0.0 <= r.sqDistance == SqLen(Gap(u, v, r.projRatio))
  {
    hide ResultFor, Gap, SqLen;
    var r := ResultFor(u, v);
    GapSplitsAtFoot(u, v, r.projRatio);
    LengthSign(Gap(u, v, r.projRatio));
    assert Square(r.projRatio - r.projRatio) == 0.0;
    ZeroFactor(SqLen(v));
  }

  lemma FootIsNearest(u: Vec, v: Vec, t: real)
    requires v != ORIGIN
    ensures var r := ResultFor(u, v);
            0.0 <= r.sqDistance == SqLen(Gap(u, v, r.projRatio)) <= SqLen(Gap(u, v, t))
  {
    hide ResultFor, Gap, SqLen, Square;
    var r := ResultFor(u, v);
    FootAtDistance(u, v);
    GapSplitsAtFoot(u, v, t);
    LengthSign(v);
    SquareSign(t - r.projRatio);
    Undercut(r.sqDistance, Square(t - r.projRatio), SqLen(v));
  }

  /** sqDistance is the squared distance of c to the line through a and b: attained at projRatio and
      nowhere undercut. */
  lemma SqDistanceIsTheMinimum(a: Vec, b: Vec, c: Vec, t: real)
    requires a != b
    ensures var r := TryCollectPoint(a, b, c);
            0.0 <= r.sqDistance == SqDist(Along(a, b, r.projRatio), c) <= SqDist(Along(a, b, t), c)
  {
    FootIsNearest(Sub(c, a), Sub(b, a), t);
    GapIsDifference(a, b, c, t);
    GapIsDifference(a, b, c, TryCollectPoint(a, b, c).projRatio);
  }

  lemma ZeroFactor(x: real)
    ensures 0.0 * x == 0.0
  {
  }

  lemma Undercut(least: real, x: real, y: real)
    requires x >= 0.0 && y >= 0.0
    ensures least <= least + x * y
  {
  }

  /** An item is collected exactly when the foot of the perpendicular is on the segment and some point
      of the segment is within the radius. */
  lemma CollectedIff(a: Vec, b: Vec, c: Vec, radius: real)
    requires a != b
    ensures var r := TryCollectPoint(a, b, c);
            r.IsCollected(radius) <==>
            0.0 <= r.projRatio <= 1.0 &&
            exists t :: 0.0 <= t <= 1.0 && SqDist(Along(a, b, t), c) <= radius * radius
  {
    var r := TryCollectPoint(a, b, c);
    SqDistanceIsTheMinimum(a, b, c, 0.0);
    if r.IsCollected(radius) {
      assert SqDist(Along(a, b, r.projRatio), c) <= radius * radius;
    }
    if t :| 0.0 <= t <= 1.0 && SqDist(Along(a, b, t), c) <= radius * radius {
      SqDistanceIsTheMinimum(a, b, c, t);
    }
  }

  /** The foot of the perpendicular from c is between a and b. */
  predicate FootOnWay(a: Vec, b: Vec, c: Vec) { 0.0 <= Dot(Sub(c, a), Sub(b, a)) <= SqLen(Sub(b, a)) }

  ghost predicate PassesWithin(a: Vec, b: Vec, c: Vec, radius: real) {
    exists t :: 0.0 <= t <= 1.0 && SqDist(Along(a, b, t), c) <= radius * radius
  }

  lemma ShareOnWay(q: real, l: real, d: real)
    requires l > 0.0 && d == q * l
    ensures 0.0 <= q <==> 0.0 <= d
    ensures q <= 1.0 <==> d <= l
  {
  }

  lemma RatioOnWay(uLen2: real, d: real, l: real)
    requires l > 0.0
    ensures 0.0 <= ResultFrom(uLen2, d, l).projRatio <= 1.0 <==> 0.0 <= d <= l
  {
    ShareOnWay(d / l, l, d);
  }

  lemma FootIff(a: Vec, b: Vec, c: Vec)
    requires a != b
    ensures 0.0 <= TryCollectPoint(a, b, c).projRatio <= 1.0 <==> FootOnWay(a, b, c)
  {
    hide Dot, SqLen, ResultFrom;
    LengthSign(Sub(b, a));
    RatioOnWay(SqLen(Sub(c, a)), Dot(Sub(c, a), Sub(b, a)), SqLen(Sub(b, a)));
  }

  /** An item off the ends of the way is never collected, whatever the radius. */
  lemma NothingCollectedPastTheEnd(a: Vec, b: Vec, c: Vec, radius: real)
    requires a != b && !FootOnWay(a, b, c)
    ensures !TryCollectPoint(a, b, c).IsCollected(radius)
  {
    hide FootOnWay, TryCollectPoint;
    FootIff(a, b, c);
  }

  /** An item passed within the radius is collected exactly if its foot is on the way. */
  lemma PassedIsCollectedIff(a: Vec, b: Vec, c: Vec, radius: real)
    requires a != b && PassesWithin(a, b, c, radius)
    ensures TryCollectPoint(a, b, c).IsCollected(radius) <==> FootOnWay(a, b, c)
  {
    hide FootOnWay, TryCollectPoint, SqDist, Along;
    CollectedIff(a, b, c, radius);
    FootIff(a, b, c);
  }

  /** An item just behind the end is left, though the way ends within the radius of it. */
  lemma LeftBehindTheEnd(gap: real, radius: real)
    requires 0.0 < gap <= radius
    ensures var a, b, c := ORIGIN, Vec(1.0, 0.0), Vec(1.0 + gap, 0.0);
            PassesWithin(a, b, c, radius) && !TryCollectPoint(a, b, c).IsCollected(radius)
  {
    hide TryCollectPoint, FootOnWay, SqDist, Along;
    var a, b, c := ORIGIN, Vec(1.0, 0.0), Vec(1.0 + gap, 0.0);
    BehindTheEnd(gap);
    NothingCollectedPastTheEnd(a, b, c, radius);
    GapToTheEnd(gap);
    SmallerSquare(gap, radius);
    assert SqDist(Along(a, b, 1.0), c) <= radius * radius;
  }

  lemma BehindTheEnd(gap: real)
    requires 0.0 < gap
    ensures !FootOnWay(ORIGIN, Vec(1.0, 0.0), Vec(1.0 + gap, 0.0))
  {
  }

  lemma GapToTheEnd(gap: real)
    ensures SqDist(Along(ORIGIN, Vec(1.0, 0.0), 1.0), Vec(1.0 + gap, 0.0)) == gap * gap
  {
    assert Along(ORIGIN, Vec(1.0, 0.0), 1.0) == Vec(1.0, 0.0);
    assert Sub(Vec(1.0, 0.0), Vec(1.0 + gap, 0.0)) == Vec(-gap, 0.0);
  }

  // ---------------------------------------------------------------------------------------------
  // All events of a tick, in time order

  predicate Displaced(g: Gatherer) { g.startPos != g.endPos }

  /** The gatherer passes the item within the sum of their widths. */
  predicate Collects(g: Gatherer, item: Item) {
    Displaced(g) && TryCollectPoint(g.startPos, g.endPos, item.position).IsCollected(item.width + g.width)
  }

  /** A gatherer collects an item exactly if it moves, the foot of the perpendicular from the item is on its way, and
      the way leads through the sum of the widths around the item. */
  lemma CollectsIff(g: Gatherer, item: Item)
    ensures Collects(g, item) <==>
            && g.startPos != g.endPos
            && FootOnWay(g.startPos, g.endPos, item.position)
            && PassesWithin(g.startPos, g.endPos, item.position, item.width + g.width)
  {
    hide FootOnWay, TryCollectPoint, SqDist, Along;
    if g.startPos != g.endPos {
      CollectedIff(g.startPos, g.endPos, item.position, item.width + g.width);
      FootIff(g.startPos, g.endPos, item.position);
    }
  }

  lemma Quotient(d: real, l: real, q: real)
    requires l > 0.0
    ensures q * l == d <==> q == d / l
  {
  }

  /** The share of the way that is done at the foot of the perpendicular. */
  lemma TimeIsShareOfWay(a: Vec, b: Vec, c: Vec, t: real)
    requires a != b
    ensures t == TryCollectPoint(a, b, c).projRatio <==> t * SqLen(Sub(b, a)) == Dot(Sub(c, a), Sub(b, a))
  {
    hide Dot, SqLen;
    LengthSign(Sub(b, a));
    Quotient(Dot(Sub(c, a), Sub(b, a)), SqLen(Sub(b, a)), t);
  }

  function EventOf(items: seq<Item>, gatherers: seq<Gatherer>, g: nat, i: nat): GatheringEvent
    requires g < |gatherers| && i < |items| && Displaced(gatherers[g])
  {
    var r := TryCollectPoint(gatherers[g].startPos, gatherers[g].endPos, items[i].position);
    GatheringEvent(i, g, r.sqDistance, r.projRatio)
  }

  /** e is the event of a pair that meets. */
  predicate IsEvent(items: seq<Item>, gatherers: seq<Gatherer>, e: GatheringEvent) {
    && e.gathererId < |gatherers| && e.itemId < |items|
    && Collects(gatherers[e.gathererId], items[e.itemId])
    && e == EventOf(items, gatherers, e.gathererId, e.itemId)
  }

  /** The event of a gatherer and an item, in numbers: the gatherer collects the item, the time is the share of its way
      done at the foot of the perpendicular, and the distance is that of the item from there. */
  lemma EventIff(items: seq<Item>, gatherers: seq<Gatherer>, e: GatheringEvent)
    ensures IsEvent(items, gatherers, e) <==>
            && e.gathererId < |gatherers| && e.itemId < |items|
            && var g, item := gatherers[e.gathererId], items[e.itemId];
               && g.startPos != g.endPos
               && FootOnWay(g.startPos, g.endPos, item.position)
               && PassesWithin(g.startPos, g.endPos, item.position, item.width + g.width)
               && e.time * SqLen(Sub(g.endPos, g.startPos)) ==
                  Dot(Sub(item.position, g.startPos), Sub(g.endPos, g.startPos))
               && e.sqDistance == SqDist(Along(g.startPos, g.endPos, e.time), item.position)
  {
    hide FootOnWay, PassesWithin, TryCollectPoint, Dot, SqLen, SqDist, Along;
    if e.gathererId < |gatherers| && e.itemId < |items| {
      var g, item := gatherers[e.gathererId], items[e.itemId];
      CollectsIff(g, item);
      if g.startPos != g.endPos {
        TimeIsShareOfWay(g.startPos, g.endPos, item.position, e.time);
        SqDistanceIsTheMinimum(g.startPos, g.endPos, item.position, e.time);
      }
    }
  }

  /** Exactly one event for each pair that meets, for the pairs up to (g, i) in loop order. */
  ghost predicate EventsOfPairsBelow(items: seq<Item>, gatherers: seq<Gatherer>, events: seq<GatheringEvent>, g: nat,
      i: nat) {
    && (forall e :: e in events ==> IsEvent(items, gatherers, e) && Below(e, g, i))
    && (forall e :: IsEvent(items, gatherers, e) && Below(e, g, i) ==> e in events)
    && (forall e :: multiset(events)[e] <= 1)
  }

  predicate Below(e: GatheringEvent, g: nat, i: nat) {
    e.gathererId < g || (e.gathererId == g && e.itemId < i)
  }

  /** The events of all pairs that meet, each once, in non-decreasing time. */
  ghost predicate IsTimeline(items: seq<Item>, gatherers: seq<Gatherer>, events: seq<GatheringEvent>) {
    && SortedBy(events, (e: GatheringEvent) => e.time)
    && (forall e :: e in events <==> IsEvent(items, gatherers, e))
    && (forall j, k :: 0 <= j < k < |events| ==>
          !(events[j].itemId == events[k].itemId && events[j].gathererId == events[k].gathererId))
  }

  method FindGatherEvents(items: seq<Item>, gatherers: seq<Gatherer>) returns (events: seq<GatheringEvent>)
    ensures IsTimeline(items, gatherers, events)
  {
    var found: seq<GatheringEvent> := [];
    var g := 0;
    while g < |gatherers|
      invariant g <= |gatherers|
      invariant EventsOfPairsBelow(items, gatherers, found, g, 0)
    {
      var i := 0;
      while i < |items|
        invariant i <= |items|
        invariant EventsOfPairsBelow(items, gatherers, found, g, i)
      {
        var before := found;
        if Displaced(gatherers[g]) {
          var r := TryCollectPoint(gatherers[g].startPos, gatherers[g].endPos, items[i].position);
          if r.IsCollected(items[i].width + gatherers[g].width) {
            found := found + [GatheringEvent(i, g, r.sqDistance, r.projRatio)];
          }
        }
        OnePairMore(items, gatherers, before, g, i);
        i := i + 1;
      }
      RowDone(items, gatherers, found, g);
      g := g + 1;
    }
    events := Sort(found, (e: GatheringEvent) => e.time);
    AllPairsDone(items, gatherers, found, events);
  }

  lemma OnePairMore(items: seq<Item>, gatherers: seq<Gatherer>, events: seq<GatheringEvent>, g: nat, i: nat)
    requires g < |gatherers| && i < |items|
    requires EventsOfPairsBelow(items, gatherers, events, g, i)
    ensures EventsOfPairsBelow(items, gatherers,
              if Collects(gatherers[g], items[i]) then events + [EventOf(items, gatherers, g, i)] else events, g, i + 1)
  {
    if Collects(gatherers[g], items[i]) {
      var e := EventOf(items, gatherers, g, i);
      assert e !in events;
      assert multiset(events + [e]) == multiset(events) + multiset{e};
    }
  }

  lemma RowDone(items: seq<Item>, gatherers: seq<Gatherer>, events: seq<GatheringEvent>, g: nat)
    requires EventsOfPairsBelow(items, gatherers, events, g, |items|)
    ensures EventsOfPairsBelow(items, gatherers, events, g + 1, 0)
  {
  }

  lemma AllPairsDone(items: seq<Item>, gatherers: seq<Gatherer>, found: seq<GatheringEvent>,
      events: seq<GatheringEvent>)
    requires EventsOfPairsBelow(items, gatherers, found, |gatherers|, 0)
    requires multiset(events) == multiset(found)
    ensures forall e :: e in events <==> IsEvent(items, gatherers, e)
    ensures forall j, k :: 0 <= j < k < |events| ==>
              !(events[j].itemId == events[k].itemId && events[j].gathererId == events[k].gathererId)
  {
    forall e ensures e in events <==> IsEvent(items, gatherers, e) {
      assert e in events <==> e in multiset(events);
      assert e in found <==> e in multiset(found);
    }
    forall j, k | 0 <= j < k < |events|
      ensures !(events[j].itemId == events[k].itemId && events[j].gathererId == events[k].gathererId)
    {
      assert events[j] in events && events[k] in events;
      if events[j] == events[k] {
        TwiceInMultiset(events, j, k);
      }
    }
  }

  lemma TwiceInMultiset<T>(s: seq<T>, j: nat, k: nat)
    requires j < k < |s| && s[j] == s[k]
    ensures multiset(s)[s[j]] >= 2
  {
    assert s == s[..k] + [s[k]] + s[k + 1..];
    assert s[..k][j] == s[j];
    assert s[j] in multiset(s[..k]);
  }

  /** All event times lie in the tick, and every event is a real encounter: some point of the gatherer's
      way is within the summed widths of the item. */
  lemma EventsAreEncounters(items: seq<Item>, gatherers: seq<Gatherer>, events: seq<GatheringEvent>, e: GatheringEvent)
    requires IsTimeline(items, gatherers, events) && e in events
    ensures 0.0 <= e.time <= 1.0
    ensures var g, item := gatherers[e.gathererId], items[e.itemId];
            var radius := item.width + g.width;
            e.sqDistance == SqDist(Along(g.startPos, g.endPos, e.time), item.position) <= radius * radius
  {
    var g, item := gatherers[e.gathererId], items[e.itemId];
    SqDistanceIsTheMinimum(g.startPos, g.endPos, item.position, 0.0);
  }
}
