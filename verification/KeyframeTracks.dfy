/** Merging the curves of three axes into one track of the animation loader. */
module KeyframeTracks {
  import opened Wrappers
  import opened Sorting

  datatype Axis = Axis(times: seq<real>, values: seq<real>) {
    /** The value at an index: a key past the end of the values is undefined. */
    function Value(i: nat): Option<real> { if i < |values| then Some(values[i]) else None }
  }

  /** An axis without a curve is None. */
  datatype Curves = Curves(x: Option<Axis>, y: Option<Axis>, z: Option<Axis>)

  function TimesOf(axis: Option<Axis>): seq<real> { if axis.Some? then axis.value.times else [] }

  // ---------------------------------------------------------------------------------------------
  // Times

  function Identity(t: real): real { t }

  /** Appending a later time. */
  lemma IncreasingOneMore(kept: seq<real>, t: real)
    requires StrictlyIncreasing(kept) && (kept != [] ==> kept[|kept| - 1] < t)
    ensures StrictlyIncreasing(kept + [t])
  {
    assert forall k :: 0 <= k < |kept| ==> kept[k] <= kept[|kept| - 1];
  }

  /** Of sorted times, one more is seen: it is the last one kept, or it is kept now. */
  lemma SeenOneMore(all: seq<real>, i: nat, kept: seq<real>, next: seq<real>)
    requires i < |all| && forall t :: t in kept <==> t in all[..i]
    requires next == kept + [all[i]] || (next == kept && all[i] in kept)
    ensures forall t :: t in next <==> t in all[..i + 1]
  {
    assert all[..i + 1] == all[..i] + [all[i]];
  }

  /** Sorted times are made different in place; the first n are kept. */
  method RemoveDuplicates(times: array<real>) returns (n: nat)
    requires SortedBy(times[..], Identity)
    modifies times
    ensures n <= times.Length && StrictlyIncreasing(times[..n])
    ensures forall t :: t in times[..n] <==> t in old(times[..])
  {
    if times.Length <= 1 {
      return times.Length;
    }
    ghost var all := times[..];
    n := 1;
    var lastValue := times[0];
    for i := 1 to times.Length
      invariant 1 <= n <= i && lastValue == times[n - 1] == all[i - 1]
      invariant forall k :: i <= k < times.Length ==> times[k] == all[k]
      invariant StrictlyIncreasing(times[..n])
      invariant forall t :: t in times[..n] <==> t in all[..i]
    {
      var currentValue := times[i];
      assert Identity(all[i - 1]) <= Identity(all[i]);
      ghost var kept := times[..n];
      assert kept[n - 1] == lastValue;
      hide StrictlyIncreasing;
      if currentValue != lastValue {
        times[n] := currentValue;
        lastValue := currentValue;
        n := n + 1;
        assert times[..n] == kept + [currentValue];
        IncreasingOneMore(kept, currentValue);
      }
      SeenOneMore(all, i, kept, times[..n]);
    }
    assert all[..times.Length] == all;
  }

  /** The times of all axes, in increasing order, each once. */
  method GetTimesForAllAxes(curves: Curves) returns (times: seq<real>)
    ensures StrictlyIncreasing(times)
    ensures forall t :: t in times <==> t in TimesOf(curves.x) || t in TimesOf(curves.y) || t in TimesOf(curves.z)
  {
    var joined := TimesOf(curves.x) + TimesOf(curves.y) + TimesOf(curves.z);
    var sorted := Sort(joined, Identity);
    assert forall t :: t in joined <==> t in multiset(joined);
    assert forall t :: t in sorted <==> t in multiset(sorted);
    var a := new real[|sorted|](i requires 0 <= i < |sorted| => sorted[i]);
    assert a[..] == sorted;
    var n := RemoveDuplicates(a);
    times := a[..n];
  }

  lemma LastIsGreatest(s: seq<real>)
    requires StrictlyIncreasing(s) && s != []
    ensures forall v :: v in s ==> v <= s[|s| - 1]
    ensures s[|s| - 1] !in s[..|s| - 1]
  {
  }

  lemma LastInOther(s: seq<real>, t: seq<real>)
    requires StrictlyIncreasing(s) && StrictlyIncreasing(t) && s != [] && forall v :: v in s <==> v in t
    ensures t != [] && s[|s| - 1] == t[|t| - 1]
  {
    assert s[|s| - 1] in s;
    LastIsGreatest(s);
    LastIsGreatest(t);
    assert t[|t| - 1] in t;
  }

  lemma FrontMember(s: seq<real>, v: real)
    requires s != [] && StrictlyIncreasing(s)
    ensures v in s[..|s| - 1] <==> v in s && v != s[|s| - 1]
  {
  }

  /** There is only one increasing list with given members. */
  lemma {:induction false} IncreasingListIsUnique(s: seq<real>, t: seq<real>)
    requires StrictlyIncreasing(s) && StrictlyIncreasing(t) && forall v :: v in s <==> v in t
    ensures s == t
    decreases |s|
  {
    assert t != [] ==> t[0] in t;
    if s != [] {
      LastInOther(s, t);
      var sFront, tFront := s[..|s| - 1], t[..|t| - 1];
      forall v ensures v in sFront <==> v in tFront {
        FrontMember(s, v);
        FrontMember(t, v);
      }
      IncreasingListIsUnique(sFront, tFront);
      assert s == sFront + [s[|s| - 1]] && t == tFront + [t[|t| - 1]];
    }
  }

  // ---------------------------------------------------------------------------------------------
  // Values

  /** The first index of the time, if it is there. */
  function IndexOf(s: seq<real>, time: real): (r: int)
    ensures -1 <= r < |s|
    ensures r == -1 <==> time !in s
    ensures r >= 0 ==> s[r] == time && time !in s[..r]
  {
    if s == [] then -1
    else
      var front := s[..|s| - 1];
      assert s == front + [s[|s| - 1]];
      var r := IndexOf(front, time);
      if r >= 0 then assert s[..r] == front[..r]; r
      else if s[|s| - 1] == time then |s| - 1
      else -1
  }

  /** The value of one axis in frame k: its key at that time, or else its value in the frame before. */
  function ValueAt(axis: Option<Axis>, times: seq<real>, k: nat, initial: Option<real>): Option<real>
    requires k < |times|
  {
    var i := IndexOf(TimesOf(axis), times[k]);
    if i >= 0 then axis.value.Value(i)
    else if k == 0 then initial
    else ValueAt(axis, times, k - 1, initial)
  }

  /** The value before frame k. */
  function Before(axis: Option<Axis>, times: seq<real>, k: nat, initial: Option<real>): Option<real>
    requires k <= |times|
  {
    if k == 0 then initial else ValueAt(axis, times, k - 1, initial)
  }

  /** One component of one frame. */
  method NextValue(axis: Option<Axis>, time: real, prevValue: array<Option<real>>, component: nat)
    returns (value: Option<real>)
    requires component < prevValue.Length
    modifies prevValue
    ensures value == if time in TimesOf(axis)
        then axis.value.Value(IndexOf(TimesOf(axis), time)) else old(prevValue[component])
    ensures prevValue[..] == old(prevValue[..])[component := value]
  {
    var index := if axis.Some? then IndexOf(axis.value.times, time) else -1;
    if index != -1 {
      value := axis.value.Value(index);
      prevValue[component] := value;
    } else {
      value := prevValue[component];
    }
  }

  /** The first values of the axes. */
  datatype Initial = Initial(x: Option<real>, y: Option<real>, z: Option<real>)

  /** The values of the first n frames. */
  function Track(curves: Curves, times: seq<real>, n: nat, initial: Initial): seq<Option<real>>
    requires n <= |times|
  {
    if n == 0 then []
    else Track(curves, times, n - 1, initial)
         + [ValueAt(curves.x, times, n - 1, initial.x), ValueAt(curves.y, times, n - 1, initial.y),
           ValueAt(curves.z, times, n - 1, initial.z)]
  }

  lemma {:induction false} TrackEntries(curves: Curves, times: seq<real>, n: nat, initial: Initial, k: nat)
    requires k < n <= |times|
    ensures |Track(curves, times, n, initial)| == 3 * n
    ensures Track(curves, times, n, initial)[3 * k] == ValueAt(curves.x, times, k, initial.x)
    ensures Track(curves, times, n, initial)[3 * k + 1] == ValueAt(curves.y, times, k, initial.y)
    ensures Track(curves, times, n, initial)[3 * k + 2] == ValueAt(curves.z, times, k, initial.z)
  {
    hide ValueAt;
    if k < n - 1 {
      TrackEntries(curves, times, n - 1, initial, k);
    } else if n > 1 {
      TrackEntries(curves, times, n - 1, initial, 0);
    }
  }

  /** The latest values are kept in the array. */
  ghost predicate Keeps(curves: Curves, times: seq<real>, k: nat, initial: Initial, a: array<Option<real>>)
    requires k <= |times| && a.Length >= 3
    reads a
  {
    && a[0] == Before(curves.x, times, k, initial.x)
    && a[1] == Before(curves.y, times, k, initial.y)
    && a[2] == Before(curves.z, times, k, initial.z)
  }

  method NextFrame(curves: Curves, times: seq<real>, k: nat, ghost initial: Initial, prevValue: array<Option<real>>)
    returns (frame: seq<Option<real>>)
    requires k < |times| && prevValue.Length >= 3 && Keeps(curves, times, k, initial, prevValue)
    modifies prevValue
    ensures Keeps(curves, times, k + 1, initial, prevValue) && prevValue[3..] == old(prevValue[3..])
    ensures frame == [ValueAt(curves.x, times, k, initial.x), ValueAt(curves.y, times, k, initial.y),
        ValueAt(curves.z, times, k, initial.z)]
  {
    var xValue := NextValue(curves.x, times[k], prevValue, 0);
    var yValue := NextValue(curves.y, times[k], prevValue, 1);
    var zValue := NextValue(curves.z, times[k], prevValue, 2);
    frame := [xValue, yValue, zValue];
  }

  /** Three values for each time, undefined where the key had none.  The initial value is overwritten with the latest
      ones on the way. */
  method GetKeyframeTrackValues(times: seq<real>, curves: Curves, initialValue: array<Option<real>>)
    returns (values: seq<Option<real>>)
    requires initialValue.Length >= 3
    modifies initialValue
    ensures var initial := Initial(old(initialValue[0]), old(initialValue[1]), old(initialValue[2]));
            values == Track(curves, times, |times|, initial) && Keeps(curves, times, |times|, initial, initialValue)
    ensures initialValue[3..] == old(initialValue[3..])
  {
    hide ValueAt;
    ghost var initial := Initial(initialValue[0], initialValue[1], initialValue[2]);
    values := [];
    for k := 0 to |times|
      invariant values == Track(curves, times, k, initial) && Keeps(curves, times, k, initial, initialValue)
      invariant initialValue[3..] == old(initialValue[3..])
    {
      var frame := NextFrame(curves, times, k, initial, initialValue);
      values := values + frame;
    }
  }

  /** Key i is the axis's latest up to a time; of keys with one time it is the first listed. */
  ghost predicate IsLatest(axis: Axis, i: nat, time: real) {
    && i < |axis.times| && axis.times[i] <= time && axis.times[i] !in axis.times[..i]
    && forall t :: t in axis.times && t <= time ==> t <= axis.times[i]
  }

  ghost predicate IsValueAt(axis: Option<Axis>, time: real, initial: Option<real>, value: Option<real>) {
    if exists t :: t in TimesOf(axis) && t <= time
    then axis.Some? && exists i: nat :: IsLatest(axis.value, i, time) && value == axis.value.Value(i)
    else value == initial
  }

  /** With the times of all axes in order, the value of an axis in a frame is that of its latest key up to then,
      or the initial one if there is none yet. */
  lemma {:induction false} LatestKeyCounts(axis: Option<Axis>, times: seq<real>, k: nat, initial: Option<real>)
    requires k < |times| && StrictlyIncreasing(times)
    requires forall t :: t in TimesOf(axis) ==> t in times
    ensures IsValueAt(axis, times[k], initial, ValueAt(axis, times, k, initial))
  {
    var i := IndexOf(TimesOf(axis), times[k]);
    if i >= 0 {
      assert IsLatest(axis.value, i, times[k]);
    } else {
      forall t | t in TimesOf(axis) && t <= times[k] ensures k > 0 && t <= times[k - 1] {
        EarlierTime(times, k, t);
      }
      if k > 0 {
        LatestKeyCounts(axis, times, k - 1, initial);
        SameLatest(axis, times[k - 1], times[k], initial, ValueAt(axis, times, k - 1, initial));
      }
    }
  }

  /** A time before frame k is not after frame k - 1. */
  lemma EarlierTime(times: seq<real>, k: nat, t: real)
    requires StrictlyIncreasing(times) && k < |times| && t in times && t < times[k]
    ensures k > 0 && t <= times[k - 1]
  {
  }

  /** No key comes between two times. */
  lemma SameLatest(axis: Option<Axis>, before: real, time: real, initial: Option<real>, value: Option<real>)
    requires before <= time && IsValueAt(axis, before, initial, value)
    requires forall t :: t in TimesOf(axis) && t <= time ==> t <= before
    ensures IsValueAt(axis, time, initial, value)
  {
  }

  /** The merged track: three values for each time of any axis, each that of the axis's latest key. */
  lemma MergedTrack(curves: Curves, times: seq<real>, initial: Initial, k: nat)
    requires k < |times| && StrictlyIncreasing(times)
    requires forall t :: t in times <==> t in TimesOf(curves.x) || t in TimesOf(curves.y) || t in TimesOf(curves.z)
    ensures var values := Track(curves, times, |times|, initial);
            && |values| == 3 * |times|
            && IsValueAt(curves.x, times[k], initial.x, values[3 * k])
            && IsValueAt(curves.y, times[k], initial.y, values[3 * k + 1])
            && IsValueAt(curves.z, times[k], initial.z, values[3 * k + 2])
  {
    hide ValueAt, Track, IsValueAt;
    TrackEntries(curves, times, |times|, initial, k);
    LatestKeyCounts(curves.x, times, k, initial.x);
    LatestKeyCounts(curves.y, times, k, initial.y);
    LatestKeyCounts(curves.z, times, k, initial.z);
  }
}
