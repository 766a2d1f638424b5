/**
  The calls into the connection pool come to an end: without new calls, released wrappers and spurious wake-ups
  only so many steps are left, and when none is left every caller has its connection or all of them are lent.
 */
module PoolProgress {
  import opened Wrappers
  import Sums
  import opened ConnectionPool

  /** Steps inside a call that is under way. */
  predicate Internal(step: Step) {
    step.Lock? || step.Check? || step.Take? || step.Put? || step.Notify?
  }

  /** How many internal steps a thread may still take, and cause.  Notifying lets a sleeper take three more. */
  function Work(p: Pc): nat {
    match p
    case Idle => 0
    case Asleep => 0
    case Taking(_) => 1
    case Checking(_) => 2
    case Entering => 3
    case Woken => 3
    case Notifying => 4
    case Putting(_) => 5
    case Returning(_) => 6
  }

  function WorkLeft(s: State, n: nat): nat { Sums.Sum(s.pc, Work, n) }

  ghost predicate ThreadsBelow(s: State, n: nat) { forall t :: t in s.pc ==> t < n }

  lemma WorkAfter(s: State, t: Thread, p: Pc, n: nat)
    requires t in s.pc && t < n
    ensures WorkLeft(At(s, t, p), n) == WorkLeft(s, n) - Work(s.pc[t]) + Work(p)
  {
    Sums.SumDiffers(s.pc, At(s, t, p).pc, Work, n, t);
  }

  /** A step of one thread leaves the work of the others as it is. */
  lemma OneThreadWorks(s: State, s': State, t: Thread, n: nat)
    requires t in s.pc && t in s'.pc && s'.pc == s.pc[t := s'.pc[t]] && t < n
    ensures WorkLeft(s', n) == WorkLeft(s, n) - Work(s.pc[t]) + Work(s'.pc[t])
  {
    WorkAfter(s, t, s'.pc[t], n);
  }

  /** Every internal step uses up work. */
  lemma InternalStepWorks(s: State, step: Step, n: nat)
    requires Internal(step) && Enabled(s, step) && Safe(s, step) && ThreadsBelow(s, n)
    ensures WorkLeft(Next(s, step), n) < WorkLeft(s, n)
    ensures Next(s, step).pc.Keys == s.pc.Keys
  {
    hide WorkLeft;
    if step.Notify? && step.sleeper.Some? {
      WorkAfter(s, step.t, Idle, n);
      WorkAfter(At(s, step.t, Idle), step.sleeper.value, Woken, n);
    } else {
      OneThreadWorks(s, Next(s, step), step.t, n);
    }
  }

  /** Without new calls, releases and spurious wake-ups at most as many steps follow as there is work left. */
  lemma {:induction false} InternalStepsEnd(states: seq<State>, steps: seq<Step>, i: nat, j: nat, n: nat)
    requires IsRun(states, steps) && i <= j < |states| && ThreadsBelow(states[i], n)
    requires forall l :: i <= l < j ==> Internal(steps[l])
    ensures j - i + WorkLeft(states[j], n) <= WorkLeft(states[i], n)
    ensures states[j].pc.Keys == states[i].pc.Keys
  {
    hide WorkLeft, Next, Enabled;
    if i < j {
      InternalStepsEnd(states, steps, i, j - 1, n);
      assert Enabled(states[j - 1], steps[j - 1]) && states[j - 1 + 1] == Next(states[j - 1], steps[j - 1]);
      InternalStepWorks(states[j - 1], steps[j - 1], n);
    }
  }

  /** Nothing is left to do inside the calls. */
  ghost predicate Quiet(s: State) { forall step: Step :: Internal(step) ==> !Enabled(s, step) }

  lemma {:induction false} Bound(s: set<nat>) returns (b: nat)
    ensures forall x :: x in s ==> x < b
  {
    b := 0;
    if s != {} {
      var y :| y in s;
      b := Bound(s - {y});
      b := if y < b then b else y + 1;
      assert forall x :: x in s ==> x == y || x in s - {y};
    }
  }

  /** When nothing is left to do, every thread is outside the pool or asleep, and a sleeper means that every
      connection is lent to a live wrapper. */
  lemma QuietMeansServedOrAllLent(states: seq<State>, steps: seq<Step>, k: nat)
    requires IsRun(states, steps) && k < |states| && Quiet(states[k])
    ensures forall t :: t in states[k].pc ==> states[k].pc[t].Idle? || states[k].pc[t].Asleep?
    ensures SomeoneAsleep(states[k]) ==>
              forall c :: Some(c) in states[0].pool ==>
                exists w :: w in states[k].wrappers && states[k].wrappers[w] == Some(c)
  {
    var s := states[k];
    var w := Bound(s.wrappers.Keys);
    forall t | t in s.pc ensures s.pc[t].Idle? || s.pc[t].Asleep? {
      if !s.pc[t].Idle? && !s.pc[t].Asleep? {
        SomebodyInsideCanStep(states, steps, k, t, w);
      }
    }
    if SomeoneAsleep(s) {
      forall c | Some(c) in states[0].pool ensures exists w :: w in s.wrappers && s.wrappers[w] == Some(c) {
        BlockedMeansAllLent(states, steps, k, c);
      }
    }
  }

  /** Every run can go on by internal steps alone until nothing is left to do. */
  lemma {:induction false} CallsCanBeFinished(states: seq<State>, steps: seq<Step>, n: nat)
    returns (allStates: seq<State>, allSteps: seq<Step>)
    requires IsRun(states, steps) && ThreadsBelow(states[|steps|], n)
    ensures IsRun(allStates, allSteps) && states <= allStates && steps <= allSteps
    ensures forall l :: |steps| <= l < |allSteps| ==> Internal(allSteps[l])
    ensures Quiet(allStates[|allSteps|])
    decreases WorkLeft(states[|steps|], n)
  {
    var s := states[|steps|];
    if step: Step :| Internal(step) && Enabled(s, step) {
      RunsNeverFault(states, steps, |steps|, step);
      hide WorkLeft, Enabled, Next, Safe;
      InternalStepWorks(s, step, n);
      allStates, allSteps := CallsCanBeFinished(states + [Next(s, step)], steps + [step], n);
      assert steps + [step] <= allSteps;
    } else {
      allStates, allSteps := states, steps;
    }
  }

  /** However a run goes on by internal steps, it is at an end after as many as there was work left: then every
      thread has been served or sleeps, and it sleeps only if all connections are lent. */
  lemma EveryServiceEnds(states: seq<State>, steps: seq<Step>, i: nat, j: nat, n: nat)
    requires IsRun(states, steps) && i <= j < |states| && ThreadsBelow(states[i], n)
    requires forall l :: i <= l < j ==> Internal(steps[l])
    ensures j - i <= WorkLeft(states[i], n)
    ensures j - i == WorkLeft(states[i], n) ==> Quiet(states[j])
  {
    InternalStepsEnd(states, steps, i, j, n);
    if j - i == WorkLeft(states[i], n) {
      forall step: Step | Internal(step) ensures !Enabled(states[j], step) {
        if Enabled(states[j], step) {
          RunsNeverFault(states, steps, j, step);
          InternalStepWorks(states[j], step, n);
        }
      }
    }
  }
}
