/**
  The database connection pool: a vector of connection slots, a counter of lent connections, a mutex
  and a condition variable, used by any number of threads.

  The protocol is a step system in which a thread is at one of the points where another thread can
  run.  The mutex is explicit, waking may be spurious, and notify_one happens after the mutex is released.
 */
module ConnectionPool {
  import opened Wrappers

  type Conn = nat
  type Thread = nat
  type Wrapper = nat

  /** Where a thread stands. */
  datatype Pc =
    | Idle
    | Entering                // called GetConnection, waits for the mutex
    | Checking(woken: bool)   // holds the mutex, about to evaluate the wait predicate
    | Taking(woken: bool)     // holds the mutex, the predicate was true
    | Asleep                  // inside the wait, mutex released
    | Woken                   // notified or woken spuriously, waits for the mutex
    | Returning(conn: Conn)   // a wrapper's destructor moved its connection out, waits for the mutex
    | Putting(conn: Conn)     // holds the mutex in ReturnConnection
    | Notifying               // released the mutex, notify_one still pending
  {
    predicate HoldsMutex() { Checking? || Taking? || Putting? }

    predicate Carries() { Returning? || Putting? }

    /** Will look at the pool again, or will wake somebody who does. */
    predicate Acting() { Woken? || (Checking? && woken) || (Taking? && woken) || Notifying? }
  }

  datatype State = State(
    pool: seq<Option<Conn>>,
    used: nat,
    holder: Option<Thread>,
    pc: map<Thread, Pc>,
    wrappers: map<Wrapper, Option<Conn>>)

  datatype Step =
    | Call(t: Thread)
    | Lock(t: Thread)
    | Check(t: Thread)
    | Take(t: Thread, w: Wrapper)
    | SpuriousWake(t: Thread)
    | MoveWrapper(w: Wrapper, into: Wrapper)
    | Destroy(t: Thread, w: Wrapper)
    | Put(t: Thread)
    | Notify(t: Thread, sleeper: Option<Thread>)

  // ---------------------------------------------------------------------------------------------
  // The allocator inside the mutex

  /** The move out of pool_[used_connections_++]. */
  function TakeSlot(pool: seq<Option<Conn>>, used: nat): (seq<Option<Conn>>, nat)
    requires used < |pool|
  {
    (pool[used := None], used + 1)
  }

  /** pool_[--used_connections_] = conn. */
  function PutSlot(pool: seq<Option<Conn>>, used: nat, c: Conn): (seq<Option<Conn>>, nat)
    requires 0 < used <= |pool|
  {
    (pool[used - 1 := Some(c)], used - 1)
  }

  /** The pool object, and the two critical sections that change it. */
  class Pool {
    var pool: seq<Option<Conn>>
    var used: nat

    constructor (capacity: nat, factory: int -> Conn)
      ensures pool == seq(capacity, i => Some(factory(i))) && used == 0
    {
      pool := [];
      used := 0;
      new;
      var i := 0;
      while i < capacity
        invariant i <= capacity && used == 0
        invariant pool == seq(i, j => Some(factory(j)))
      {
        pool := pool + [Some(factory(i))];
        i := i + 1;
      }
    }

    method TakeUnderMutex() returns (conn: Option<Conn>)
      requires used < |pool|
      modifies this
      ensures (pool, used) == TakeSlot(old(pool), old(used))
      ensures conn == old(pool[used])
    {
      conn := pool[used];
      pool := pool[used := None];
      used := used + 1;
    }

    method PutUnderMutex(conn: Conn)
      requires 0 < used <= |pool|
      modifies this
      ensures (pool, used) == PutSlot(old(pool), old(used), conn)
    {
      used := used - 1;
      pool := pool[used := Some(conn)];
    }
  }

  // ---------------------------------------------------------------------------------------------
  // Steps

  function PcOf(s: State, t: Thread): Pc {
    if t in s.pc then s.pc[t] else Idle
  }

  predicate Enabled(s: State, step: Step) {
    match step
    case Call(t) => PcOf(s, t).Idle? && t in s.pc
    case Lock(t) => s.holder.None? && (PcOf(s, t).Entering? || PcOf(s, t).Woken? || PcOf(s, t).Returning?)
    case Check(t) => PcOf(s, t).Checking?
    case Take(t, w) => PcOf(s, t).Taking? && w !in s.wrappers
    case SpuriousWake(t) => PcOf(s, t).Asleep?
    case MoveWrapper(w, into) => w in s.wrappers && into !in s.wrappers
    case Destroy(t, w) => t in s.pc && PcOf(s, t).Idle? && w in s.wrappers
    case Put(t) => PcOf(s, t).Putting?
    case Notify(t, sleeper) =>
      PcOf(s, t).Notifying? &&
      (match sleeper
       case Some(u) => PcOf(s, u).Asleep?
       case None => forall u :: u in s.pc ==> !s.pc[u].Asleep?)
  }

  /** What the C++ leaves undefined or asserts: the index of a take, and used_connections_ != 0 on a return. */
  predicate Safe(s: State, step: Step) {
    match step
    case Take(t, w) => s.used < |s.pool| && s.pool[s.used].Some?
    case Put(t) => 0 < s.used <= |s.pool| && s.pool[s.used - 1].None?
    case _ => true
  }

  function At(s: State, t: Thread, p: Pc): State {
    s.(pc := s.pc[t := p])
  }

  function Next(s: State, step: Step): State
    requires Enabled(s, step) && Safe(s, step)
  {
    match step
    case Call(t) => At(s, t, Entering)
    case Lock(t) =>
      At(s, t, match s.pc[t]
               case Entering => Checking(false)
               case Woken => Checking(true)
               case Returning(c) => Putting(c)
               case p => p).(holder := Some(t))
    case Check(t) =>
      if s.used < |s.pool| then At(s, t, Taking(s.pc[t].woken)) else At(s, t, Asleep).(holder := None)
    case Take(t, w) =>
      var (pool, used) := TakeSlot(s.pool, s.used);
      At(s, t, Idle).(pool := pool, used := used, holder := None, wrappers := s.wrappers[w := s.pool[s.used]])
    case SpuriousWake(t) => At(s, t, Woken)
    case MoveWrapper(w, into) => s.(wrappers := s.wrappers[into := s.wrappers[w]][w := None])
    case Destroy(t, w) =>
      At(s, t, match s.wrappers[w] case None => Idle case Some(c) => Returning(c)).(wrappers := s.wrappers - {w})
    case Put(t) =>
      var (pool, used) := PutSlot(s.pool, s.used, s.pc[t].conn);
      At(s, t, Notifying).(pool := pool, used := used, holder := None)
    case Notify(t, sleeper) =>
      (match sleeper case None => At(s, t, Idle) case Some(u) => At(At(s, t, Idle), u, Woken))
  }

  /** The freshly built pool: distinct connections in every slot, all threads idle, no wrappers. */
  predicate Init(s: State) {
    && s.used == 0 && s.holder.None? && s.wrappers == map[]
    && (forall t :: t in s.pc ==> s.pc[t].Idle?)
    && (forall i :: 0 <= i < |s.pool| ==> s.pool[i].Some?)
    && (forall i, j :: 0 <= i < j < |s.pool| ==> s.pool[i] != s.pool[j])
  }

  /** A run: the states passed through, and the step between each two of them. */
  ghost predicate IsRun(states: seq<State>, steps: seq<Step>) {
    && |states| == |steps| + 1
    && Init(states[0])
    && forall k :: 0 <= k < |steps| ==>
         Enabled(states[k], steps[k]) && Safe(states[k], steps[k]) && states[k + 1] == Next(states[k], steps[k])
  }

  // ---------------------------------------------------------------------------------------------
  // Ownership: every connection is in exactly one place

  datatype Place = InSlot(i: nat) | InWrapper(w: Wrapper) | InThread(t: Thread)

  function Content(s: State, p: Place): Option<Conn> {
    match p
    case InSlot(i) => if i < |s.pool| then s.pool[i] else None
    case InWrapper(w) => if w in s.wrappers then s.wrappers[w] else None
    case InThread(t) => if PcOf(s, t).Carries() then Some(s.pc[t].conn) else None
  }

  /** Each connection of `all` sits in exactly one place, and nothing else sits anywhere. */
  ghost predicate Owned(s: State, all: set<Conn>) {
    && (forall p :: Content(s, p).Some? ==> Content(s, p).value in all)
    && (forall c :: c in all ==> exists p :: Content(s, p) == Some(c))
    && (forall p, q :: Content(s, p).Some? && Content(s, p) == Content(s, q) ==> p == q)
  }

  /** Slots below the counter are empty, the others are full. */
  ghost predicate SlotsInv(s: State) {
    && s.used <= |s.pool|
    && (forall i :: 0 <= i < s.used ==> s.pool[i].None?)
    && (forall i :: s.used <= i < |s.pool| ==> s.pool[i].Some?)
  }

  ghost predicate MutexInv(s: State) {
    && (forall t :: t in s.pc && s.pc[t].HoldsMutex() ==> s.holder == Some(t))
    && (s.holder.Some? ==> PcOf(s, s.holder.value).HoldsMutex())
    && (forall t :: t in s.pc && s.pc[t].Taking? ==> s.used < |s.pool|)
  }

  function Free(s: State): int { |s.pool| - s.used }

  ghost function ActingThreads(s: State): set<Thread> {
    set t | t in s.pc && s.pc[t].Acting()
  }

  ghost predicate SomeoneAsleep(s: State) { exists t :: t in s.pc && s.pc[t].Asleep? }

  /** With a sleeper around, every free connection has a thread that is about to deal with it. */
  ghost predicate WakeInv(s: State) {
    SomeoneAsleep(s) ==> Free(s) <= |ActingThreads(s)|
  }

  ghost predicate Inv(s: State, all: set<Conn>) {
    SlotsInv(s) && MutexInv(s) && WakeInv(s) && Owned(s, all) && |all| == |s.pool|
  }

  /** Moving one connection from `from` to the empty place `to` keeps ownership. */
  lemma MovePreservesOwnership(s: State, s': State, from: Place, to: Place, all: set<Conn>)
    requires Owned(s, all) && from != to
    requires Content(s, to).None? && Content(s', to) == Content(s, from) && Content(s', from).None?
    requires forall p :: p != from && p != to ==> Content(s', p) == Content(s, p)
    ensures Owned(s', all)
  {
  }

  lemma SamePreservesOwnership(s: State, s': State, all: set<Conn>)
    requires Owned(s, all)
    requires forall p :: Content(s', p) == Content(s, p)
    ensures Owned(s', all)
  {
  }

  lemma TakePreservesOwnership(s: State, t: Thread, w: Wrapper, all: set<Conn>)
    requires SlotsInv(s) && Owned(s, all) && Enabled(s, Take(t, w)) && Safe(s, Take(t, w))
    ensures Owned(Next(s, Take(t, w)), all)
  {
    MovePreservesOwnership(s, Next(s, Take(t, w)), InSlot(s.used), InWrapper(w), all);
  }

  lemma PutPreservesOwnership(s: State, t: Thread, all: set<Conn>)
    requires SlotsInv(s) && Owned(s, all) && Enabled(s, Put(t)) && Safe(s, Put(t))
    ensures Owned(Next(s, Put(t)), all)
  {
    MovePreservesOwnership(s, Next(s, Put(t)), InThread(t), InSlot(s.used - 1), all);
  }

  lemma DestroyPreservesOwnership(s: State, t: Thread, w: Wrapper, all: set<Conn>)
    requires Owned(s, all) && Enabled(s, Destroy(t, w))
    ensures Owned(Next(s, Destroy(t, w)), all)
  {
    MovePreservesOwnership(s, Next(s, Destroy(t, w)), InWrapper(w), InThread(t), all);
  }

  lemma MoveWrapperPreservesOwnership(s: State, w: Wrapper, into: Wrapper, all: set<Conn>)
    requires Owned(s, all) && Enabled(s, MoveWrapper(w, into))
    ensures Owned(Next(s, MoveWrapper(w, into)), all)
  {
    MovePreservesOwnership(s, Next(s, MoveWrapper(w, into)), InWrapper(w), InWrapper(into), all);
  }

  /** The remaining steps move no connection. */
  lemma OtherStepsMoveNothing(s: State, step: Step, p: Place)
    requires Enabled(s, step) && Safe(s, step)
    requires !step.Take? && !step.Put? && !step.Destroy? && !step.MoveWrapper?
    ensures Content(Next(s, step), p) == Content(s, p)
  {
  }

  lemma StepPreservesOwnership(s: State, step: Step, all: set<Conn>)
    requires SlotsInv(s) && Owned(s, all) && Enabled(s, step) && Safe(s, step)
    ensures Owned(Next(s, step), all)
  {
    match step {
      case Take(t, w) => TakePreservesOwnership(s, t, w, all);
      case MoveWrapper(w, into) => MoveWrapperPreservesOwnership(s, w, into, all);
      case Destroy(t, w) => DestroyPreservesOwnership(s, t, w, all);
      case Put(t) => PutPreservesOwnership(s, t, all);
      case _ =>
        forall p ensures Content(Next(s, step), p) == Content(s, p) {
          OtherStepsMoveNothing(s, step, p);
        }
        SamePreservesOwnership(s, Next(s, step), all);
    }
  }

  lemma StepPreservesSlotsAndMutex(s: State, step: Step)
    requires SlotsInv(s) && MutexInv(s) && Enabled(s, step) && Safe(s, step)
    ensures SlotsInv(Next(s, step)) && MutexInv(Next(s, step))
  {
  }

  // ---------------------------------------------------------------------------------------------
  // No lost wake-up

  /** A step of one thread changes the number of acting threads by its own contribution. */
  lemma ActingAfter(s: State, t: Thread, p: Pc)
    requires t in s.pc
    ensures |ActingThreads(At(s, t, p))| ==
            |ActingThreads(s)| - (if s.pc[t].Acting() then 1 else 0) + (if p.Acting() then 1 else 0)
  {
    var others := set u | u in s.pc && u != t && s.pc[u].Acting();
    SplitOff(ActingThreads(s), others, t, s.pc[t].Acting());
    SplitOff(ActingThreads(At(s, t, p)), others, t, p.Acting());
  }

  lemma SplitOff(all: set<Thread>, others: set<Thread>, t: Thread, counted: bool)
    requires t !in others && forall u :: u in all <==> u in others || (u == t && counted)
    ensures |all| == |others| + if counted then 1 else 0
  {
    assert all == if counted then others + {t} else others;
  }

  /** The same threads act when only the pool, the mutex or the wrappers change. */
  lemma ActingDependsOnPc(s: State, s': State)
    requires s'.pc == s.pc
    ensures ActingThreads(s') == ActingThreads(s)
  {
  }

  lemma StepPreservesWake(s: State, step: Step)
    requires SlotsInv(s) && MutexInv(s) && WakeInv(s) && Enabled(s, step) && Safe(s, step)
    ensures WakeInv(Next(s, step))
  {
    var s' := Next(s, step);
    match step {
      case MoveWrapper(w, into) =>
        ActingDependsOnPc(s, s');
      case Notify(t, Some(u)) =>
        var idle := At(s, t, Idle);
        ActingAfter(s, t, Idle);
        ActingAfter(idle, u, Woken);
      case Call(t) => ActingAfter(s, t, Entering);
      case Lock(t) => WakeAfter(s, s', t);
      case Check(t) => WakeAfter(s, s', t);
      case Take(t, w) => WakeAfter(s, s', t);
      case SpuriousWake(t) => WakeAfter(s, s', t);
      case Destroy(t, w) => WakeAfter(s, s', t);
      case Put(t) => WakeAfter(s, s', t);
      case Notify(t, None) =>
    }
  }

  /** A step that changes only the point of thread t, and perhaps the rest of the state. */
  lemma WakeAfter(s: State, s': State, t: Thread)
    requires t in s.pc && t in s'.pc && s'.pc == s.pc[t := s'.pc[t]]
    ensures |ActingThreads(s')| ==
            |ActingThreads(s)| - (if s.pc[t].Acting() then 1 else 0) + (if s'.pc[t].Acting() then 1 else 0)
    ensures SomeoneAsleep(s') && !s'.pc[t].Asleep? ==> SomeoneAsleep(s)
  {
    ActingAfter(s, t, s'.pc[t]);
    ActingDependsOnPc(At(s, t, s'.pc[t]), s');
  }

  // ---------------------------------------------------------------------------------------------
  // The assertion in ReturnConnection

  ghost function SlotConns(pool: seq<Option<Conn>>): set<Conn> {
    set i | 0 <= i < |pool| && pool[i].Some? :: pool[i].value
  }

  /** Slots holding pairwise different connections hold as many connections as there are slots. */
  lemma {:induction false} FullPoolCount(pool: seq<Option<Conn>>)
    requires forall i :: 0 <= i < |pool| ==> pool[i].Some?
    requires forall i, j :: 0 <= i < j < |pool| ==> pool[i] != pool[j]
    ensures |SlotConns(pool)| == |pool|
  {
    if pool == [] {
      assert SlotConns(pool) == {};
    } else {
      var front, last := pool[..|pool| - 1], pool[|pool| - 1].value;
      FullPoolCount(front);
      forall c ensures c in SlotConns(pool) <==> c in SlotConns(front) + {last} {
        if c in SlotConns(front) {
          var i :| 0 <= i < |front| && front[i] == Some(c);
          assert pool[i] == Some(c);
        }
        if c == last {
          assert pool[|pool| - 1] == Some(c);
        }
        if c in SlotConns(pool) {
          var i :| 0 <= i < |pool| && pool[i] == Some(c);
          assert i < |front| ==> front[i] == Some(c);
        }
      }
      assert SlotConns(pool) == SlotConns(front) + {last};
      assert forall i :: 0 <= i < |front| ==> front[i] == pool[i] != pool[|pool| - 1];
    }
  }

  lemma SubsetOfSameSizeIsEqual<T>(a: set<T>, b: set<T>)
    requires a <= b && |a| == |b|
    ensures a == b
  {
    assert b == a + (b - a);
  }

  /** A pool with nothing lent holds every connection in a slot. */
  lemma NothingUsedMeansAllInSlots(s: State, all: set<Conn>, c: Conn)
    requires Inv(s, all) && s.used == 0 && c in all
    ensures exists i :: Content(s, InSlot(i)) == Some(c)
  {
    forall i, j | 0 <= i < j < |s.pool| ensures s.pool[i] != s.pool[j] {
      assert Content(s, InSlot(i)) == s.pool[i] && Content(s, InSlot(j)) == s.pool[j];
    }
    FullPoolCount(s.pool);
    forall c | c in SlotConns(s.pool) ensures c in all {
      var i :| 0 <= i < |s.pool| && s.pool[i] == Some(c);
      assert Content(s, InSlot(i)) == Some(c);
    }
    SubsetOfSameSizeIsEqual(SlotConns(s.pool), all);
    var i :| 0 <= i < |s.pool| && s.pool[i] == Some(c);
    assert Content(s, InSlot(i)) == Some(c);
  }

  /** While a thread carries a connection back, some slot is empty. */
  lemma CarriedMeansUsed(s: State, t: Thread, all: set<Conn>)
    requires Inv(s, all) && t in s.pc && s.pc[t].Carries()
    ensures 0 < s.used
  {
    assert Content(s, InThread(t)) == Some(s.pc[t].conn);
    if s.used == 0 {
      NothingUsedMeansAllInSlots(s, all, s.pc[t].conn);
    }
  }

  /** Nothing undefined and no failed assertion: whatever can be stepped is safe to step. */
  lemma EnabledIsSafe(s: State, step: Step, all: set<Conn>)
    requires Inv(s, all) && Enabled(s, step)
    ensures Safe(s, step)
  {
    if step.Put? {
      CarriedMeansUsed(s, step.t, all);
    }
  }

  // ---------------------------------------------------------------------------------------------
  // Theorems about every run

  lemma InitInv(s: State)
    requires Init(s)
    ensures Inv(s, SlotConns(s.pool))
  {
    var all := SlotConns(s.pool);
    FullPoolCount(s.pool);
    forall c | c in all ensures exists p :: Content(s, p) == Some(c) {
      var i :| 0 <= i < |s.pool| && s.pool[i] == Some(c);
      assert Content(s, InSlot(i)) == Some(c);
    }
    forall p, q | Content(s, p).Some? && Content(s, p) == Content(s, q) ensures p == q {
      assert p.InSlot? && q.InSlot?;
      assert s.pool[p.i] == s.pool[q.i];
    }
  }

  lemma {:induction false} RunInv(states: seq<State>, steps: seq<Step>, k: nat)
    requires IsRun(states, steps) && k < |states|
    ensures Inv(states[k], SlotConns(states[0].pool)) && |states[k].pool| == |states[0].pool|
  {
    if k == 0 {
      InitInv(states[0]);
    } else {
      RunInv(states, steps, k - 1);
      var all := SlotConns(states[0].pool);
      StepPreservesOwnership(states[k - 1], steps[k - 1], all);
      StepPreservesSlotsAndMutex(states[k - 1], steps[k - 1]);
      StepPreservesWake(states[k - 1], steps[k - 1]);
    }
  }

  /** Mutual exclusion: at no moment of any run are two threads inside the mutex. */
  lemma MutualExclusion(states: seq<State>, steps: seq<Step>, k: nat, t: Thread, u: Thread)
    requires IsRun(states, steps) && k < |states|
    requires PcOf(states[k], t).HoldsMutex() && PcOf(states[k], u).HoldsMutex()
    ensures t == u
  {
    RunInv(states, steps, k);
  }

  /** No run reaches an undefined slot access or the failing assertion. */
  lemma RunsNeverFault(states: seq<State>, steps: seq<Step>, k: nat, step: Step)
    requires IsRun(states, steps) && k < |states| && Enabled(states[k], step)
    ensures Safe(states[k], step)
  {
    RunInv(states, steps, k);
    EnabledIsSafe(states[k], step, SlotConns(states[0].pool));
  }

  /** At every moment of every run each initial connection is in exactly one slot, wrapper or returning
      thread; slots below the counter are empty and the others hold different connections. */
  lemma EveryConnectionHasOneOwner(states: seq<State>, steps: seq<Step>, k: nat, c: Conn)
    requires IsRun(states, steps) && k < |states| && Some(c) in states[0].pool
    ensures exists p :: Content(states[k], p) == Some(c) && forall q :: Content(states[k], q) == Some(c) ==> q == p
    ensures forall i :: 0 <= i < |states[k].pool| ==> (states[k].pool[i].None? <==> i < states[k].used)
  {
    RunInv(states, steps, k);
    var i :| 0 <= i < |states[0].pool| && states[0].pool[i] == Some(c);
    assert c in SlotConns(states[0].pool);
    var p :| Content(states[k], p) == Some(c);
  }

  /** No lost wake-up: a sleeper and a free connection never coexist with nobody about to act; more
      exactly, the free connections are at most the woken waiters plus the pending notifications. */
  lemma NoLostWakeup(states: seq<State>, steps: seq<Step>, k: nat, sleeper: Thread)
    requires IsRun(states, steps) && k < |states| && PcOf(states[k], sleeper).Asleep?
    ensures Free(states[k]) <= |ActingThreads(states[k])|
    ensures Free(states[k]) > 0 ==> exists t :: t in states[k].pc && states[k].pc[t].Acting()
  {
    RunInv(states, steps, k);
    if Free(states[k]) > 0 {
      assert ActingThreads(states[k]) != {};
      var t :| t in ActingThreads(states[k]);
    }
  }

  /** If every thread sleeps or is outside the pool and one of them sleeps, then every connection is lent
      out to a live wrapper: the pool only blocks when its callers hold all of it. */
  lemma BlockedMeansAllLent(states: seq<State>, steps: seq<Step>, k: nat, c: Conn)
    requires IsRun(states, steps) && k < |states|
    requires forall t :: t in states[k].pc ==> states[k].pc[t].Idle? || states[k].pc[t].Asleep?
    requires SomeoneAsleep(states[k])
    requires Some(c) in states[0].pool
    ensures exists w :: w in states[k].wrappers && states[k].wrappers[w] == Some(c)
  {
    var s := states[k];
    RunInv(states, steps, k);
    assert ActingThreads(s) == {};
    var i :| 0 <= i < |states[0].pool| && states[0].pool[i] == Some(c);
    assert c in SlotConns(states[0].pool);
    var p :| Content(s, p) == Some(c);
    assert p.InWrapper?;
    assert p.w in s.wrappers && s.wrappers[p.w] == Some(c);
  }

  /** No deadlock inside the pool: while some thread is in a call and not asleep, a step other than a
      spurious wake-up or a new call is enabled. `w` is any name for the wrapper about to be built. */
  lemma SomebodyInsideCanStep(states: seq<State>, steps: seq<Step>, k: nat, t: Thread, w: Wrapper)
    requires IsRun(states, steps) && k < |states| && w !in states[k].wrappers
    requires t in states[k].pc && !states[k].pc[t].Idle? && !states[k].pc[t].Asleep?
    ensures exists step: Step ::
              (step.Lock? || step.Check? || step.Take? || step.Put? || step.Notify?) && Enabled(states[k], step)
  {
    var s := states[k];
    RunInv(states, steps, k);
    if s.holder.Some? {
      var h := s.holder.value;
      assert Enabled(s, Check(h)) || Enabled(s, Take(h, w)) || Enabled(s, Put(h));
    } else if s.pc[t].Notifying? {
      if u :| u in s.pc && s.pc[u].Asleep? {
        assert Enabled(s, Notify(t, Some(u)));
      } else {
        assert Enabled(s, Notify(t, None));
      }
    } else {
      assert Enabled(s, Lock(t));
    }
  }
}
