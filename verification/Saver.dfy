/**
  The state file: a save writes a second file field by field and moves it into place at the end, and the program may
  stop anywhere.
 */
module Savers {
  import opened Wrappers
  import opened Serialization
  import opened Archive

  /** The state file, and the file written beside it. */
  datatype Disk = Disk(state: Option<File>, temp: Option<File>)

  /** Where a save is; the program may also stop anywhere and start again. */
  datatype Phase = Idle | Opened | Writing(saved: GameRepr, written: nat) | Closed(saved: GameRepr)

  datatype Event = Open | Snapshot(saved: GameRepr) | Write | Close | Rename | Stop

  /** `log` are the snapshots whose rename took place. */
  datatype Saver = Saver(disk: Disk, phase: Phase, log: seq<GameRepr>)

  predicate CanHappen(s: Saver, e: Event) {
    match e
    case Open => s.phase.Idle?
    case Snapshot(_) => s.phase.Opened?
    case Write => s.phase.Writing? && s.phase.written < |GameFields(s.phase.saved)|
    case Close => s.phase.Writing? && s.phase.written == |GameFields(s.phase.saved)|
    case Rename => s.phase.Closed?
    case Stop => true
  }

  /** One more field at the end of a file. */
  function Appended(file: Option<File>, field: Field): Option<File> {
    match file case None => Some([field]) case Some(fields) => Some(fields + [field])
  }

  function Next(s: Saver, e: Event): Saver
    requires CanHappen(s, e)
  {
    match e
    case Open => s.(disk := s.disk.(temp := Some([])), phase := Opened)
    case Snapshot(r) => s.(phase := Writing(r, 0))
    case Write =>
      s.(disk := s.disk.(temp := Appended(s.disk.temp, GameFields(s.phase.saved)[s.phase.written])),
         phase := s.phase.(written := s.phase.written + 1))
    case Close => s.(phase := Closed(s.phase.saved))
    case Rename => Saver(Disk(s.disk.temp, None), Idle, s.log + [s.phase.saved])
    case Stop => s.(phase := Idle)
  }

  /** The file of the last snapshot that was moved into place. */
  function LastSaved(log: seq<GameRepr>): Option<File> {
    if log == [] then None else Some(GameFields(log[|log| - 1]))
  }

  /** The state file is that of the last snapshot, and the other one holds what has been written of the next. */
  ghost predicate SaverInv(s: Saver) {
    && s.disk.state == LastSaved(s.log)
    && match s.phase
       case Idle => true
       case Opened => s.disk.temp == Some([])
       case Writing(r, n) => n <= |GameFields(r)| && s.disk.temp == Some(GameFields(r)[..n])
       case Closed(r) => s.disk.temp == Some(GameFields(r))
  }

  ghost predicate IsSaverRun(run: seq<Saver>, events: seq<Event>) {
    && |run| == |events| + 1 && SaverInv(run[0])
    && forall i :: 0 <= i < |events| ==> CanHappen(run[i], events[i]) && run[i + 1] == Next(run[i], events[i])
  }

  lemma NothingSavedYet()
    ensures SaverInv(Saver(Disk(None, None), Idle, []))
  {
  }

  lemma NextKeepsInv(s: Saver, e: Event)
    requires SaverInv(s) && CanHappen(s, e)
    ensures SaverInv(Next(s, e))
  {
    hide GameFields;
    match e {
      case Write =>
        var fields, n := GameFields(s.phase.saved), s.phase.written;
        assert fields[..n] + [fields[n]] == fields[..n + 1];
      case Close =>
        var fields := GameFields(s.phase.saved);
        assert fields[..|fields|] == fields;
      case _ =>
    }
  }

  lemma {:induction false} RunKeepsSaverInv(run: seq<Saver>, events: seq<Event>, i: nat)
    requires IsSaverRun(run, events) && i < |run|
    ensures SaverInv(run[i])
  {
    hide SaverInv;
    if i > 0 {
      RunKeepsSaverInv(run, events, i - 1);
      assert CanHappen(run[i - 1], events[i - 1]) && run[i - 1 + 1] == Next(run[i - 1], events[i - 1]);
      NextKeepsInv(run[i - 1], events[i - 1]);
    }
  }

  /** In every state of every run of saves and stops the state file, if there is one, is read as the last snapshot
      that was moved into place. */
  lemma StateFileIsNeverTorn(run: seq<Saver>, events: seq<Event>, i: nat)
    requires IsSaverRun(run, events) && i < |run|
    ensures run[i].log == [] ==> run[i].disk.state == None
    ensures run[i].log != [] ==>
        run[i].disk.state.Some? && Read(run[i].disk.state.value) == Some(run[i].log[|run[i].log| - 1])
  {
    hide GameFields, Read;
    RunKeepsSaverInv(run, events, i);
    if run[i].log != [] {
      WholeFileIsRead(run[i].log[|run[i].log| - 1]);
    }
  }

  /** While a snapshot is being written the file beside the state file cannot be read: a rename before the end
      would have lost the game. */
  lemma HalfWrittenIsUnreadable(run: seq<Saver>, events: seq<Event>, i: nat)
    requires IsSaverRun(run, events) && i < |run| && run[i].phase.Writing?
    ensures run[i].disk.temp.Some?
    ensures Read(run[i].disk.temp.value) ==
            if run[i].phase.written == |GameFields(run[i].phase.saved)| then Some(run[i].phase.saved) else None
  {
    hide GameFields, Read;
    RunKeepsSaverInv(run, events, i);
    ReadsBackIff(run[i].phase.saved, run[i].phase.written);
  }

  /** An event leaves the state file alone, or it is the rename, which puts the whole snapshot being saved in its
      place. */
  lemma OldOrNew(run: seq<Saver>, events: seq<Event>, i: nat)
    requires IsSaverRun(run, events) && i < |events|
    ensures events[i] != Rename ==> run[i + 1].disk.state == run[i].disk.state && run[i + 1].log == run[i].log
    ensures events[i] == Rename ==>
        run[i].phase.Closed? && run[i + 1].disk.state == Some(GameFields(run[i].phase.saved))
  {
    hide GameFields;
    RunKeepsSaverInv(run, events, i);
    assert CanHappen(run[i], events[i]) && run[i + 1] == Next(run[i], events[i]);
  }

  /** A run from one saver to another, with the first one's state file up to the last event. */
  ghost predicate Leads(run: seq<Saver>, events: seq<Event>, start: Saver, now: Saver) {
    && IsSaverRun(run, events) && run[0] == start && run[|events|] == now
    && forall i :: 0 <= i < |events| ==> run[i].disk.state == start.disk.state
  }

  lemma LeadsNowhere(s: Saver)
    requires SaverInv(s)
    ensures Leads([s], [], s, s)
  {
  }

  /** One event more. */
  lemma Happens(run: seq<Saver>, events: seq<Event>, start: Saver, now: Saver, e: Event)
    returns (longer: seq<Saver>, more: seq<Event>)
    requires Leads(run, events, start, now) && now.disk.state == start.disk.state && CanHappen(now, e)
    ensures Leads(longer, more, start, Next(now, e)) && more == events + [e]
  {
    hide CanHappen, Next, SaverInv;
    longer, more := run + [Next(now, e)], events + [e];
  }

  lemma LeadsFrom(run: seq<Saver>, events: seq<Event>, start: Saver, now: Saver)
    requires Leads(run, events, start, now)
    ensures IsSaverRun(run, events) && run[0] == start && run[|events|] == now
    ensures forall i :: 0 <= i < |events| ==> run[i].disk.state == start.disk.state
  {
  }

  lemma LeadsWell(run: seq<Saver>, events: seq<Event>, start: Saver, now: Saver)
    requires Leads(run, events, start, now)
    ensures SaverInv(now)
  {
    RunKeepsSaverInv(run, events, |events|);
  }
}
