/**
  The server as it lives: the game goes on, is saved step by step, the program stops at any moment, and starts again
  from the state file.  What comes back is the game of the last completed save.
 */
module Servers {
  import opened Wrappers
  import opened RoadMap
  import opened SessionModel
  import opened Registry
  import opened GameModel
  import opened GameRuns
  import opened Serialization
  import opened RoundTrip
  import opened Archive
  import opened Savers
  import opened LootPlaces

  /** The game, if the program is running, and its state file. */
  datatype Server = Server(running: Option<Game>, saver: Saver)

  /** A step of the game, a step of a save, the program's stop at any moment, and its start, which walks over the saved
      players in some order. */
  datatype Action = Do(step: Step) | Save(event: Event) | Crash | Restart(ids: seq<nat>)

  ghost predicate CanAct(maps: map<MapId, GameMap>, limitMs: nat, s: Server, a: Action) {
    match a
    case Do(step) => s.running.Some? && s.saver.phase.Idle? && Legal(s.running.value, limitMs, step)
    case Save(e) =>
      && s.running.Some? && e != Stop && CanHappen(s.saver, e)
      && (e.Snapshot? ==> IsSaveOf(e.saved, s.running.value))
    case Crash => true
    case Restart(ids) => s.running.None? && Started(maps, s.saver.disk, ids).Some?
  }

  /** The game the program starts with; None if it cannot restore the state file. */
  ghost function Started(maps: map<MapId, GameMap>, disk: Disk, ids: seq<nat>): Option<Game> {
    match disk.state
    case None => Some(NewGame(maps))
    case Some(file) =>
      match Read(file)
      case None => None
      case Some(r) =>
        if !Enumerates(ids, r.tokens.players) then None
        else match RestoreGame(NewGame(maps), r, ids) case Ok(h) => Some(h) case Err(_) => None
  }

  ghost function Act(maps: map<MapId, GameMap>, limitMs: nat, s: Server, a: Action): Server
    requires CanAct(maps, limitMs, s, a)
  {
    match a
    case Do(step) => s.(running := Some(After(s.running.value, limitMs, step)))
    case Save(e) => s.(saver := Next(s.saver, e))
    case Crash => Server(None, Next(s.saver, Stop))
    case Restart(ids) => s.(running := Started(maps, s.saver.disk, ids))
  }

  /** The file content was written for some game of the invariant over these maps. */
  ghost predicate Savable(maps: map<MapId, GameMap>, r: GameRepr) { exists g :: IsSavedGame(maps, r, g) }

  ghost predicate IsSavedGame(maps: map<MapId, GameMap>, r: GameRepr, g: Game) {
    GameInv(g) && g.maps == maps && IsSaveOf(r, g)
  }

  ghost predicate ServerInv(maps: map<MapId, GameMap>, s: Server) {
    && SaverInv(s.saver)
    && (forall k :: k in maps ==> maps[k].Valid() && maps[k].id == k)
    && (forall i :: 0 <= i < |s.saver.log| ==> Savable(maps, s.saver.log[i]))
    && (s.running.Some? ==> GameInv(s.running.value) && s.running.value.maps == maps)
    && match s.saver.phase
       case Idle => true
       case Opened => s.running.Some?
       case Writing(r, _) => s.running.Some? && IsSaveOf(r, s.running.value)
       case Closed(r) => s.running.Some? && IsSaveOf(r, s.running.value)
  }

  ghost predicate IsServerRun(maps: map<MapId, GameMap>, limitMs: nat, states: seq<Server>, actions: seq<Action>) {
    && |states| == |actions| + 1 && ServerInv(maps, states[0])
    && forall i :: 0 <= i < |actions| ==>
         CanAct(maps, limitMs, states[i], actions[i]) && states[i + 1] == Act(maps, limitMs, states[i], actions[i])
  }

  /** A server that has never run. */
  const UNUSED := Server(None, Saver(Disk(None, None), Idle, []))

  lemma UnusedServerInv(maps: map<MapId, GameMap>)
    requires forall k :: k in maps ==> maps[k].Valid() && maps[k].id == k
    ensures ServerInv(maps, UNUSED)
  {
  }

  // ---------------------------------------------------------------------------------------------
  // The invariant

  /** Whatever order the players are read in, a saved game is restored, as the game it was saved for. */
  lemma SavedGameStarts(maps: map<MapId, GameMap>, disk: Disk, r: GameRepr, g: Game, ids: seq<nat>)
    requires disk.state == Some(GameFields(r)) && IsSavedGame(maps, r, g) && Enumerates(ids, r.tokens.players)
    ensures Started(maps, disk, ids).Some?
    ensures var h := Started(maps, disk, ids).value; Regained(h, g) && GameInv(h) && h.maps == maps
  {
    hide GameInv, IsSaveOf, RestoreGame, GameFields, Read, Enumerates;
    WholeFileIsRead(r);
    SaveThenRestore(g, r, ids);
  }

  /** What a program that starts has to do with the last completed save. */
  lemma StartedGame(maps: map<MapId, GameMap>, s: Server, ids: seq<nat>)
    requires ServerInv(maps, s) && Started(maps, s.saver.disk, ids).Some?
    ensures var h := Started(maps, s.saver.disk, ids).value; GameInv(h) && h.maps == maps
  {
    hide GameInv, IsSaveOf, RestoreGame, GameFields, Read, Enumerates;
    var log := s.saver.log;
    if log == [] {
      NewGameInv(maps);
    } else {
      var r := log[|log| - 1];
      WholeFileIsRead(r);
      assert Savable(maps, r);
      var g :| IsSavedGame(maps, r, g);
      SavedGameStarts(maps, s.saver.disk, r, g, ids);
    }
  }

  lemma RenameKeepsSavable(maps: map<MapId, GameMap>, s: Server)
    requires ServerInv(maps, s) && s.saver.phase.Closed?
    ensures Savable(maps, s.saver.phase.saved)
  {
    hide GameInv, IsSaveOf, SaverInv;
    assert IsSavedGame(maps, s.saver.phase.saved, s.running.value);
  }

  lemma SaveStepKeepsInv(maps: map<MapId, GameMap>, limitMs: nat, s: Server, e: Event)
    requires ServerInv(maps, s) && CanAct(maps, limitMs, s, Save(e))
    ensures ServerInv(maps, Act(maps, limitMs, s, Save(e)))
  {
    hide GameInv, IsSaveOf, SaverInv, Savable, GameFields, GameMap.Valid;
    NextKeepsInv(s.saver, e);
    if e == Rename {
      RenameKeepsSavable(maps, s);
    }
  }

  lemma ActKeepsInv(maps: map<MapId, GameMap>, limitMs: nat, s: Server, a: Action)
    requires ServerInv(maps, s) && CanAct(maps, limitMs, s, a)
    ensures ServerInv(maps, Act(maps, limitMs, s, a))
  {
    hide GameInv, IsSaveOf, SaverInv, Legal, After, Started, Savable;
    match a {
      case Do(step) => StepKeepsInv(s.running.value, limitMs, step);
      case Save(e) => SaveStepKeepsInv(maps, limitMs, s, e);
      case Crash => NextKeepsInv(s.saver, Stop);
      case Restart(ids) => StartedGame(maps, s, ids);
    }
  }

  /** In every state of every life of a server the running game is consistent, and the state file is that of a
      consistent game. */
  lemma {:induction false} RunKeepsServerInv(maps: map<MapId, GameMap>, limitMs: nat, states: seq<Server>,
      actions: seq<Action>, i: nat)
    requires IsServerRun(maps, limitMs, states, actions) && i < |states|
    ensures ServerInv(maps, states[i])
  {
    hide ServerInv, CanAct, Act;
    if i > 0 {
      RunKeepsServerInv(maps, limitMs, states, actions, i - 1);
      assert states[i - 1 + 1] == Act(maps, limitMs, states[i - 1], actions[i - 1]);
      ActKeepsInv(maps, limitMs, states[i - 1], actions[i - 1]);
    }
  }

  // ---------------------------------------------------------------------------------------------
  // What comes back

  /** The program can start, in whatever order it reads the saved players. */
  ghost predicate CanStart(maps: map<MapId, GameMap>, s: Server) {
    forall ids :: (s.saver.log != [] ==> Enumerates(ids, s.saver.log[|s.saver.log| - 1].tokens.players)) ==>
      Started(maps, s.saver.disk, ids).Some?
  }

  lemma EveryServerCanStart(maps: map<MapId, GameMap>, s: Server)
    requires ServerInv(maps, s)
    ensures CanStart(maps, s)
  {
    hide GameInv, IsSaveOf, GameFields, Enumerates, Started;
    var log := s.saver.log;
    if log == [] {
      NothingToRestore(maps, s.saver.disk);
    } else {
      var r := log[|log| - 1];
      assert Savable(maps, r);
      var g :| IsSavedGame(maps, r, g);
      forall ids | Enumerates(ids, r.tokens.players) ensures Started(maps, s.saver.disk, ids).Some? {
        SavedGameStarts(maps, s.saver.disk, r, g, ids);
      }
    }
  }

  /** Wherever the program stops, it can start again. */
  lemma RestartAlwaysWorks(maps: map<MapId, GameMap>, limitMs: nat, states: seq<Server>, actions: seq<Action>, i: nat)
    requires IsServerRun(maps, limitMs, states, actions) && i < |states| && states[i].running.None?
    ensures CanStart(maps, states[i])
    ensures forall ids :: CanAct(maps, limitMs, states[i], Restart(ids)) <==>
        Started(maps, states[i].saver.disk, ids).Some?
  {
    hide ServerInv, IsServerRun, CanStart, Started;
    RunKeepsServerInv(maps, limitMs, states, actions, i);
    EveryServerCanStart(maps, states[i]);
  }

  lemma NothingToRestore(maps: map<MapId, GameMap>, disk: Disk)
    requires disk.state.None?
    ensures forall ids :: Started(maps, disk, ids) == Some(NewGame(maps))
  {
  }

  /** Nothing but a rename adds to the completed saves. */
  lemma {:induction false} NoSaveBetween(maps: map<MapId, GameMap>, limitMs: nat, states: seq<Server>,
      actions: seq<Action>, i: nat, j: nat)
    requires IsServerRun(maps, limitMs, states, actions) && i <= j < |states|
    requires forall l :: i <= l < j ==> actions[l] != Save(Rename)
    ensures states[j].saver.log == states[i].saver.log
  {
    hide ServerInv, CanAct, Act;
    if i < j {
      NoSaveBetween(maps, limitMs, states, actions, i, j - 1);
      assert states[j - 1 + 1] == Act(maps, limitMs, states[j - 1], actions[j - 1]);
      LogStays(maps, limitMs, states[j - 1], actions[j - 1]);
    }
  }

  lemma LogStays(maps: map<MapId, GameMap>, limitMs: nat, s: Server, a: Action)
    requires CanAct(maps, limitMs, s, a) && a != Save(Rename)
    ensures Act(maps, limitMs, s, a).saver.log == s.saver.log
  {
    hide Legal, After, Started, IsSaveOf, GameFields;
  }

  /** Over any steps of the game, any saves, complete or cut off, any stops and any restarts: what a program starts
      with is the game as it was when the last save was completed. */
  lemma LastSaveComesBack(maps: map<MapId, GameMap>, limitMs: nat, states: seq<Server>, actions: seq<Action>, c: nat,
      i: nat)
    requires IsServerRun(maps, limitMs, states, actions) && c < i < |actions|
    requires actions[c] == Save(Rename) && forall l :: c < l < i ==> actions[l] != Save(Rename)
    requires actions[i].Restart?
    ensures states[c].running.Some? && states[i + 1].running.Some?
    ensures Regained(states[i + 1].running.value, states[c].running.value)
  {
    hide IsServerRun, ServerInv, CanAct, Act, Regained;
    ActionAt(maps, limitMs, states, actions, c);
    ActionAt(maps, limitMs, states, actions, i);
    RunKeepsServerInv(maps, limitMs, states, actions, c);
    RunKeepsServerInv(maps, limitMs, states, actions, i);
    NoSaveBetween(maps, limitMs, states, actions, c + 1, i);
    RestartedFrom(maps, limitMs, states[c], states[i], actions[i].ids);
  }

  lemma ActionAt(maps: map<MapId, GameMap>, limitMs: nat, states: seq<Server>, actions: seq<Action>, i: nat)
    requires IsServerRun(maps, limitMs, states, actions) && i < |actions|
    ensures |states| == |actions| + 1 && CanAct(maps, limitMs, states[i], actions[i])
    ensures states[i + 1] == Act(maps, limitMs, states[i], actions[i])
  {
    hide CanAct, Act, ServerInv;
  }

  /** A save is completed in s, and nothing has been saved since when t starts. */
  lemma RestartedFrom(maps: map<MapId, GameMap>, limitMs: nat, s: Server, t: Server, ids: seq<nat>)
    requires ServerInv(maps, s) && CanAct(maps, limitMs, s, Save(Rename)) && ServerInv(maps, t)
    requires t.saver.log == Act(maps, limitMs, s, Save(Rename)).saver.log && CanAct(maps, limitMs, t, Restart(ids))
    ensures var u := Act(maps, limitMs, t, Restart(ids));
            s.running.Some? && u.running.Some? && Regained(u.running.value, s.running.value)
  {
    hide GameInv, IsSaveOf, GameFields, Regained, Enumerates;
    var r := s.saver.phase.saved;
    WholeFileIsRead(r);
    hide Read, RestoreGame;
    assert Enumerates(ids, r.tokens.players);
    SavedGameStarts(maps, t.saver.disk, r, s.running.value, ids);
  }

  /** Without a completed save so far the program starts with a new game. */
  lemma NothingSavedNothingBack(maps: map<MapId, GameMap>, limitMs: nat, states: seq<Server>, actions: seq<Action>,
      i: nat)
    requires IsServerRun(maps, limitMs, states, actions) && states[0] == UNUSED && i < |actions|
    requires forall l :: 0 <= l < i ==> actions[l] != Save(Rename)
    requires actions[i].Restart?
    ensures states[i + 1].running == Some(NewGame(maps))
  {
    RunKeepsServerInv(maps, limitMs, states, actions, i);
    NoSaveBetween(maps, limitMs, states, actions, 0, i);
    assert states[i + 1] == Act(maps, limitMs, states[i], actions[i]) && CanAct(maps, limitMs, states[i], actions[i]);
    hide IsServerRun, GameInv, IsSaveOf, Started;
    NothingToRestore(maps, states[i].saver.disk);
  }

  // ---------------------------------------------------------------------------------------------
  // No object in two places

  ghost predicate SavedOnce(maps: map<MapId, GameMap>, r: GameRepr, n: nat) {
    exists g :: IsSavedGame(maps, r, g) && OnePlace(g, n)
  }

  /** Neither the running game nor any saved one has an object in two places. */
  ghost predicate NothingTwice(maps: map<MapId, GameMap>, s: Server, n: nat) {
    && (s.running.Some? ==> OnePlace(s.running.value, n))
    && (forall i :: 0 <= i < |s.saver.log| ==> SavedOnce(maps, s.saver.log[i], n))
  }

  ghost predicate CountersUpTo(s: Server, n: nat) {
    s.running.Some? ==> s.running.value.nextDog <= n && s.running.value.nextLoot <= n
  }

  lemma RestartKeepsOnePlace(maps: map<MapId, GameMap>, s: Server, ids: seq<nat>, n: nat)
    requires ServerInv(maps, s) && NothingTwice(maps, s, n) && Started(maps, s.saver.disk, ids).Some?
    ensures OnePlace(Started(maps, s.saver.disk, ids).value, n)
  {
    hide GameInv, IsSaveOf, RestoreGame, GameFields, Read, Enumerates, OnePlace, Regained;
    var log := s.saver.log;
    if log == [] {
      NewGameOnePlace(maps, n);
    } else {
      var r := log[|log| - 1];
      WholeFileIsRead(r);
      assert SavedOnce(maps, r, n);
      var g :| IsSavedGame(maps, r, g) && OnePlace(g, n);
      SavedGameStarts(maps, s.saver.disk, r, g, ids);
      RestoringKeepsOnePlace(g, Started(maps, s.saver.disk, ids).value, n);
    }
  }

  lemma SaveKeepsNothingTwice(maps: map<MapId, GameMap>, limitMs: nat, s: Server, e: Event, n: nat)
    requires ServerInv(maps, s) && NothingTwice(maps, s, n) && CanAct(maps, limitMs, s, Save(e))
    ensures NothingTwice(maps, Act(maps, limitMs, s, Save(e)), n)
  {
    hide GameInv, IsSaveOf, SaverInv, OnePlace, GameFields;
    if e == Rename {
      assert IsSavedGame(maps, s.saver.phase.saved, s.running.value);
      assert SavedOnce(maps, s.saver.phase.saved, n);
    }
  }

  lemma ActKeepsNothingTwice(maps: map<MapId, GameMap>, limitMs: nat, s: Server, a: Action, n: nat)
    requires ServerInv(maps, s) && NothingTwice(maps, s, n) && CanAct(maps, limitMs, s, a)
    requires CountersUpTo(Act(maps, limitMs, s, a), n)
    ensures NothingTwice(maps, Act(maps, limitMs, s, a), n)
  {
    hide GameInv, IsSaveOf, SaverInv, Legal, After, Started, SavedOnce, OnePlace;
    match a {
      case Do(step) => StepKeepsOnePlace(s.running.value, limitMs, step, n);
      case Save(e) => SaveKeepsNothingTwice(maps, limitMs, s, e, n);
      case Crash =>
      case Restart(ids) => RestartKeepsOnePlace(maps, s, ids, n);
    }
  }

  /** In every state of a server, whenever it was saved, stopped and started, no object of the running game is in two
      places. */
  lemma {:induction false} ServerKeepsOnePlace(maps: map<MapId, GameMap>, limitMs: nat, states: seq<Server>,
      actions: seq<Action>, i: nat, n: nat)
    requires IsServerRun(maps, limitMs, states, actions) && states[0] == UNUSED && i < |states|
    requires forall j :: 0 <= j < |states| ==> CountersUpTo(states[j], n)
    ensures NothingTwice(maps, states[i], n)
  {
    hide ServerInv, CanAct, Act, NothingTwice, CountersUpTo;
    if i == 0 {
      UnusedNothingTwice(maps, n);
    } else {
      ServerKeepsOnePlace(maps, limitMs, states, actions, i - 1, n);
      RunKeepsServerInv(maps, limitMs, states, actions, i - 1);
      assert states[i - 1 + 1] == Act(maps, limitMs, states[i - 1], actions[i - 1]);
      ActKeepsNothingTwice(maps, limitMs, states[i - 1], actions[i - 1], n);
    }
  }

  lemma UnusedNothingTwice(maps: map<MapId, GameMap>, n: nat)
    ensures NothingTwice(maps, UNUSED, n)
  {
  }

  // ---------------------------------------------------------------------------------------------
  // The actions of one callback

  /** The actions lead from one server to the other. */
  ghost predicate Reaches(maps: map<MapId, GameMap>, limitMs: nat, s: Server, actions: seq<Action>, t: Server) {
    if actions == [] then s == t
    else
      var front, last := actions[..|actions| - 1], actions[|actions| - 1];
      exists m :: Reaches(maps, limitMs, s, front, m) && CanAct(maps, limitMs, m, last) &&
          Act(maps, limitMs, m, last) == t
  }

  lemma ReachesOneMore(maps: map<MapId, GameMap>, limitMs: nat, s: Server, actions: seq<Action>, m: Server, a: Action)
    requires Reaches(maps, limitMs, s, actions, m) && CanAct(maps, limitMs, m, a)
    ensures Reaches(maps, limitMs, s, actions + [a], Act(maps, limitMs, m, a))
  {
    hide CanAct, Act;
    assert (actions + [a])[..|actions|] == actions;
  }

  /** What is reached is the end of a run. */
  lemma {:induction false} ReachedByRun(maps: map<MapId, GameMap>, limitMs: nat, s: Server, actions: seq<Action>,
      t: Server)
    returns (states: seq<Server>)
    requires Reaches(maps, limitMs, s, actions, t) && ServerInv(maps, s)
    ensures IsServerRun(maps, limitMs, states, actions) && states[0] == s && states[|actions|] == t
  {
    hide CanAct, Act, ServerInv;
    if actions == [] {
      states := [s];
    } else {
      var front, last := actions[..|actions| - 1], actions[|actions| - 1];
      var m :| Reaches(maps, limitMs, s, front, m) && CanAct(maps, limitMs, m, last) &&
          Act(maps, limitMs, m, last) == t;
      states := ReachedByRun(maps, limitMs, s, front, m);
      states := states + [t];
    }
  }

  /** The events write a snapshot of the game, without a stop. */
  ghost predicate IsSaving(events: seq<Event>, g: Game) {
    forall i :: 0 <= i < |events| ==> events[i] != Stop && (events[i].Snapshot? ==> IsSaveOf(events[i].saved, g))
  }

  /** A run of the saver from s to t that saves the game without a stop. */
  ghost predicate IsSave(run: seq<Saver>, events: seq<Event>, g: Game, s: Saver, t: Saver) {
    IsSaverRun(run, events) && run[0] == s && run[|events|] == t && IsSaving(events, g)
  }

  lemma NoSave(g: Game, s: Saver)
    requires SaverInv(s)
    ensures IsSave([s], [], g, s, s)
  {
  }

  lemma NothingSaving(g: Game)
    ensures IsSaving([], g)
  {
  }

  lemma SavingOneMore(events: seq<Event>, g: Game, e: Event)
    requires IsSaving(events, g) && e != Stop && (e.Snapshot? ==> IsSaveOf(e.saved, g))
    ensures IsSaving(events + [e], g)
  {
    hide IsSaveOf;
  }

  function SaveActions(events: seq<Event>): seq<Action> {
    seq(|events|, i requires 0 <= i < |events| => Save(events[i]))
  }

  /** A step of the game, and then a save of it. */
  lemma {:induction false} StepAndSaveIsServed(maps: map<MapId, GameMap>, limitMs: nat, g: Game, step: Step,
      run: seq<Saver>,
      events: seq<Event>, i: nat)
    requires Legal(g, limitMs, step) && IsSaverRun(run, events) && run[0].phase.Idle? && i <= |events|
    requires IsSaving(events, After(g, limitMs, step))
    ensures var h := After(g, limitMs, step);
            Reaches(maps, limitMs, Server(Some(g), run[0]), [Do(step)] + SaveActions(events[..i]),
                Server(Some(h), run[i]))
  {
    hide IsSaveOf, SaverInv, CanHappen, Next, Legal, After;
    var s, h := Server(Some(g), run[0]), After(g, limitMs, step);
    if i == 0 {
      assert Reaches(maps, limitMs, s, [], s) && CanAct(maps, limitMs, s, Do(step));
      ReachesOneMore(maps, limitMs, s, [], s, Do(step));
      assert [] + [Do(step)] == [Do(step)] + SaveActions(events[..0]);
    } else {
      StepAndSaveIsServed(maps, limitMs, g, step, run, events, i - 1);
      assert run[i - 1 + 1] == Next(run[i - 1], events[i - 1]) && CanHappen(run[i - 1], events[i - 1]);
      var m := Server(Some(h), run[i - 1]);
      assert CanAct(maps, limitMs, m, Save(events[i - 1]));
      hide Reaches;
      ReachesOneMore(maps, limitMs, s, [Do(step)] + SaveActions(events[..i - 1]), m, Save(events[i - 1]));
      assert SaveActions(events[..i]) == SaveActions(events[..i - 1]) + [Save(events[i - 1])];
      assert [Do(step)] + SaveActions(events[..i]) == [Do(step)] + SaveActions(events[..i - 1]) + [Save(events[i - 1])];
    }
  }

  lemma CallbackIsServed(maps: map<MapId, GameMap>, limitMs: nat, g: Game, step: Step, run: seq<Saver>,
      events: seq<Event>, s: Saver, t: Saver)
    requires Legal(g, limitMs, step) && s.phase.Idle? && IsSave(run, events, After(g, limitMs, step), s, t)
    ensures Reaches(maps, limitMs, Server(Some(g), s), [Do(step)] + SaveActions(events),
              Server(Some(After(g, limitMs, step)), t))
  {
    hide Reaches, Legal, After, IsSaving;
    StepAndSaveIsServed(maps, limitMs, g, step, run, events, |events|);
    assert events[..|events|] == events;
  }
}
