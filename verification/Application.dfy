/** The running application: the ticker callback, and a state file that is saved from time to time. */
module Applications {
  import opened Wrappers
  import opened RoadMap
  import Registry
  import opened Dogs
  import opened SessionModel
  import opened Games
  import opened Serialization
  import opened RoundTrip
  import opened Archive
  import opened Savers
  import opened Servers
  import GameFiles
  import M = GameModel
  import R = GameRuns
  import L = RunLedger

  // ---------------------------------------------------------------------------------------------
  // The application

  /** The game h after one legal ticker step of the runs, with the records of those who retired in it. */
  ghost predicate IsTickerStep(g: M.Game, limitMs: nat, deltaMs: nat, step: R.Step, records: seq<Record>, h: M.Game) {
    && step.Ticker? && step.deltaMs == deltaMs
    && R.Legal(g, limitMs, step) && h == R.After(g, limitMs, step)
    && AreRecords(records, M.AfterTicks(g, deltaMs, step.hits), step.afk)
  }

  class Application {
    const game: Game
    const hasStateFile: bool
    const savePeriodMs: Option<nat>
    const maxInactiveMs: nat
    var period: int
    var disk: Disk
    /** The game time since the last save, or since the start. */
    ghost var sinceSave: nat
    /** The snapshots that were moved into place, over the whole life of the state file. */
    ghost var log: seq<GameRepr>

    constructor (game: Game, hasStateFile: bool, savePeriodMs: Option<nat>, maxInactiveMs: nat, disk: Disk,
        ghost log: seq<GameRepr>)
      ensures this.game == game && this.hasStateFile == hasStateFile && this.savePeriodMs == savePeriodMs
      ensures this.maxInactiveMs == maxInactiveMs && this.disk == disk && this.log == log && SavesInTime()
    {
      this.game, this.hasStateFile, this.savePeriodMs, this.maxInactiveMs :=
          game, hasStateFile, savePeriodMs, maxInactiveMs;
      period := if savePeriodMs.Some? then savePeriodMs.value else 0;
      this.disk := disk;
      sinceSave := 0;
      this.log := log;
    }

    ghost predicate Valid()
      reads game, game.tokens, game.sessions.Values, game.DogObjects()
    {
      game.Valid() && M.GameInv(game.State())
    }

    /** The counter holds what is left of the save period. */
    ghost predicate SavesInTime()
      reads this
    {
      savePeriodMs.Some? ==>
        && period + sinceSave == savePeriodMs.value
        && (savePeriodMs.value > 0 ==> period > 0)
    }

    /** The saver of the runs, between two saves. */
    ghost function AtRest(): Saver
      reads this
    {
      Saver(disk, Idle, log)
    }

    /** The last snapshot in place is one of the game as it is. */
    ghost predicate IsSaved()
      reads this, game, game.tokens, game.sessions.Values, game.DogObjects()
    {
      log != [] && disk.state == LastSaved(log) && IsSaveOf(log[|log| - 1], game.State())
    }

    /** The game is written to a second file, which then takes the place of the first.  `run` and `events` are the
        steps of the save; false is the fault of an empty bag slot, which leaves the state file as it was. */
    method SaveGame() returns (ok: bool, ghost run: seq<Saver>, ghost events: seq<Event>)
      requires Valid() && SaverInv(AtRest())
      modifies this`disk, this`log
      ensures Valid() && game.State() == old(game.State()) && SaverInv(AtRest())
      ensures ok == (hasStateFile ==> L.AllClean(game.State()))
      ensures IsSaverRun(run, events) && run[0] == old(AtRest()) && run[|events|] == AtRest()
      ensures !hasStateFile || !ok ==> disk.state == old(disk.state) && log == old(log)
      ensures hasStateFile && ok ==> IsSaved() && log[..|log| - 1] == old(log)
      ensures forall i :: 0 <= i < |events| ==> run[i].disk.state == old(disk.state)
      ensures ok ==> IsSaving(events, game.State())
    {
      hide M.GameInv, IsSaveOf, L.AllClean, Game.State, Game.SessionsValid, Game.PlayersValid, GameFields, Leads,
        SaverInv;
      hide IsSaving;
      ghost var start, g := AtRest(), game.State();
      LeadsNowhere(start);
      NothingSaving(g);
      run, events := [start], [];
      if hasStateFile {
        disk := disk.(temp := Some([]));
        SavingOneMore(events, g, Open);
        run, events := Happens(run, events, start, start, Open);
        GameFiles.SameStill(game);
        var saved := GameFiles.SaveGame(game);
        GameFiles.SameStill(game);
        ok := saved.Some?;
        if ok {
          run, events := SaveSnapshot(saved.value, g, start, run, events);
          GameFiles.SameStill(game);
        } else {
          run, events := Happens(run, events, start, Saver(disk, Opened, log), Stop);
        }
      } else {
        ok := true;
      }
      LeadsWell(run, events, start, AtRest());
      LeadsFrom(run, events, start, AtRest());
    }

    /** The rest of a save: the snapshot is written and moved into place. */
    method SaveSnapshot(saved: GameRepr, ghost g: M.Game, ghost start: Saver, ghost soFar: seq<Saver>,
        ghost before: seq<Event>)
      returns (ghost run: seq<Saver>, ghost events: seq<Event>)
      requires IsSaveOf(saved, g) && IsSaving(before, g)
      requires Leads(soFar, before, start, Saver(disk, Opened, log)) && disk.temp == Some([])
      requires disk.state == start.disk.state && log == start.log
      modifies this`disk, this`log
      ensures Leads(run, events, start, AtRest()) && log == start.log + [saved] && disk.state == LastSaved(log)
      ensures IsSaving(events, g)
    {
      hide GameFields, Leads, SaverInv, IsSaving, IsSaveOf;
      SavingOneMore(before, g, Snapshot(saved));
      run, events := Happens(soFar, before, start, Saver(disk, Opened, log), Snapshot(saved));
      run, events := WriteFile(GameFields(saved), saved, g, start, run, events);
      SavingOneMore(events, g, Close);
      SavingOneMore(events + [Close], g, Rename);
      run, events := Happens(run, events, start, Saver(disk, Writing(saved, |GameFields(saved)|), log), Close);
      run, events := Happens(run, events, start, Saver(disk, Closed(saved), log), Rename);
      disk := Disk(disk.temp, None);
      log := log + [saved];
      assert Next(Saver(old(disk).(temp := disk.state), Closed(saved), old(log)), Rename) == AtRest();
    }

    /** The fields go into the file one by one. */
    method WriteFile(fields: File, ghost saved: GameRepr, ghost g: M.Game, ghost start: Saver, ghost soFar: seq<Saver>,
        ghost before: seq<Event>)
      returns (ghost run: seq<Saver>, ghost events: seq<Event>)
      requires fields == GameFields(saved) && disk.temp == Some([]) && disk.state == start.disk.state
      requires Leads(soFar, before, start, Saver(disk, Writing(saved, 0), log)) && IsSaving(before, g)
      modifies this`disk
      ensures disk == old(disk).(temp := Some(fields))
      ensures Leads(run, events, start, Saver(disk, Writing(saved, |fields|), log)) && IsSaving(events, g)
    {
      hide GameFields, Leads, SaverInv, IsSaving;
      run, events := soFar, before;
      for n := 0 to |fields|
        invariant disk == old(disk).(temp := Some(fields[..n]))
        invariant Leads(run, events, start, Saver(disk, Writing(saved, n), log)) && IsSaving(events, g)
      {
        SavingOneMore(events, g, Write);
        run, events := Happens(run, events, start, Saver(disk, Writing(saved, n), log), Write);
        assert fields[..n] + [fields[n]] == fields[..n + 1];
        disk := disk.(temp := Appended(disk.temp, fields[n]));
      }
      assert fields[..|fields|] == fields;
    }

    /** A save is due: the save period is over. */
    predicate Due(sinceSave: nat, deltaMs: nat) { savePeriodMs.Some? && sinceSave + deltaMs >= savePeriodMs.value }

    /** Less than a save period has passed since the last save. */
    ghost predicate SavedLately()
      reads this
    {
      savePeriodMs.Some? && savePeriodMs.value > 0 ==> sinceSave < savePeriodMs.value
    }

    /** Saves when the save period is over.  False is the fault of an empty bag slot. */
    method SaveGameState(deltaMs: nat) returns (ok: bool, ghost run: seq<Saver>, ghost events: seq<Event>)
      requires Valid() && SavesInTime() && SaverInv(AtRest())
      modifies this`period, this`disk, this`sinceSave, this`log
      ensures Valid() && game.State() == old(game.State()) && SaverInv(AtRest())
      ensures ok <== L.AllClean(game.State())
      ensures !Due(old(sinceSave), deltaMs) ==> ok && AtRest() == old(AtRest())
      ensures !Due(old(sinceSave), deltaMs) && savePeriodMs.Some? ==> sinceSave == old(sinceSave) + deltaMs
      ensures Due(old(sinceSave), deltaMs) ==> ok == (hasStateFile ==> L.AllClean(game.State()))
      ensures Due(old(sinceSave), deltaMs) && ok ==> sinceSave == 0 && (hasStateFile ==> IsSaved())
      ensures ok ==> SavesInTime() && SavedLately() && IsSave(run, events, game.State(), old(AtRest()), AtRest())
    {
      hide M.GameInv, IsSaveOf, L.AllClean, Game.State, Game.SessionsValid, Game.PlayersValid, SaverInv, IsSave;
      ok, run, events := true, [AtRest()], [];
      NoSave(game.State(), AtRest());
      if savePeriodMs.None? {
        return;
      }
      period := period - deltaMs;
      sinceSave := sinceSave + deltaMs;
      GameFiles.SameStill(game);
      if period <= 0 {
        ok, run, events := SaveAndRestart();
      }
    }

    /** The save that is due, and the next period. */
    method SaveAndRestart() returns (ok: bool, ghost run: seq<Saver>, ghost events: seq<Event>)
      requires Valid() && SaverInv(AtRest()) && savePeriodMs.Some?
      modifies this`period, this`disk, this`sinceSave, this`log
      ensures Valid() && game.State() == old(game.State()) && SaverInv(AtRest())
      ensures ok == (hasStateFile ==> L.AllClean(game.State()))
      ensures ok ==> period == savePeriodMs.value && sinceSave == 0 && (hasStateFile ==> IsSaved())
      ensures ok ==> IsSave(run, events, game.State(), old(AtRest()), AtRest())
    {
      hide M.GameInv, IsSaveOf, L.AllClean, Game.State, Game.SessionsValid, Game.PlayersValid, SaverInv, IsSaverRun;
      ok, run, events := SaveGame();
      if ok {
        period := savePeriodMs.value;
        sinceSave := 0;
        GameFiles.SameStill(game);
      }
    }

    /** At the start the game comes back from the state file, if there is one.  If the file was written for the
        game g, everything that was saved of g is back. */
    method RestoreGame(ghost g: M.Game) returns (ok: bool)
      requires game.Valid() && game.sessions == map[]
      modifies game, game.tokens
      ensures !hasStateFile || disk.state.None? ==> ok && game.State() == old(game.State())
      ensures hasStateFile && disk.state.Some? ==>
        match Read(disk.state.value)
        case None => !ok
        case Some(saved) =>
          && ok == Restorable(old(game.State()).maps, saved)
          && (IsSaveOf(saved, g) && M.GameInv(g) && old(game.State()) == M.NewGame(g.maps) ==>
                ok && Valid() && Regained(game.State(), g))
    {
      hide M.GameInv, IsSaveOf, Game.State, Game.SessionsValid, Game.PlayersValid, Regained, Serialization.RestoreGame,
        Restorable, DogsDiffer, Read;
      if !hasStateFile || disk.state.None? {
        return true;
      }
      match Read(disk.state.value) {
        case None => ok := false;
        case Some(saved) =>
          ghost var ids;
          ok, ids := game.RestoreGame(saved);
          RestoresIff(old(game.State()), saved, ids);
          if IsSaveOf(saved, g) && M.GameInv(g) && old(game.State()) == M.NewGame(g.maps) {
            SavedDogsDiffer(g, saved);
            SaveThenRestore(g, saved, ids);
          }
      }
    }

    /** The sessions move and idle players leave.  False is the fault of an empty bag slot in a session's tick. */
    method MoveAndRetire(deltaMs: nat) returns (ok: bool, records: seq<Record>, ghost step: R.Step)
      requires Valid()
      modifies game`nameToId, game`onMap, game.tokens
      modifies game.sessions.Values`dogs, game.sessions.Values`lost, game.sessions.Values`history, game.DogObjects()
      ensures ok ==> Valid() && IsTickerStep(old(game.State()), maxInactiveMs, deltaMs, step, records, game.State())
      ensures !ok ==> Game.TickFaulted(old(game.State()), deltaMs)
    {
      hide M.GameInv, Game.State, Game.SessionsValid, Game.PlayersValid, Game.TickFaulted, M.TicksAreFine,
        M.AfterTicks, R.IsAfkList, R.AfterRetireAll, AreRecords;
      ghost var g := game.State();
      step := R.Ticker(deltaMs, map[], []);
      records := [];
      ghost var hits;
      ok, hits := game.UpdateTimeInSessions(deltaMs);
      if !ok {
        return;
      }
      M.TicksKeepInv(g, deltaMs, hits);
      var afk;
      records, afk := game.RemoveAfkPlayers(maxInactiveMs);
      step := R.Ticker(deltaMs, hits, afk);
      R.TickerKeepsInv(g, maxInactiveMs, deltaMs, hits, afk);
    }

    /** One call of the ticker: the sessions move, idle players leave, and the game may be saved.  False is the
        fault of an empty bag slot, in a session's tick or in saving. */
    method TickerCallback(deltaMs: nat)
      returns (ok: bool, records: seq<Record>, ghost step: R.Step, ghost events: seq<Event>)
      requires Valid() && SavesInTime() && SaverInv(AtRest())
      modifies this`period, this`disk, this`sinceSave, this`log, game`nameToId, game`onMap, game.tokens
      modifies game.sessions.Values`dogs, game.sessions.Values`lost, game.sessions.Values`history, game.DogObjects()
      ensures SaverInv(AtRest())
      ensures ok ==> Valid() && IsTickerStep(old(game.State()), maxInactiveMs, deltaMs, step, records, game.State())
      ensures ok ==>
        Reaches(game.maps, maxInactiveMs, Server(Some(old(game.State())), old(AtRest())), [Do(step)] +
            SaveActions(events),
                Server(Some(game.State()), AtRest()))
      ensures ok ==> R.AllActive(game.State(), maxInactiveMs)
      ensures ok ==> SavesInTime() && SavedLately()
      ensures !ok ==> Game.TickFaulted(old(game.State()), deltaMs) || !L.AllClean(game.State())
    {
      hide M.GameInv, IsSaveOf, L.AllClean, Game.State, Game.SessionsValid, Game.PlayersValid, Game.TickFaulted;
      hide R.Legal, R.After, R.AllActive, AreRecords, SaverInv;
      hide IsSave, Reaches;
      ghost var g, s := game.State(), AtRest();
      events := [];
      ok, records, step := MoveAndRetire(deltaMs);
      if !ok {
        return;
      }
      assert AtRest() == s;
      R.TickerLeavesActive(g, maxInactiveMs, deltaMs, step.hits, step.afk);
      ghost var run;
      ok, run, events := SaveGameState(deltaMs);
      if ok {
        CallbackIsServed(game.maps, maxInactiveMs, g, step, run, events, s, AtRest());
      }
    }
  }

  lemma SavedDogsDiffer(g: M.Game, r: GameRepr)
    requires M.GameInv(g) && IsSaveOf(r, g)
    ensures DogsDiffer(r.tokens)
  {
    hide SessionList;
    assert Registry.DogsInv(M.IndexOf(g));
    forall i, j | i in r.tokens.players && j in r.tokens.players && i != j
      ensures r.tokens.players[i].dog.id != r.tokens.players[j].dog.id
    {
      SavedDogId(g, r, i);
      SavedDogId(g, r, j);
    }
  }

  lemma SavedDogId(g: M.Game, r: GameRepr, id: nat)
    requires M.GameInv(g) && IsSaveOf(r, g) && id in g.tokens.players
    ensures r.tokens.players[id].dog.id == g.tokens.players[id].dogId
  {
    hide SessionList, M.GameInv;
    DogHasItsId(g, id);
  }
}
