/** What goes on record of a retired player, over whole runs of the game. */
module Records {
  import opened RoadMap
  import opened Dogs
  import opened SessionModel
  import opened SessionTick
  import opened Registry
  import opened GameModel
  import opened GameRuns
  import opened DogRuns
  import Games

  lemma PlayerInTicks(g: Game, delta: nat, hits: map<MapId, seq<Hit>>, id: nat, k: MapId, dog: nat)
    requires TicksAreFine(g, delta, hits) && id in g.tokens.players
    requires g.tokens.players[id].mapId == k && g.tokens.players[id].dogId == dog
    requires HasDogState(AfterTicks(g, delta, hits), id) && k in g.sessions && dog in g.sessions[k].dogs
    ensures var t := AfterTicks(g, delta, hits);
            t.tokens == g.tokens && DogOf(t, id).liveTime == g.sessions[k].dogs[dog].liveTime + delta
  {
    TicksChangeSessions(g, delta, hits);
    TicksAreTicks(g, delta, hits, k, dog);
    hide TicksAreFine, AfterTicks, Travel, Target;
  }

  lemma RecordInFields(records: seq<Games.Record>, g: Game, ids: seq<nat>, a: nat)
    requires Games.AreRecords(records, g, ids) && a < |ids|
    ensures a < |records| && HasDogState(g, ids[a])
    ensures records[a].name == g.tokens.players[ids[a]].name
    ensures records[a].score == DogOf(g, ids[a]).score && records[a].playTimeMs == DogOf(g, ids[a]).liveTime
  {
    hide HasDogState;
    assert Games.IsRecord(records[a], g, ids[a]);
  }

  /** A player who retires in a step of a run goes on record with its name, the score of its dog after the ticks of
      that step, and as play time what the dog had on its life clock and all ticks since. */
  lemma RecordOverRun(run: seq<Game>, limitMs: nat, steps: seq<Step>, k: MapId, dog: nat, i: nat, j: nat, a: nat,
      records: seq<Games.Record>)
    requires IsRun(run, limitMs, steps) && Present(run, k, dog, i, j) && k in run[0].maps
    requires j < |steps| && steps[j].Ticker? && TicksAreFine(run[j], steps[j].deltaMs, steps[j].hits)
    requires Games.AreRecords(records, AfterTicks(run[j], steps[j].deltaMs, steps[j].hits), steps[j].afk)
    requires a < |steps[j].afk| && steps[j].afk[a] in run[j].tokens.players
    requires run[j].tokens.players[steps[j].afk[a]].mapId == k && run[j].tokens.players[steps[j].afk[a]].dogId == dog
    ensures a < |records| && records[a].name == run[j].tokens.players[steps[j].afk[a]].name
    ensures records[a].playTimeMs == DogIn(run[i], k, dog).liveTime + TickedMs(steps[i..j + 1])
    ensures var t := AfterTicks(run[j], steps[j].deltaMs, steps[j].hits);
            k in t.sessions && dog in t.sessions[k].dogs && records[a].score == t.sessions[k].dogs[dog].score
  {
    hide GameInv, Legal, After, TicksAreFine, AfterTicks, Games.AreRecords, TickedMs, IsRun;
    RecordInFields(records, AfterTicks(run[j], steps[j].deltaMs, steps[j].hits), steps[j].afk, a);
    PlayerInTicks(run[j], steps[j].deltaMs, steps[j].hits, steps[j].afk[a], k, dog);
    LifeClockInRun(run, limitMs, steps, k, dog, i, j);
    TickedOneMore(steps, i, j + 1);
  }

  lemma {:induction false} DeedsKeepName(m: GameMap, d: DogState, deeds: seq<Deed>)
    ensures AfterDeeds(m, d, deeds).name == d.name
  {
    hide Travel, Target;
    if deeds != [] {
      DeedsKeepName(m, d, deeds[..|deeds| - 1]);
    }
  }

  lemma NameStays(run: seq<Game>, limitMs: nat, steps: seq<Step>, k: MapId, dog: nat, i: nat, j: nat)
    requires IsRun(run, limitMs, steps) && Present(run, k, dog, i, j) && k in run[0].maps
    ensures DogIn(run[j], k, dog).name == DogIn(run[i], k, dog).name
  {
    hide GameInv, Legal, After, AfterDeeds, DeedsInRun;
    RunFollowsDeeds(run, limitMs, steps, k, dog, i, j);
    DeedsKeepName(run[0].maps[k], DogIn(run[i], k, dog), DeedsInRun(run, steps, k, dog, i, j));
  }

  /** The play time on record of a player who joined in the run is the time of all ticks since. */
  lemma RecordSinceJoin(run: seq<Game>, limitMs: nat, steps: seq<Step>, k: MapId, dog: nat, i: nat, j: nat, a: nat,
      records: seq<Games.Record>)
    requires IsRun(run, limitMs, steps) && Present(run, k, dog, i + 1, j) && k in run[0].maps
    requires dog !in SessionOf(run[i], k).dogs
    requires j < |steps| && steps[j].Ticker? && TicksAreFine(run[j], steps[j].deltaMs, steps[j].hits)
    requires Games.AreRecords(records, AfterTicks(run[j], steps[j].deltaMs, steps[j].hits), steps[j].afk)
    requires a < |steps[j].afk| && steps[j].afk[a] in run[j].tokens.players
    requires run[j].tokens.players[steps[j].afk[a]].mapId == k && run[j].tokens.players[steps[j].afk[a]].dogId == dog
    ensures steps[i].Join? && steps[i].mapId == k
    ensures a < |records| && records[a].playTimeMs == TickedMs(steps[i + 1..j + 1])
    ensures records[a].name == steps[i].name
  {
    hide GameInv, Legal, After, TicksAreFine, AfterTicks, Games.AreRecords, TickedMs;
    RunsKeepInv(run, limitMs, steps, i);
    assert run[i + 1] == After(run[i], limitMs, steps[i]) && Legal(run[i], limitMs, steps[i]);
    DogsAreBornYoung(run[i], limitMs, steps[i], k, dog);
    RecordOverRun(run, limitMs, steps, k, dog, i + 1, j, a, records);
    NameStays(run, limitMs, steps, k, dog, i + 1, j);
    RunsKeepInv(run, limitMs, steps, j);
    PlayersHaveDogs(run[j], steps[j].afk[a]);
  }
}
