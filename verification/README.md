# A verified model of the dog game server

The program is a multiplayer game server.  Players join a map, each with a dog; dogs run along roads, pick up
lost objects and exchange them for score at offices.  A ticker moves everything, retires idle players and saves
the game from time to time.  The server keeps its database connections in a pool.  The browser client draws the
map as a grid of tiles and loads animated models.

The project models the logic of these parts and proves what holds for every input, every state and every run:

- `ConnectionPool`, `PoolProgress`: a step system over any number of threads, with an explicit mutex, a condition
  variable with spurious wake-ups, and a notification after the unlock; its safety, and that calls come to an end.
- `Geometry`, `Sorting`, `CollisionDetector`, `RoadMap`, `Dog`, `Motion`, `LootGenerator`: the plane, gather events,
  roads, the dog object with its clocks, how far a dog gets in a tick, and the generator of loot.
- `SessionModel`, `SessionLedger`, `SessionContest`, `SessionTick`, `TickOrder`, `Sums`: a session as a value, the
  replay of gather events on it, the balance of objects, who gets a contested one, and when the order of events
  makes no difference.
- `Village`, `ContestedTick`, `TiedTick`, `FirstTick`: small games, reached from a new one, in which a tick does what
  nobody would expect.
- `GameSession`: the session object, whose methods are tied to those values.
- `Registry`, `GameModel`, `GameRuns`: the redundant indexes, the game as a value, and its runs.
- `RunLedger`, `LootPlaces`, `CareerLedger`, `DogRuns`, `Records`: what holds over runs, and over careers of runs with
  restarts in between: the ledger of value, the places of objects, the clocks and ways of dogs, and what goes on record
  of retired players.
- `PlayerTokens`, `Game`: the heap objects, with players that point at sessions and dogs, tied to the values.
- `Serialization`, `RoundTrip`, `DogFiles`, `GameFiles`, `Archive`: what is saved, that it comes back, and the file
  as a list of fields.
- `Saver`, `Server`, `Application`: the state file, written step by step; the life of the server over saves, stops and
  restarts; the ticker callback and the save timer.
- `TileMap`, `RotationCurves`, `KeyframeTracks`, `SkinWeights`: the client's grid and its animation curves.

Where the program changes objects step by step the model does so too, and each method is tied to a function on
plain values; the theorems are about these functions and about runs of them.  Check everything with
`dafny verify dfyconfig.toml`.

## What the proofs found

- An event for an object that an earlier dog has taken puts an empty slot into the second dog's bag
  (src/model/game_session.cpp:129), and the next office then reads through it (src/model/dog.cpp:152-153).
  The model keeps this: bag slots are optional and the access is an outcome `Fault`.
  `ContestedTick.ContestedTickCanFault` is a run from a new game to a tick that reaches it.
  `SessionContest.FaultIff` and
  `SessionContest.FaultFromCleanIff` say exactly when a replay faults, in terms of the hits and the state before
  them, `SessionTick.TickFaultIff` and `Games.TickFaultedIff` the same of ticks, and
  `SessionContest.CleanIffUncontested` exactly when it leaves no empty slot either.  The ledger of value needs no
  such condition: it holds in every state a run reaches.
- Saving reads through the same slot (include/model/serialization/dog_serialization.h:51-53).
  `GameFiles.SaveGame` succeeds exactly when no dog carries one; a fault leaves the state file as it was.
  `TiedTick.FineTickSpoilsSave` is a run from a new game to a tick without a fault after which no file saves the game.
- An item past the end of a segment is not collected, although the end may be within the radius of it:
  `CollisionDetector.LeftBehindTheEnd` is an input, and `CollisionDetector.PassedIsCollectedIff` says that an item
  passed within the radius is collected exactly if its foot is on the segment.
- The first gathering segment of a dog starts at (0,0) and not at its spawn position (include/model/dog.h:61).  In
  `FirstTick.FirstTickReachesBack` a dog that has joined and stands still thereby hits an object out of its reach.
  `FirstTick.SegmentIsWayIff` says when a segment is the way of the tick, `FirstTick.FirstSegmentIff` that for a new
  dog this is so exactly if it was put at (0,0), as the program does unless it is told to draw places, and
  `DogRuns.GatheredOnTheWay` that it is so from the second tick on.
- Rotation keys stay further than 180 degrees apart if they do not come in increasing time:
  `RotationCurves.SameTimeStaysFar` is an input, and `RotationCurves.CloseIff` states the exact condition.

`TickOrder.TickIsDetermined` goes one way only: without two events of one dog or one object at one moment a tick has
one outcome, whatever the order of the containers.  `TickOrder.SwapIff` is exact, but for two events only; two orders
of more events may differ on the way and still end alike.

## Assumptions

- A token given to a new player is not in use; this is asked of the joins of a run.  The random fractions lie in
  [0,1].
- Time deltas are not negative, and roads have distinct ids.
- Coordinates, times and weights are reals, and distances are compared by their squares.  Counters and scores are
  unbounded.
- The probability curve 1 - (1 - p)^(t / interval) of the loot generator is 1 - q^t with the q for which
  q^interval = 1 - p; times are whole milliseconds.  The number q is a parameter: `LootGenerators.CurveIsUnique` says
  that there is at most one and `LootGenerators.CurveCanBeCalibrated` that it can be approached to any precision, but
  not that the real number itself exists, which rests on the completeness of the reals.

## Model

| member | source | states |
|---|---|---|
| ConnectionPool.Pool.constructor | include/database/connection_pool.h:38-43 | every slot gets its own product of the factory, and nothing is lent |
| ConnectionPool.Pool.TakeUnderMutex | src/database/connection_pool.cpp:32 | the connection of slot `used` moves out and the counter goes up |
| ConnectionPool.Pool.PutUnderMutex | src/database/connection_pool.cpp:39-40 | the counter goes down and the connection moves into the slot under it |
| ConnectionPool.StepPreservesOwnership | src/database/connection_pool.cpp:17-44 | every step moves at most one connection, from one place to an empty one |
| ConnectionPool.StepPreservesWake | src/database/connection_pool.cpp:23-44 | every step keeps the bound on free connections while somebody sleeps |
| ConnectionPool.RunInv | src/database/connection_pool.cpp:17-44 | slots, mutex, ownership and wake-up invariant hold in every state of every run |
| ConnectionPool.MutualExclusion | src/database/connection_pool.cpp:24-38 | at no moment of any run are two threads inside the mutex |
| ConnectionPool.RunsNeverFault | src/database/connection_pool.cpp:32-40 | in no run can a step take an empty or missing slot, or meet a zero counter on a return (the assertion) |
| ConnectionPool.EveryConnectionHasOneOwner | src/database/connection_pool.cpp:17-44 | each initial connection is always in exactly one slot, wrapper or returning thread; exactly the slots below the counter are empty |
| ConnectionPool.NoLostWakeup | src/database/connection_pool.cpp:23-44 | while anybody sleeps, the free connections are at most the woken waiters plus the pending notifications |
| ConnectionPool.BlockedMeansAllLent | src/database/connection_pool.cpp:27-29 | if all threads sleep or are outside and one sleeps, every connection is in a live wrapper |
| ConnectionPool.SomebodyInsideCanStep | src/database/connection_pool.cpp:23-44 | a thread inside a call and not asleep means some lock, check, take, put or notify step is possible |
| PoolProgress.InternalStepsEnd | src/database/connection_pool.cpp:17-44 | without new calls, released wrappers and spurious wake-ups at most as many steps follow as the threads have work left |
| PoolProgress.EveryServiceEnds | src/database/connection_pool.cpp:17-44 | after that many internal steps nothing is left to do inside the pool |
| PoolProgress.CallsCanBeFinished | src/database/connection_pool.cpp:17-44 | every run can be continued by internal steps alone until nothing is left to do |
| PoolProgress.QuietMeansServedOrAllLent | src/database/connection_pool.cpp:27-29 | when nothing is left to do each thread is outside or asleep, and a sleeper means that all connections are lent |
| CollisionDetector.DistanceSplitsAtFoot | src/physics/collision_detector.cpp:6-23 | the squared distance to any point of the line is sq_distance plus the squared way from proj_ratio |
| CollisionDetector.SqDistanceIsTheMinimum | src/physics/collision_detector.cpp:6-23 | sq_distance is non-negative, attained at proj_ratio and nowhere undercut |
| CollisionDetector.CollectedIff | include/physics/collision_detector.h:11-13 | IsCollected holds exactly when the foot lies on the segment and some point of the segment is within the radius |
| CollisionDetector.NothingCollectedPastTheEnd | include/physics/collision_detector.h:11-13 | an item whose foot is off the way is not collected however large the radius |
| CollisionDetector.PassedIsCollectedIff | include/physics/collision_detector.h:11-13 | an item passed within the radius is collected exactly if its foot is on the way, which two scalar products tell beforehand |
| CollisionDetector.LeftBehindTheEnd | include/physics/collision_detector.h:11-13 | the input: an item just behind the end of the way, at any distance up to the radius, is left |
| CollisionDetector.FindGatherEvents | src/physics/collision_detector.cpp:28-47 | exactly one event for each displaced gatherer and item it collects at the summed width, none else, in non-decreasing time |
| CollisionDetector.CollectsIff | src/physics/collision_detector.cpp:28-47 | a gatherer collects an item exactly if it moves, the foot of the perpendicular is on its way, and its way leads within the sum of the widths of the item |
| CollisionDetector.EventIff | src/physics/collision_detector.cpp:28-47 | which numbers make an event: a pair that meets, its time as the share of the way done at the foot of the perpendicular, and the distance there |
| CollisionDetector.EventsAreEncounters | src/physics/collision_detector.cpp:28-47 | event times lie in [0,1], and the gatherer is then within the summed widths of the item |
| RoadMap.FindRoadByPosition | src/model/map.cpp:52-64 | a road with the position, other than the excepted one, or None if there is no such road |
| RoadMap.RoadAtIsFirst | src/model/map.cpp:52-64 | the road found is the first such road in list order |
| RoadMap.RandomPositionIsOnRoad | src/model/map.cpp:43-50 | a random position lies on a road for every pair of random fractions |
| RoadMap.TravelFromRoad | src/model/game_session.cpp:55-89 | from a road a dog lands exactly on its target if that is on some road, and else on the clamp to the first road under it, without speed |
| RoadMap.TravelIsSafe | src/model/game_session.cpp:55-89 | a move stays between position and target and on the roads; it lands on the target exactly if that is on a road; off the roads nothing moves |
| RoadMap.StopsAtNearestPoint | src/model/map.cpp:66-96 | a dog that cannot reach its target stops at the point of its road nearest to it |
| RoadMap.TravelSpeed | src/model/map.cpp:66-96 | without any condition on the speed, each component of it is kept or lost; `Motion.SpeedAfterTick` says when |
| Motion.RoadCovers | src/model/map.cpp:25-35 | a road covers exactly the points within 0.4, in each coordinate, of a point between its ends |
| Motion.EveryPointIsDrawn | src/model/map.cpp:43-50 | every point of every road is drawn for some random numbers |
| Motion.PositionAfterTick | src/model/game_session.cpp:55-89 | after a tick of ms milliseconds a dog on a road is at p + v * ms / 1000 if that is on some road, and else at the border 0.4 off the ends of the first road under it |
| Motion.SpeedAfterTick | src/model/map.cpp:66-96 | it keeps its speed exactly if that point is strictly short of the border of the first road under its old place, or of the first other road under that point; else it loses all of it |
| Motion.StuckOffTheRoads | src/model/game_session.cpp:55-89 | off the roads a dog does not move and has no speed left |
| Motion.TwoTicksAreOne | src/model/dog.cpp:137-143 | two ticks that leave the speed as it is take a dog where one tick of their summed length does |
| Dogs.Dog.SetPosition | src/model/dog.cpp:80-85 | the gathering segment runs from its old end to the new position |
| Dogs.Dog.SetSpeedForTick | src/model/dog.cpp:91-100 | the life clock runs; the idle clock runs without speed and restarts with it |
| Dogs.Dog.SetDirection | src/model/dog.cpp:102-107 | the direction changes unless it is not one of the known five, which is the error |
| Dogs.KnownDirections | src/model/dog.cpp:102-105 | the known directions are the empty one, L, R, U and D |
| Dogs.Dog.Steer | src/model/dog.cpp:109-135 | an order sets direction and speed and restarts the idle clock, unless the direction is unknown |
| Dogs.Dog.CollectLostObject | src/model/dog.cpp:145-149 | a slot is added unless the bag is full |
| Dogs.Dog.DropLostObjects | src/model/dog.cpp:151-157 | the score grows by the value of the bag and the bag is emptied; an empty slot in the bag is the fault |
| Dogs.NothingToCash | src/model/dog.cpp:151-157 | an empty bag scores nothing |
| Dogs.OneMoreToCash | src/model/dog.cpp:151-157 | one more object in the bag scores exactly the entry of its type in the table more |
| Dogs.ClocksMeasureTime | src/model/dog.cpp:91-100 | after any orders and ticks the life clock is the sum of the deltas, and the idle clock their sum since the last restart |
| Dogs.LifeOnTheRoad | src/model/game_session.cpp:55-89 | a dog is on a road for its whole life, or never moves |
| Dogs.GathererFollowsTheDog | include/model/dog.h:61 | the gathering segment of the first tick starts at the old end, (0,0) for a new dog, and from the second on at the old position |
| LootGenerators.LootGenerator.Generate | include/model/loot_generator.h:39-49 | the count is the shortage times the chance, cut to [0, 1], rounded to the nearest integer and up from the middle; the clock is reset exactly by a non-zero result |
| LootGenerators.AppearingIsRounded | include/model/loot_generator.h:39-49 | the same of the function that the other rows are about, with the chance 1 - q^elapsed written out |
| LootGenerators.NeverMoreThanShortage | include/model/loot_generator.h:39-49 | never more than the looters lack, and nothing when loot is not short |
| LootGenerators.CertaintyCoversShortage | include/model/loot_generator.h:39-49 | a probability of one covers the whole shortage |
| LootGenerators.MoreTimeMoreLoot | include/model/loot_generator.h:39-49 | waiting longer never yields less, for every probability and base interval |
| LootGenerators.CurveIsThePower | include/model/loot_generator.h:42-43 | the chance of nothing after t ms, raised to the base interval, is (1-p) raised to t: it is the real power (1-p)^(t/interval) |
| LootGenerators.CurveIsUnique | include/model/loot_generator.h:42-43 | probability and base interval determine the curve |
| LootGenerators.CurveCanBeCalibrated | include/model/loot_generator.h:42-43 | for every probability and base interval some curve meets them to any precision |
| LootGenerators.CurveGrows | include/model/loot_generator.h:42-43 | the curve never falls with time |
| LootGenerators.BarrenCallsFuse | include/model/loot_generator.h:39-49 | calls without a result can be fused into the next one: only the sum of their times counts |
| SessionLedger.ReplayBalances | src/model/game_session.cpp:122-141 | handling any list of hits keeps the balance of objects for every way of weighing them |
| SessionLedger.ReplayScores | src/model/game_session.cpp:133-141 | handling any list of hits raises the scores by the price of what was exchanged, for any prices that fit the table of values |
| SessionLedger.CollectBalances | src/model/game_session.cpp:122-131 | collecting moves an object from the map into one bag |
| SessionLedger.DropBalances | src/model/game_session.cpp:133-141 | an office moves the bag into what was exchanged |
| SessionContest.OnMapUntilPassed | src/model/game_session.cpp:122-131 | an object is on the map exactly as long as no dog with room has passed it |
| SessionContest.FirstWithRoomTakesIt | src/model/game_session.cpp:116-131 | the first dog with room gets the object as the last thing in its bag, and it is off the map from then on |
| SessionContest.UnpassedStays | src/model/game_session.cpp:116-131 | an object nobody with room passes stays on the map |
| SessionContest.CleanIffUncontested | src/model/game_session.cpp:126-130 | the replay neither faults nor leaves an empty bag slot exactly when no object is passed twice with room, a condition on the hits and the state before them |
| SessionContest.BagLenIsLength | src/model/game_session.cpp:122-141 | how full a bag is before any hit follows from the hits alone: objects passed since the last office, up to the capacity |
| SessionContest.FaultIff | src/model/game_session.cpp:129 | replaying hits from any bags reaches the access through an empty slot exactly if a dog arrives at an office with an empty slot of its own, or one it took on the way |
| SessionContest.FaultFromCleanIff | src/model/game_session.cpp:129 | from clean bags it does exactly if a dog passes an object that an earlier dog with room passed, with room itself, and arrives at an office later |
| SessionContest.EmptySlotsBefore | src/model/game_session.cpp:126-130 | at every point of a replay a dog carries an empty slot exactly if it brought one or took one since its last office |
| SessionContest.BagsKeepCapacity | src/model/dog.cpp:163-165 | whatever the hits, no bag exceeds its capacity |
| SessionTick.LootHitIff | src/model/game_session.cpp:91-120 | a dog hits an object of its session exactly when its way of the tick passes it within the dog's width, with the foot of the perpendicular on the way |
| SessionTick.OfficeHitIff | src/model/game_session.cpp:91-120 | a dog comes to an office exactly when its way of the tick passes the place of some office of the map within 0.5 and the dog's width, with the foot of the perpendicular on the way |
| SessionTick.PairsHitOnce | src/model/game_session.cpp:91-120 | no dog passes one object twice in a tick |
| SessionTick.TickFaultIff | src/model/game_session.cpp:29-34 | a tick faults exactly if its hits lead a dog with an empty slot to an office |
| TickOrder.OrderMakesNoDifference | src/model/game_session.cpp:91-120 | all orders of the containers, and of events of one moment, have one outcome, if no dog and no object takes part in two events at once (a dog at two offices may) |
| TickOrder.TickIsDetermined | src/model/game_session.cpp:29-34 | a tick has one outcome under that condition: a fault in each order, or the same dogs and objects in each |
| TickOrder.EventsAreSchedule | src/model/game_session.cpp:91-120 | whatever the order of the containers, the events are exactly the meetings of dogs with objects (of width 0) and offices (of width 0.5), each once, in time order |
| TickOrder.MayComeLast | src/model/game_session.cpp:116-141 | a hit that shares no dog and no object with the later ones may be handled after them |
| TickOrder.SwapIff | src/model/game_session.cpp:122-141 | two hits of one moment have one outcome in either order exactly if they are apart, or a bag without room, an object already gone or a faulty bag makes the order immaterial |
| Village.RaceIsReached | src/model/game.cpp:35-51 | a game with two players on the way is reached from a new game by two joins and two orders, for any two tokens and any offices |
| TiedTick.TiesMakeADifference | src/model/game_session.cpp:116-131 | in that game two dogs pass one object at the same time; both orders are legal ticker steps, and decide who has it |
| TiedTick.FineTickSpoilsSave | src/model/game_session.cpp:126-130 | the input: a ticker step without a fault, in a reached game without empty slots, after which no file is a save of the game |
| ContestedTick.ContestedTickCanFault | src/model/game_session.cpp:129 | the input: in a game reached from a new one, without empty slots, the ticker faults; all events of its tick are computed |
| SessionTick.CollectedWithinReach | src/model/game_session.cpp:91-120 | some point of the gathering segment of a dog that hits an object is within the dog's width of it |
| SessionTick.WaysApartIsClean | src/model/game_session.cpp:116-131 | if no two ways cross one object the replay is clean in any order of equal times |
| SessionTick.TickKeepsInv | src/model/game_session.cpp:29-34 | a tick keeps bag sizes, object types, directions, axis-aligned speeds and the order of the clocks |
| SessionTick.TickAdvancesDogs | src/model/game_session.cpp:29-34 | apart from bag and score a tick does to each dog what its movement does |
| GameSessions.GameSession.UpdateDogPosition | src/model/game_session.cpp:55-89 | the dog object moves as the function says that the `Motion` rows are about |
| GameSessions.GameSession.MoveDogs | src/model/game_session.cpp:30-32 | every dog moves once |
| GameSessions.GameSession.UpdateTime | src/model/game_session.cpp:29-34 | the session becomes the replay of the gather events after everybody moved; false exactly on a fault |
| GameSessions.GameSession.HandleLoot | src/model/game_session.cpp:91-120 | items are the lost objects followed by the offices, and the events are handled in time order |
| GameSessions.GameSession.CollectLoot | src/model/game_session.cpp:122-131 | a lost object goes into the bag if there is room, an office index does nothing |
| GameSessions.GameSession.DropLoot | src/model/game_session.cpp:133-141 | a non-empty bag is exchanged at an office, a loot index does nothing |
| GameSessions.GameSession.GenerateLoot | src/model/game_session.cpp:36-49 | as many objects appear as the time without any makes it, with consecutive ids; without types or with enough objects none appears and the clock stands |
| GameSessions.GameSession.AddNewDog | src/model/game_session.cpp:13-19 | a new dog under the next id, followed by the loot of one period of the generator |
| GameSessions.SpawnIsOnRoadOrOrigin | src/model/game_session.cpp:13-14 | a new dog is put on a road if places are drawn, and else at (0,0) |
| GameSessions.GameSession.RemoveDog | src/model/game_session.cpp:51-53 | the dog leaves the session |
| GameSessions.LootNeverExceedsDogs | src/model/game_session.cpp:36-49 | new loot never lifts the number of objects above that of the dogs |
| GameSessions.DrawnLootIsPlaced | src/model/game_session.cpp:43-48 | new loot lies on the drawn road at the drawn fractions of its sides, and has the drawn type, a known one |
| Registry.JoinKeepsIndex | src/model/game.cpp:40-46 | a newcomer with fresh id, name, token and dog keeps all indexes in step |
| Registry.RetireKeepsIndex | src/model/game.cpp:139-145 | a leaving player takes its entries along and nothing else |
| Registry.DogIdsAreGlobal | src/model/player_tokens.cpp:66-72 | no dog id is in two sessions |
| Registry.LookupsFindPlayers | src/model/player_tokens.cpp:34-53 | a player is found by its id and by its own token, and nobody by any other id or token; which error a token gets depends on its length being 32 |
| Registry.JoinerIsFound | src/model/player_tokens.cpp:28-53 | after joining a player is found both ways, and everybody else as before |
| Registry.LeaverIsNotFound | src/model/player_tokens.cpp:34-72 | after leaving a player is found neither way, and everybody else as before |
| GameRuns.PlayersAreFound | src/model/player_tokens.cpp:34-53 | in every state of every run the lookups by id and by token find exactly the players there are |
| PlayerTokens.TokensHaveTheRightLength | src/model/player_tokens.cpp:7-26 | a token made of two 64-bit numbers has the 32 characters the lookup asks for |
| PlayerTokens.TokenIsTwoNumerals | src/model/player_tokens.cpp:7-26 | a token is zeros and the two numbers in hexadecimal, without zeros of their own in front |
| PlayerTokens.PlayerTokens.AddPlayer | src/model/player_tokens.cpp:28-32 | the player is added to all three maps; an older entry of the token or the id stays |
| PlayerTokens.PlayerTokens.FindPlayerByToken | src/model/player_tokens.cpp:34-45 | the player of a known token of the right length; the other cases are the errors |
| PlayerTokens.PlayerTokens.FindPlayerById | src/model/player_tokens.cpp:47-53 | with consistent indexes exactly the players there are |
| PlayerTokens.PlayerTokens.FindTokenByPlayerId | src/model/player_tokens.cpp:55-60 | the token of a known id, and the error otherwise |
| PlayerTokens.PlayerTokens.RemovePlayer | src/model/player_tokens.cpp:66-72 | the dog leaves its session, and the player all three maps |
| GameModel.NewGameInv | src/model/game.cpp:35-146 | a new game has no sessions and no players, its counters are at zero, and it satisfies the invariant of runs |
| GameModel.JoinKeepsInv | src/model/game.cpp:35-51 | joining keeps indexes, counters and sessions consistent |
| GameModel.JoinBringsPlayer | src/model/game.cpp:35-51 | who joins is a player under the next id with the next dog, on the map joined, under the name and token given; the counters go up by one, one and the number of new objects, which lie in the session under their ids; everything else stays |
| GameModel.NewLootKeepsInv | src/model/game.cpp:97-101 | new loot keeps indexes, counters and sessions consistent |
| GameModel.OrderKeepsInv | src/model/player.cpp:22-24 | a player's order keeps indexes, counters and sessions consistent |
| GameModel.OrderIsObeyed | src/model/dog.cpp:109-135 | an order gives the dog of its player, and no other, its direction and the speed of the map: L to the negative x, R to the positive, U to the negative y, D to the positive, the empty one none; the idle clock restarts; any other direction changes nothing |
| GameModel.TicksKeepInv | src/model/game.cpp:89-95 | a tick of all sessions keeps them consistent, and leaves the indexes as they are |
| GameModel.RetireKeepsInv | src/model/game.cpp:139-145 | a retirement keeps indexes, counters and sessions consistent |
| GameRuns.RunsKeepInv | src/model/game.cpp:35-146 | in every state of every run the indexes agree, each session holds exactly its players' dogs, and the counters exceed every id of a player, dog or object, on the ground or in a bag |
| GameRuns.RetireAllEffect | src/model/game.cpp:139-145 | retiring a list of players leaves the others and their dogs as they were |
| GameRuns.RetirementBound | src/model/game.cpp:131-146 | who retires had limit <= idle time < limit + delta and lived at least the limit, and is filed as it was |
| GameRuns.TickerLeavesActive | src/model/application.cpp:22-27 | after a ticker callback no live dog has reached the limit |
| GameRuns.RunsStayActive | src/model/application.cpp:22-27 | with a positive limit no live dog is idle for the limit in any state of any run |
| RunLedger.RunBooks | src/model/game_session.cpp:36-141 | over any run and for any weighing, what appeared on a map is what its holdings grew by, and scores grew by the price of what was exchanged |
| RunLedger.ValueLedger | src/model/game_session.cpp:36-141 | from a new game: value of all loot that appeared = on the map + in live bags + live scores + scores and bags of retired dogs, whatever weight gives objects of known types the entry in the table of the map |
| RunLedger.EachLootInOnePlace | src/model/loot.cpp:14-18 | an object that appeared is in exactly one place of its map: map, one bag, exchanged, or gone with a retired dog |
| RunLedger.NoLootInTwoSessions | src/model/loot.cpp:14-18 | an object that is somewhere in one session is nowhere in another |
| LootPlaces.RunKeepsOnePlace | src/model/loot.cpp:14-18 | over a run from any state, new or restored, no object comes to be in two places |
| LootPlaces.RestoringKeepsOnePlace | src/model/game.cpp:103-129 | restoring a saved game doubles no object and leaves no object with an id still to be given |
| LootPlaces.NothingIsDoubled | src/model/loot.cpp:14-18 | over any number of saves and restarts, each from any file saved before, no object is in two places in any state |
| CareerLedger.RestoredWealth | src/model/game.cpp:103-129 | restoring keeps the value on the ground, in bags and in scores of every map |
| CareerLedger.LineageLedger | src/model/game_session.cpp:36-141 | along lives that start from files saved in the one before: value of all loot that appeared = on the ground + in live bags + live scores + what retired dogs took along, for any such weight |
| CareerLedger.CareerIsEven | src/model/game_session.cpp:36-141 | every state of every career of saves and restarts has such a lineage, and its ledger is even |
| DogRuns.RunFollowsDeeds | src/model/game.cpp:89-95 | for as long as it is in the game a dog is, but for bag and score, what the ticks and the orders of its own player make of it |
| DogRuns.RunKeepsToRoad | src/model/game_session.cpp:55-89 | for as long as it is in the game a dog stays on the roads, or on its spot |
| DogRuns.LifeClockInRun | src/model/dog.cpp:91-100 | between any two states of a run the life clock of a dog advances by the ticks between them |
| DogRuns.ClocksInRun | src/model/dog.cpp:91-100 | from a dog's first state in a run the life clock is the time of the ticks, and the idle clock that since its player's last order or its last moving tick |
| DogRuns.DogsAreBornYoung | src/model/game.cpp:35-51 | a dog enters a run by a join only, under the next id, where it was put, facing up at rest, with an empty bag, no score, both clocks at zero and a segment of width 0.3 at the origin |
| DogRuns.SteadyDogs | src/model/game_session.cpp:55-89 | as long as a dog on a road keeps its speed over a run it is at p + v * ms / 1000 for the milliseconds ticked since |
| DogRuns.SegmentFollowsDog | src/model/dog.cpp:80-85 | once a dog has lived through a tick of the run its gathering segment ends where it is |
| DogRuns.GatheredOnTheWay | src/model/game_session.cpp:91-120 | from a dog's second tick in a run on, whatever it hits lies within its width of the way it went in that tick |
| FirstTick.SegmentIsWayIff | src/model/dog.cpp:80-85 | the gathering segment is the way of the tick exactly if it ended where the dog stood |
| FirstTick.FirstSegmentIff | include/model/dog.h:61 | in the first tick of a new dog the segment is its way exactly if it was put at (0,0) |
| FirstTick.FirstTickReachesBack | include/model/dog.h:61 | the input: after the first join to a new game, whatever step the ticker takes, the newcomer that stands still at (1,0) hits an object at (0,0), out of its reach |
| FirstTick.FirstTickHappens | src/model/game_session.cpp:29-34 | the ticker can take a step in that game |
| RunLedger.TicksCleanIff | src/model/game.cpp:89-95 | ticks leave no empty slot exactly when no session's tick is contested |
| RunLedger.UncontestedTickIsFine | src/model/game_session.cpp:29-34 | from a session without empty bag slots an uncontested tick does not fault |
| RunLedger.UncontestedRunsStayClean | src/model/game_session.cpp:116-141 | as long as no tick of a run is contested no bag has an empty slot, so that neither offices nor saving fault |
| Games.Game.UpdateTimeInSessions | src/model/game.cpp:89-95 | all sessions tick as their plain values do; false only on a fault in one of them |
| Games.TickFaultedIff | src/model/game.cpp:89-95 | the ticks of all sessions fault exactly if in some session a dog with an empty slot reaches an office |
| Games.Game.FindSession | src/model/game.cpp:66-76 | the session of a map, created on first use with a generator of the given period whose clock is at zero; an unknown map has none and changes nothing |
| Games.Game.JoinGame | src/model/game.cpp:35-51 | an unknown map is the error, a known name gets its token, a new name its dog, player and indexes, and the session the loot of one period by its clock |
| Games.Game.SetDirection | src/model/player.cpp:22-24 | an order reaches the player's dog and nobody else's |
| Games.Game.GenerateLootInSessions | src/model/game.cpp:97-101 | one batch of new loot for each session, as large as its clock, objects and dogs make it |
| Games.Game.AfkPlayers | src/model/game.cpp:132-137 | exactly the players whose dog has been idle for the limit, each once |
| Games.Game.RemoveAfkPlayers | src/model/game.cpp:131-146 | idle players leave every index, each with a record of its name, its dog's score and its dog's life clock |
| Records.RecordOverRun | src/model/game.cpp:131-146 | over a run: the record of a retired player holds its name, the score of its dog, and as play time what was on the life clock and all ticks since |
| Records.RecordSinceJoin | src/model/game.cpp:131-146 | the play time on record of a player who joined in the run is the time of all ticks since, and the name that of the join |
| Games.Game.RestoreGame | src/model/game.cpp:103-129 | the game object becomes what the value-level restoration of the file says, false exactly on its errors; it is a valid game if no two saved players share a dog |
| Games.Game.RestoreSession | src/model/game.cpp:105-111 | a session comes back with its objects |
| Games.Game.RestorePlayer | src/model/game.cpp:117-128 | a player comes back with its dog, token and indexes |
| Games.JoiningIsAStep | src/model/game.cpp:35-51 | a join of the game object is a step of the runs |
| Games.GeneratingIsARun | src/model/game.cpp:97-101 | generating loot in all sessions is a run of one step for each |
| Games.FairDrawIsNewLoot | src/model/game_session.cpp:43-48 | a batch lies on roads, has known types and ids from the counter |
| Serialization.DogRoundTripIff | include/model/serialization/dog_serialization.h:14-34 | a dog comes back as it was, but for clocks and gatherer, exactly if its bag has no empty slot and fits and its direction is known |
| Serialization.CollectAllFills | include/model/serialization/dog_serialization.h:30-32 | what does not fit in the bag is dropped silently |
| Serialization.RestoresIff | src/model/game.cpp:103-129 | restoring fails exactly on an unknown map, a player without token or an unknown direction |
| RoundTrip.SaveThenRestore | src/model/game.cpp:103-129 | restoring a saved game gives back every player, token, dog and lost object; it keeps the invariant and may be saved in exactly the same ways |
| RoundTrip.DogComesBack | include/model/serialization/dog_serialization.h:14-38 | field by field: identity, place, speed, direction, bag and score of a dog come back; its clocks are at zero and its segment is a new one |
| Serialization.CountersGoOn | src/model/dog.cpp:9-19 | the counters go on right after one of the saved ids; that it is above all of them is part of the invariant |
| RoundTrip.RestoredLootsAreLost | include/model/serialization/game_session_serialization.h:34-39 | the saved objects of a session restore to its lost objects |
| RoundTrip.DogBack | include/model/serialization/dog_serialization.h:25-34 | the dog of a saved player comes back rested |
| RoundTrip.PlayerBack | src/model/game.cpp:117-128 | one more player is back in tokens, names, map sets and session |
| RoundTrip.RegainedInv | src/model/game.cpp:103-129 | the restored game satisfies the invariant of runs |
| RoundTrip.SavedMeansClean | include/model/serialization/dog_serialization.h:49-54 | a game is only written when no bag has an empty slot |
| DogFiles.SerializeLoot | include/model/serialization/dog_serialization.h:49-54 | the objects of a bag in order; an empty slot is the fault |
| DogFiles.Save | include/model/serialization/dog_serialization.h:14-23 | the stored fields of a dog |
| DogFiles.Restore | include/model/serialization/dog_serialization.h:25-34 | a new dog set up through its setters, or the error |
| DogFiles.SerializeLostObjects | include/model/serialization/game_session_serialization.h:34-39 | every lost object once |
| GameFiles.SavePlayers | include/model/serialization/player_tokens_serialization.h:29-33 | every player with its dog |
| GameFiles.SaveTokens | include/model/serialization/player_tokens_serialization.h:35-39 | every token under its id |
| GameFiles.SavePlayer | include/model/serialization/player_serialization.h:15-20 | a player's id, name, map and dog |
| GameFiles.SerializeSessions | include/model/serialization/game_serialization.h:32-37 | every session once |
| GameFiles.SaveGame | include/model/serialization/game_serialization.h:14-17 | saving succeeds exactly when no dog carries an empty slot, and then writes the whole game |
| Archive.ReadsBackIff | include/model/serialization/game_serialization.h:22-27 | of the beginnings of a written file the whole one alone can be read, and gives back what was written |
| Archive.GameInverts | include/model/serialization/game_serialization.h:22-27 | reading a written game gives it back and leaves what follows |
| Archive.GameProlongs | include/model/serialization/game_serialization.h:22-27 | what can be read from a file can be read from a longer one |
| Savers.RunKeepsSaverInv | src/model/application.cpp:64-77 | in every state of a run of saves and stops the second file holds the fields written so far, and the state file those of the last snapshot moved into place |
| Savers.StateFileIsNeverTorn | src/model/application.cpp:64-77 | over any saves, and stops between any two fields, the state file is read as the last snapshot moved into place |
| Savers.HalfWrittenIsUnreadable | src/model/application.cpp:68-76 | until the last field is written the second file cannot be read |
| Savers.OldOrNew | src/model/application.cpp:76 | the rename alone changes the state file, and puts a whole snapshot in place |
| Servers.RunKeepsServerInv | src/model/application.cpp:22-77 | over steps of the game, saves, stops at any moment and starts from the state file, the running game is consistent and the state file that of a consistent game |
| Servers.RestartAlwaysWorks | src/model/application.cpp:48-62 | wherever the program stops it can start again, in whatever order the saved players are read |
| Servers.LastSaveComesBack | src/model/application.cpp:48-77 | what a program starts with is, but for clocks and gathering segments, the game at the moment the last save was completed |
| Servers.NothingSavedNothingBack | src/model/application.cpp:48-56 | before the first completed save the program starts with a new game |
| Servers.ServerKeepsOnePlace | src/model/application.cpp:22-77 | whenever the server was saved, stopped and started, no object of the running game is in two places |
| Servers.ReachedByRun | src/model/application.cpp:22-77 | what a list of actions reaches is the end of a run of the server |
| Applications.SavedDogsDiffer | include/model/serialization/player_tokens_serialization.h:29-33 | in a file that was saved no two players share a dog, which is what restoring asks for |
| Applications.Application.SaveGame | src/model/application.cpp:64-77 | the steps of a save are a run of the saver from the old files to the new ones, with a snapshot of the game; the state file stays the old one up to the last step, or for good on a fault |
| Applications.Application.SaveSnapshot | src/model/application.cpp:70-76 | a snapshot is written, closed and moved into place |
| Applications.Application.WriteFile | src/model/application.cpp:73 | the fields go into the second file one by one, in order |
| Applications.Application.SaveGameState | src/model/application.cpp:79-89 | after each call less than the save period has passed since the last save, and a due save was made |
| Applications.Application.RestoreGame | src/model/application.cpp:48-62 | without a file nothing happens; from a file saved for a game everything saved comes back |
| Applications.Application.TickerCallback | src/model/application.cpp:22-27 | a callback is one step of the runs followed by the steps of a save, as actions of the server; it records the retired, leaves nobody idle for the limit, and saves in time |
| TileMap.LoadMap | static/js/game_map.js:5-42 | smallest bounds around roads and buildings, and a grid that shows where roads are and where they go on; an empty map has no bounds and no tiles |
| TileMap.BoundsContain | static/js/game_map.js:5-42 | the bounds hold both ends of every road and both corners of every building |
| TileMap.BoundsAreSmallest | static/js/game_map.js:5-42 | any bounds that do are at least as large |
| TileMap.TileShows | static/js/game_map.js:5-42 | a cell is marked as road if a road lies on it, and to a side if a road along that side lies on it and on the next cell there |
| TileMap.DrawRoad | static/js/game_map.js:24-40 | all writes are in bounds and mark exactly the cells of the road |
| TileMap.NeighboursAgree | static/js/game_map.js:34-39 | `r` of a cell is `l` of the next, `d` is `u` of the one below |
| TileMap.NothingLeadsOff | static/js/game_map.js:17-22 | no mark leads off the grid |
| TileMap.OrderDoesNotMatter | static/js/game_map.js:24-41 | the grid depends on the set of roads only |
| TileMap.SameRoadsSameBounds | static/js/game_map.js:7-20 | the bounds depend on the set of roads only |
| RotationCurves.Curve.InterpolateRotations | static/js/loaders/FBXLoader.js:2628-2664 | the loop over the growing arrays ends, with exactly the keys of each gap inserted; times without value and values without time stay |
| RotationCurves.Curve.InjectAt | static/js/loaders/FBXLoader.js:2628-2664 | the keys of the gap go in before the index and the others stay in order; past the keys nothing changes |
| RotationCurves.Interpolate | static/js/loaders/FBXLoader.js:2638-2655 | the inner loop finds the keys between two neighbours in steps of a half turn |
| RotationCurves.CloseIff | static/js/loaders/FBXLoader.js:2628-2664 | afterwards neighbours are at most 180 apart, exactly if every pair that was further apart came in order of time |
| RotationCurves.SameTimeStaysFar | static/js/loaders/FBXLoader.js:2628-2664 | the input: two keys with one time, 270 apart, stay as they are |
| RotationCurves.TimesStillIncrease | static/js/loaders/FBXLoader.js:2628-2664 | strictly increasing times stay so |
| RotationCurves.KeysStayAndInsertedFit | static/js/loaders/FBXLoader.js:2628-2664 | the keys stay in order, and each inserted one lies on the line between its neighbours, strictly between them in time |
| RotationCurves.InsertedInHalfTurns | static/js/loaders/FBXLoader.js:2628-2664 | as many keys are inserted as whole half turns of 180 fit strictly between two keys in order of time, the k-th exactly k half turns on at its share of the time |
| RotationCurves.NothingMoreToInsert | static/js/loaders/FBXLoader.js:2628-2664 | a second pass would insert nothing |
| KeyframeTracks.GetTimesForAllAxes | static/js/loaders/FBXLoader.js:2529-2568 | the times of all axes, strictly increasing |
| KeyframeTracks.RemoveDuplicates | static/js/loaders/FBXLoader.js:2544-2563 | the in-place pass keeps each time once |
| KeyframeTracks.IncreasingListIsUnique | static/js/loaders/FBXLoader.js:2529-2568 | an increasing list is determined by its members, so the merged times are the only possible ones |
| KeyframeTracks.GetKeyframeTrackValues | static/js/loaders/FBXLoader.js:2570-2621 | three values for each time, undefined where a key has none, and the initial value overwritten with the last ones |
| KeyframeTracks.LatestKeyCounts | static/js/loaders/FBXLoader.js:2570-2621 | the value of an axis is that of its latest key up to the time, or the initial one |
| KeyframeTracks.MergedTrack | static/js/loaders/FBXLoader.js:2529-2621 | for merged times the three values of a frame are those of the latest keys of x, y and z |
| SkinWeights.FourWeights | static/js/loaders/FBXLoader.js:1684-1725 | exactly four weights: the cut of more, or fewer filled with zeros |
| SkinWeights.KeepFour | static/js/loaders/FBXLoader.js:1693-1715 | kept and dropped shares are the given ones and four empty ones; nothing dropped is larger than anything kept |
| SkinWeights.KeptAreTheLargest | static/js/loaders/FBXLoader.js:1684-1717 | of more than four non-negative weights the four largest are kept, largest first |
| SkinWeights.KeptSharesAreGiven | static/js/loaders/FBXLoader.js:1684-1717 | a kept positive weight carries its own bone index, and every share above the smallest kept one is kept |
| SkinWeights.KeptOrNothing | static/js/loaders/FBXLoader.js:1693-1715 | whatever is kept is a given share or weight 0 on bone 0 |

## Left out

- HTTP server, request routing, JSON, command line, logging and the PostgreSQL calls; what the database is told about
  a retired player is a returned record.
- The text of the Boost archive: a file is the list of its fields in the order in which they are written, without
  header, class versions and the spelling of numbers, and maps are written in ascending order of keys.
- Floating-point rounding, size_t and millisecond overflow, wall clocks and the random generators.
- The chance that two tokens clash; their length and text are modelled.
- `Game::AddMap` and the lookups of maps and offices by id: the maps of a game are a given map by id.
- `Game::GetPlayersOnMap`: a plain lookup in one of the indexes.
- The assertion at src/model/game.cpp:90, which concerns ticks over HTTP; the ticker path is modelled.
- Move assignment of a connection wrapper, which the program does not use; its move construction and destruction
  are modelled.
- The order in which std::map and std::unordered_map are walked by the game: any order is allowed, so the results
  hold for each.
- The history of a session (what ever appeared, was exchanged or left) and the log of snapshots are records of the
  model, not of the program.
- Rendering, camera, keyboard and the remaining code of the model loaders.
- Games.Game.RestoreGame: starts from a game without sessions, as the program does.  Of a file in which two players
  share a dog, which the program never writes, it states the resulting values, but not that the objects are valid,
  as one dog object then serves two players.  What a failed restoration leaves behind is not stated.
- Dogs.Dog.DropLostObjects: what is left of the score after an access through an empty slot is not stated, as the
  program's behaviour is undefined there.
- RoadMap.TravelSpeed: does not say which component is lost at a speed that is not along an axis, which no dog of the
  game has (`SessionTick.TickKeepsInv`); `Motion.SpeedAfterTick` does for speeds along one.
- Games.Game.UpdateTimeInSessions: after a fault in one session nothing is stated about the state.
- ConnectionPool.SomebodyInsideCanStep: says that some step is possible, not that the scheduler is fair.
  `PoolProgress.EveryServiceEnds` bounds the steps of all threads together, and does not say which thread is served
  first.
- LootGenerators.LootGenerator.Generate: the number q of its curve is a parameter, as said under Assumptions.
- TickOrder.TickIsDetermined: one direction only; when orders of tied events that differ on the way end alike is not
  stated.
- Savers.StateFileIsNeverTorn: a rename is atomic and a closed file is complete; what a power failure does to
  unwritten caches is not modelled.
