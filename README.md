# Farm-dice game server, modelled in Dafny

This project models the rules engine of a small multiplayer farm-trading dice game
server. Each room has a game state. Players take turns rolling a blue and a red
twelve-sided cube. Each face maps to an animal tier (rabbit, sheep, pig, cow, horse) or
to a predator. The player on turn breeds the tiers the cubes show, loses animals to the
fox and the wolf unless a guard dog drives them off, trades animals up a fixed table,
and wins once the farm is worth 127 points. The model also covers the room roster the
engine reads its players from, and the Fisher–Yates shuffle that decides the playing
order.

The repository holds two diverging copies of the engine. Each is its own module, and
the two are never mixed:

- `ApiGames` (`api_games.dfy`) models `api/src/games.ts`, the canonical copy. It has fox
  code 7 and wolf code 8, game-level guard-dog counters, a win check and `endMove`.
- `Games` (`games.dfy`) models `src/games.ts`, the copy the server entry point imports.
  Here code 4 (horse) is also the fox and the wolf, and a tier that neither cube shows
  drops to zero. Every roll clears both dogs. The roll never sets `cubesPlayed` or a
  winner, and never touches the dog counters. This copy has no `endMove`.
- `Copies` (`copies.dfy`) proves where the two copies agree and where they differ: the
  trade table, the faces of the cubes, and the breeding rule.
- `Rooms` (`rooms.dfy`) models `src/rooms.ts`: the `rooms` table, `createRoom`,
  `joinRoom` and `getRoom`.
- `Helpers` (`helpers.dfy`) models `shuffleArray` from `src/helpers.ts`, swapping array
  cells in place.
- `Common` (`common.dfy`) holds `Option` (`None` is JavaScript's `undefined`) and
  `Result`.

Both engines follow the same shape. A `GameTable` class holds the `games` map. Its
methods follow the source statement by statement: they read the room's state, update
its fields one at a time, and store it back. Each method's `ensures` ties the new map
to a pure function of the old state: `Started`, `Rolled`, `Bought` or `Ended`. The
lemmas state what the source promises about those functions. `startGame`,
`dropCubes`, `buyAnimal` and `endMove` read `games[roomId]` first, so on a room id with
no game the original throws a TypeError before changing anything. The model returns
`UnknownRoom` in that case and leaves the table unchanged. `getGame` returns
`undefined` for such an id, and `createGame` writes without reading.

Randomness is an input. Each cube takes its roll (`Math.floor(Math.random() * 12) + 1`
always lies in 1..12). The shuffle takes one swap index `js[i]` in `[0, i]` for each
position. `createRoom` takes the room id that `generateUuid` would have drawn.
JavaScript's `Math.floor(n / 2)` on an integer equals Dafny's `n / 2`. JavaScript's
`n % 2 === 1` holds only for positive odd `n`, so the model writes
`n > 0 && n % 2 == 1`.

Behaviours of the code worth noting, all of which the model keeps:

- `startGame` shuffles the ids of all the passed players, offline ones included. It
  keeps only the online players in `players`, so the turn can fall to a player who has
  no farm. A roll on such a turn changes only the cube numbers.
- In `api/src/games.ts` the red cube's 11 is a horse; in `src/games.ts` it is a cow.
- The guard-dog counters are game-level fields, not per-farm ones. Buying a dog the
  player already holds still adds one to its counter.
- `startGame` does not reject an empty roster. The playing order is then empty and
  `playingId` is `undefined`.
- `startGame` on a room that already held a game keeps that game's `winnerId`,
  `cubesPlayed` and dog counters; only the fields it assigns are reset.
- Neither copy ever sets the status to `finished`. A won game goes on accepting rolls,
  purchases and turn ends.

## Model

| member | source | states |
|---|---|---|
| `Helpers.ShuffleArray` | src/helpers.ts:5-11 | works in place on the given array and returns that same array; the array ends as `Shuffled` of its old contents; the loop keeps every position above `i` at its final value |
| `Helpers.ValidSwaps` | src/helpers.ts:7 | reference definition of the index draws: one `j` per position `i` with `0 <= j <= i`, the range of `Math.floor(Math.random() * (i + 1))`; `Shuffle`, `Shuffled` and `ShuffleArray` require it |
| `Helpers.Swap` | src/helpers.ts:8 | one step exchanges positions `i` and `j` and leaves every other position as it was |
| `Helpers.SwapPermutes` | src/helpers.ts:8 | one swap keeps the multiset of elements |
| `Helpers.Shuffle` | src/helpers.ts:6-8 | the remaining steps of the loop keep the length |
| `Helpers.ShufflePermutes` | src/helpers.ts:5-11 | the shuffle yields the same multiset of ids: a permutation of the input |
| `Helpers.SwapKeepsDistinct` | src/helpers.ts:8 | a swap keeps a sequence without repeats free of repeats |
| `Helpers.ShuffleKeepsDistinct` | src/helpers.ts:6-9 | the shuffle keeps a sequence without repeats free of repeats |
| `Helpers.ShuffledPermutes` | src/helpers.ts:5-11 | the whole shuffle keeps the length and is a permutation of the input |
| `Helpers.ShuffleFixesSuffix` | src/helpers.ts:6-8 | once the loop reaches step `i`, positions above `i` are never written again |
| `Helpers.ShuffleShort` | src/helpers.ts:6 | arrays of length 0 or 1 come back unchanged |
| `Helpers.Shuffled` | src/helpers.ts:6-9 | reference definition of the whole loop, from `i = length - 1` down to 1; `ShuffledPermutes` and `ShuffleShort` state its properties |
| `Rooms.RoomTable.constructor` | src/rooms.ts:19 | the table starts empty, so every roster trivially has distinct ids |
| `Rooms.RoomTable.CreateRoom` | src/rooms.ts:22-26 | stores `{hostId, players: []}` under the given id and returns that id; keeps ids distinct |
| `Rooms.RoomTable.JoinRoom` | src/rooms.ts:29-54 | on an unknown room returns null and leaves the table unchanged; otherwise the roster becomes `Joined` and is returned; keeps every roster's ids distinct |
| `Rooms.RoomTable.GetRoom` | src/rooms.ts:56-67 | null for an unknown id, table unchanged; otherwise returns the host id and the players without sockets, and the stored players lose their sockets too, since the array is shared |
| `Rooms.HasPlayer` | src/rooms.ts:38 | reference definition of the `find` by id that decides between appending and reconnecting; `Joined`, `JoinNewAppends`, `JoinExistingReconnects` and `RoomTable.JoinRoom` use it |
| `Rooms.Reconnect` | src/rooms.ts:44-51 | reference definition of the `map` callback: an entry with the joining id gets the new socket and `online = true`; `JoinExistingReconnects` states it |
| `Rooms.Joined` | src/rooms.ts:38-52 | reference definition of the roster after `joinRoom`; `JoinNewAppends`, `JoinExistingReconnects`, `JoinIds` and `JoinKeepsUnique` state its properties |
| `Rooms.Stripped` | src/rooms.ts:59-62 | reference definition of the roster after the sockets are deleted; `StrippedKeepsRoster` states its properties |
| `Rooms.JoinNewAppends` | src/rooms.ts:38-42 | a new id is appended at the end with the given socket; the length grows by one and earlier entries are unchanged |
| `Rooms.JoinExistingReconnects` | src/rooms.ts:43-51 | a known id keeps the length; matching entries get the new socket and `online = true` and keep their stored name; other entries are unchanged |
| `Rooms.JoinIds` | src/rooms.ts:38-53 | after a join the roster's ids are exactly the old ids plus the joining id |
| `Rooms.JoinKeepsUnique` | src/rooms.ts:38-53 | a join keeps the ids of a roster pairwise distinct |
| `Rooms.StrippedKeepsRoster` | src/rooms.ts:59-62 | deleting sockets keeps the length and every other property of every entry, and keeps ids distinct |
| `ApiGames.BlueAnimal` | api/src/games.ts:122-156 | rolls 1..12 give rabbit, sheep, pig, cow or wolf (8), never the default 5; any other roll gives 5 |
| `ApiGames.RedAnimal` | api/src/games.ts:158-192 | rolls 1..12 give rabbit, sheep, pig, horse or fox (7), never 5; any other roll gives 5 |
| `ApiGames.BlueDistribution` | api/src/games.ts:128-153 | the blue faces showing each code are exactly: rabbit {1..6}, sheep {7,8,9}, pig {10}, cow {11}, wolf {12}; so 6, 3, 1, 1 and 1 faces; none shows horse, fox or the default 5 |
| `ApiGames.RedDistribution` | api/src/games.ts:164-189 | the red faces showing each code are exactly: rabbit {1..6}, sheep {7,8}, pig {9,10}, horse {11}, fox {12}; so 6, 2, 2, 1 and 1 faces; none shows cow, wolf or the default 5 |
| `ApiGames.ReproduceAnimal` | api/src/games.ts:194-213 | neither cube shows the tier: count unchanged; both: `n + floor(n/2) + 1`; exactly one: `n + floor(n/2)`, plus 1 for positive odd `n` |
| `ApiGames.ReproduceNeverShrinks` | api/src/games.ts:194-213 | for `n >= 0` breeding never lowers the count |
| `ApiGames.Breed` | api/src/games.ts:224-228 | reference definition: every tier bred by `ReproduceAnimal` with its own code; `HorsesSurvive` and the attack lemmas use it |
| `ApiGames.FoxAttack` | api/src/games.ts:230-235 | reference definition of the fox step; `FoxEatsRabbits` and `FoxMeetsDog` state it |
| `ApiGames.WolfAttack` | api/src/games.ts:237-245 | reference definition of the wolf step; `WolfEatsAllButHorses` and `WolfMeetsDog` state it |
| `ApiGames.Resolve` | api/src/games.ts:224-245 | reference definition of the farm after one roll: breeding, then the fox, then the wolf; `HorsesSurvive` states that horses only breed |
| `ApiGames.Points` | api/src/games.ts:259-263 | reference definition of the farm value with the `animalPoints` weights; `CheckWin`, `WinThreshold` and `TradeKeepsPoints` use it |
| `ApiGames.CheckWin` | api/src/games.ts:258-270 | holds iff `rabbits + 6 sheep + 12 pigs + 36 cows + 72 horses >= 127` |
| `ApiGames.WinThreshold` | api/src/games.ts:22-34 | the farm (1,1,1,1,1) wins; no farm worth 126 points wins |
| `ApiGames.PlayingIndex` | api/src/games.ts:272-278 | the first roster index whose id is `playingId`, or -1 when there is none |
| `ApiGames.Plays` | api/src/games.ts:274 | reference definition of the `player.id === game.playingId` test in `getFarm` and `updateFarm` (lines 274 and 282); `PlayingIndex`, `UpdateFarm` and the frame lemmas use it |
| `ApiGames.GetFarm` | api/src/games.ts:272-278 | reference definition: the farm of the first entry whose id is `playingId`; `GetFarmFinds` states it |
| `ApiGames.GetFarmFinds` | api/src/games.ts:272-278 | a farm is found exactly when some roster entry is on turn, and it is the farm of such an entry |
| `ApiGames.UpdateFarm` | api/src/games.ts:280-288 | reference definition: every entry whose id is `playingId` gets the farm; `UpdateFarmFrame` and `UpdateOnePlayer` state it |
| `ApiGames.UpdateFarmFrame` | api/src/games.ts:280-288 | only the roster changes; every entry keeps its player; entries on turn get the new farm and the others keep theirs |
| `ApiGames.Rolled` | api/src/games.ts:215-256 | reference definition of the state after `dropCubes`; `RolledFrame`, `RolledWithoutPlayer` and the predator lemmas state its properties |
| `ApiGames.RolledWithoutPlayer` | api/src/games.ts:215-223 | with nobody on turn in the roster, `dropCubes` changes only the two cube numbers |
| `ApiGames.RolledFrame` | api/src/games.ts:215-256 | `dropCubes` records both cubes and sets `cubesPlayed`; only the entries on turn change, and only their farm, which becomes the bred-and-attacked farm; each dog counter drops by 1 exactly when its predator meets the dog on the farm, else it is kept; `winnerId` becomes `playingId` iff that farm wins, else it is kept; status, turn, order and move number are unchanged |
| `ApiGames.HorsesSurvive` | api/src/games.ts:224-245 | horses only breed; neither predator takes one |
| `ApiGames.FoxEatsRabbits` | api/src/games.ts:230-231 | a fox with no level-1 dog leaves no rabbits |
| `ApiGames.WolfEatsAllButHorses` | api/src/games.ts:237-241 | a wolf with no level-2 dog sets rabbits, sheep, pigs and cows to 0 and keeps the bred horses |
| `ApiGames.FoxMeetsDog` | api/src/games.ts:232-235 | when the blue cube shows no wolf, a fox against a level-1 dog clears that dog, lowers `dogLevel1bought` by exactly 1, leaves the other counter alone and takes no animal |
| `ApiGames.WolfMeetsDog` | api/src/games.ts:242-245 | when the red cube shows no fox, a wolf against a level-2 dog clears that dog, lowers `dogLevel2bought` by exactly 1, leaves the other counter alone and takes no animal |
| `ApiGames.Trade` | api/src/games.ts:295-325 | reference definition of the trade table on a farm; `TradeKeepsPoints` and `BuyWithoutStock` state its properties |
| `ApiGames.Bought` | api/src/games.ts:290-331 | reference definition of the state after `buyAnimal`; `BoughtFrame` and `BuyUnknownKey` state its properties |
| `ApiGames.TradeKeepsPoints` | api/src/games.ts:295-313 | trading up the chain (6 rabbits for a sheep, 2 sheep for a pig, 3 pigs for a cow, 2 cows for a horse) keeps the farm's points; a level-1 dog costs one sheep (6 points) and a level-2 dog one cow (36 points); any other key leaves the farm unchanged |
| `ApiGames.BuyWithoutStock` | api/src/games.ts:300-303 | there is no stock check: buying a pig with one sheep leaves `sheep = -1` |
| `ApiGames.BoughtFrame` | api/src/games.ts:290-331 | `buyAnimal` gives the entries on turn the traded farm, adds 1 to the counter of a bought dog and changes nothing else; with nobody on turn it changes nothing |
| `ApiGames.BuyUnknownKey` | api/src/games.ts:290-331 | over distinct ids, a key outside the table (rabbit, fox, wolf, anything else) leaves the game unchanged |
| `ApiGames.IndexOf` | api/src/games.ts:336 | `findIndex`: the first index holding the id, or -1 |
| `ApiGames.NextPlayer` | api/src/games.ts:336-341 | reference definition of the id that gets the turn; `NextPlayerCycles` and `EndMoveStep` state its properties |
| `ApiGames.Ended` | api/src/games.ts:333-344 | reference definition of the state after `endMove`; `EndedFrame` and `TurnsGoRound` state its properties |
| `ApiGames.NextPlayerCycles` | api/src/games.ts:336-341 | the next id is `playingOrder[(i+1) mod len]` for the current id's index `i`; `playingOrder[0]` when the current id is absent; undefined when the order is empty |
| `ApiGames.EndedFrame` | api/src/games.ts:333-344 | `endMove` adds exactly 1 to `moveNumber`, clears `cubesPlayed`, passes the turn and changes nothing else (farms, status, winner) |
| `ApiGames.EndMoveStep` | api/src/games.ts:336-341 | over an order without repeats (which `StartedOrderDistinct` gives for a started game), the player at index `j` hands over to `j + 1`, or to index 0 after the last player |
| `ApiGames.EndedTimesCounts` | api/src/games.ts:335 | `n` turn ends add `n` to `moveNumber` and keep the order |
| `ApiGames.TurnsGoRound` | api/src/games.ts:333-344 | over an order without repeats (which `StartedOrderDistinct` gives for a started game), `n <= len` turn ends from index `i` reach index `i + n`, wrapped once past the end |
| `ApiGames.FullRound` | api/src/games.ts:333-344 | over an order without repeats (which `StartedOrderDistinct` gives for a started game), one full round of turn ends puts the same player on turn again |
| `ApiGames.PlayerIds` | api/src/games.ts:104 | `players.map(player => player.id)`: over a roster with distinct ids, as the room table keeps it, the ids have no repeats |
| `ApiGames.Seated` | api/src/games.ts:112-115 | the online players and no others, each with a zeroed farm and no dogs |
| `ApiGames.Started` | api/src/games.ts:102-120 | reference definition of the state after `startGame`; `StartedState` and `StartTwoPlayers` state its properties |
| `ApiGames.StartedState` | api/src/games.ts:102-120 | `startGame` sets status running and move 1; `playingOrder` is a permutation of all the passed ids, offline ones included; `playingId` is its first entry; `players` is the online subset in input order with zeroed farms; `winnerId`, `cubesPlayed` and both dog counters keep their old values |
| `ApiGames.StartedOrderDistinct` | api/src/games.ts:102-111 | over a roster with distinct ids the playing order of a started game has no repeats |
| `ApiGames.StartTwoPlayers` | api/src/games.ts:102-120 | with A and B online the order is [A,B] or [B,A], one of them plays, and both farms start empty |
| `ApiGames.UpdateOnePlayer` | api/src/games.ts:280-288 | over distinct ids, `updateFarm` replaces the farm of exactly the entry on turn and keeps the ids distinct |
| `ApiGames.NewGameDogsCounted` | api/src/games.ts:68-80 | a new game satisfies the counter invariant: each dog counter is at least the number of farms holding that dog |
| `ApiGames.RolledKeepsDogsCounted` | api/src/games.ts:230-249 | a roll keeps the counter invariant: a dog used up against a predator leaves its farm and its counter together |
| `ApiGames.BoughtKeepsDogsCounted` | api/src/games.ts:315-327 | a purchase keeps the counter invariant |
| `ApiGames.EndedKeepsDogsCounted` | api/src/games.ts:333-344 | ending a move keeps the counter invariant |
| `ApiGames.SeatedFresh` | api/src/games.ts:112-115 | seated players hold no dogs, and a roster with distinct ids stays distinct when seated |
| `ApiGames.StartedKeepsDogsCounted` | api/src/games.ts:102-120 | starting with a roster of distinct ids, as the room table keeps it, keeps the counter invariant |
| `ApiGames.GameTable.constructor` | api/src/games.ts:92 | the games table starts empty |
| `ApiGames.GameTable.CreateGame` | api/src/games.ts:94-96 | stores a fresh not-started game under the room id, overwriting any earlier one |
| `ApiGames.GameTable.GetGame` | api/src/games.ts:98-100 | reference definition: the stored game, or undefined (`None`) for an unknown room |
| `ApiGames.GameTable.StartGame` | api/src/games.ts:102-120 | unknown room: throws, table unchanged; else the room's game becomes `Started` with the shuffled ids and the mapped initial rolls, and is returned |
| `ApiGames.GameTable.DropCubes` | api/src/games.ts:215-256 | unknown room: throws, table unchanged; else the room's game becomes `Rolled` with the two mapped rolls, and is returned |
| `ApiGames.GameTable.BuyAnimal` | api/src/games.ts:290-331 | unknown room: throws, table unchanged; else the room's game becomes `Bought` with the key, and is returned |
| `ApiGames.GameTable.EndMove` | api/src/games.ts:333-344 | unknown room: throws, table unchanged; else the room's game becomes `Ended`, and is returned |
| `Games.BlueAnimal` | src/games.ts:108-142 | rolls 1..12 give rabbit, sheep, pig, cow or horse (4), never 5, 7 or 8; any other roll gives 5 |
| `Games.RedAnimal` | src/games.ts:144-178 | rolls 1..12 give rabbit, sheep, pig, cow or horse (4), never 5, 7 or 8; any other roll gives 5 |
| `Games.BlueDistribution` | src/games.ts:114-139 | the blue faces showing each code are exactly: rabbit {1..6}, sheep {7,8,9}, pig {10}, cow {11}, horse {12}; codes 7, 8 and 5 never appear |
| `Games.RedDistribution` | src/games.ts:150-175 | the red faces showing each code are exactly: rabbit {1..6}, sheep {7,8}, pig {9,10}, cow {11}, horse {12}; codes 7, 8 and 5 never appear |
| `Games.ReproduceAnimal` | src/games.ts:180-195 | neither cube shows the tier: 0, since there is no else branch; both: `n + 1`; exactly one: `n + 1` for positive odd `n`, else `n + floor(n/2)` |
| `Games.UnshownTierIsLost` | src/games.ts:180-195 | a tier neither cube shows drops to 0 whatever its count |
| `Games.Breed` | src/games.ts:206-210 | reference definition: every tier bred by the variant `ReproduceAnimal` |
| `Games.FoxAttack` | src/games.ts:212-216 | reference definition of the fox step, whose else branch clears the level-1 dog; `FoxEatsRabbits` and `DogsNeverSurvive` state it |
| `Games.WolfAttack` | src/games.ts:218-225 | reference definition of the wolf step, whose else branch clears the level-2 dog; `WolfEatsAllButHorses` and `DogsNeverSurvive` state it |
| `Games.Resolve` | src/games.ts:206-225 | reference definition of the farm after one roll; `DogsNeverSurvive` and `DogsGuard` state its properties |
| `Games.DogsNeverSurvive` | src/games.ts:212-225 | after a roll both dog flags of the farm on turn are false |
| `Games.FoxEatsRabbits` | src/games.ts:212-213 | red 4 with no level-1 dog leaves no rabbits |
| `Games.WolfEatsAllButHorses` | src/games.ts:218-222 | blue 4 with no level-2 dog sets rabbits, sheep, pigs and cows to 0 and keeps the horses, which breed on that 4 |
| `Games.DogsGuard` | src/games.ts:212-225 | red 4 against a level-1 dog, with no blue 4: the bred farm keeps all its animals and loses both dogs |
| `Games.PlayingIndex` | src/games.ts:233-239 | the first roster index whose id is `playingId`, or -1 when there is none |
| `Games.Plays` | src/games.ts:235 | reference definition of the `player.id === game.playingId` test in `getFarm` and `updateFarm` (lines 235 and 243); `PlayingIndex`, `UpdateFarm` and the frame lemmas use it |
| `Games.GetFarm` | src/games.ts:233-239 | reference definition: the farm of the first entry whose id is `playingId`; `GetFarmFinds` states it |
| `Games.GetFarmFinds` | src/games.ts:233-239 | a farm is found exactly when some roster entry is on turn, and it is the farm of such an entry |
| `Games.UpdateFarm` | src/games.ts:241-249 | reference definition: every entry whose id is `playingId` gets the farm; `UpdateFarmFrame` states it |
| `Games.UpdateFarmFrame` | src/games.ts:241-249 | only the roster changes; every entry keeps its player; entries on turn get the new farm and the others keep theirs |
| `Games.Rolled` | src/games.ts:197-231 | reference definition of the state after the variant `dropCubes`; `RolledFrame` and `RolledWithoutPlayer` state its properties |
| `Games.RolledWithoutPlayer` | src/games.ts:197-205 | with nobody on turn only the two cube numbers change |
| `Games.RolledFrame` | src/games.ts:197-231 | `dropCubes` records both cubes; only the entries on turn change, and only their farm, which has both dogs cleared; `cubesPlayed`, `winnerId`, both dog counters and every other field keep their values |
| `Games.BuyWithoutStock` | src/games.ts:260-263 | there is no stock check: buying a pig with one sheep leaves `sheep = -1` |
| `Games.Trade` | src/games.ts:255-283 | reference definition of the trade table on a farm; `Copies.SameTradeTable` shows it equals the canonical one |
| `Games.Bought` | src/games.ts:250-290 | reference definition of the state after the variant `buyAnimal`; `BoughtFrame` and `BuyUnknownKey` state its properties |
| `Games.BoughtFrame` | src/games.ts:250-290 | `buyAnimal` gives the entries on turn the traded farm; dog purchases set the flag but never touch the game-level counters; nothing else changes |
| `Games.BuyUnknownKey` | src/games.ts:250-290 | over distinct ids, a key outside the table leaves the game unchanged |
| `Games.PlayerIds` | src/games.ts:88 | `players.map(player => player.id)`: over a roster with distinct ids the ids have no repeats |
| `Games.Seated` | src/games.ts:96-101 | the online players and no others, each with a zeroed farm and no dogs |
| `Games.Started` | src/games.ts:86-106 | reference definition of the state after `startGame`; `StartedState` and `StartTwoPlayers` state its properties |
| `Games.StartedState` | src/games.ts:86-106 | same post-state as the canonical copy: running, move 1, a permutation of all passed ids, the first of them on turn, the online players with zeroed farms; `winnerId`, `cubesPlayed` and both dog counters keep their old values |
| `Games.StartTwoPlayers` | src/games.ts:86-106 | with A and B online the order is [A,B] or [B,A], one of them plays, and both farms start empty |
| `Games.GameTable.constructor` | src/games.ts:76 | the games table starts empty |
| `Games.GameTable.CreateGame` | src/games.ts:78-80 | stores a fresh not-started game under the room id |
| `Games.GameTable.GetGame` | src/games.ts:82-84 | reference definition: the stored game, or undefined (`None`) for an unknown room |
| `Games.GameTable.StartGame` | src/games.ts:86-106 | unknown room: throws, table unchanged; else the room's game becomes `Started` and is returned |
| `Games.GameTable.DropCubes` | src/games.ts:197-231 | unknown room: throws, table unchanged; else the room's game becomes `Rolled` with the two mapped rolls and is returned |
| `Games.GameTable.BuyAnimal` | src/games.ts:250-290 | unknown room: throws, table unchanged; else the room's game becomes `Bought` and is returned |
| `Copies.SameTradeTable` | src/games.ts:250-290 | for every farm and key, both copies apply the same trade deltas to the farm |
| `Copies.CubesCompared` | src/games.ts:108-178 | the cubes of the two copies agree on rolls 1-10; red 11 is a horse in one copy and a cow in the other; 12 is wolf/fox (8/7) in the canonical copy and horse (4) on both cubes in the other |
| `Copies.BreedingCompared` | src/games.ts:180-195 | the two breeding rules agree exactly when: neither cube shows the tier and it is empty; both show it and the count is 0 or 1; one shows it and the count is not an odd number of 3 or more |

## Left out

- Randomness. `Math.random` in the cube rolls, the shuffle index, `getRandomInt` and `generateUuid` (src/helpers.ts:1-3, 13-15) become inputs: the rolls, the swap indices and the room id. The base-36 formatting of room ids is not modelled.
- `src/index.ts` is not part of this model. That covers the Express routes, the Socket.io events, the 1999 ms pause before a roll is broadcast, and the disconnect and offline bookkeeping.
- Sockets are opaque tokens. Only storing them and deleting them is modelled.
- The `console.log` calls in src/games.ts:188,191 are left out: they are output only.
- `createGame` copies `newGame` shallowly, so a new game shares its empty arrays with `newGame`. The model stores a fresh value instead. `startGame` replaces both arrays before anything writes to them, so the sharing cannot be observed.
- Game states and farms are values in the model. The source returns the same object it keeps in `games`, and `getFarm` returns the farm object that `updateFarm` writes back. The model returns a value equal to the stored state. Nothing in the engine writes through those references later. Rooms are shared the same way: `joinRoom` returns the stored `players` array itself, and `getRoom` returns a shallow copy that shares it. `RoomTable.GetRoom` captures the one write made through that sharing inside `src/rooms.ts` (the deleted sockets), but `JoinRoom` and `GetRoom` return copies, so later writes by a caller through the returned array (such as the server entry point marking a player offline) do not reach the model's table.
- The variant copy `src/games.ts` has no `endMove` and no `checkWin`, so `Games` has neither. `src/index.ts:10` imports `endMove` from it anyway; that import names a function the file does not define.
- JavaScript numbers are doubles. Counts, codes and move numbers are modelled as unbounded integers, with no rounding past 2^53. A purchase key that is not an integer is not modelled.
- Rolls outside 1..12 cannot come from `Math.floor(Math.random() * 12) + 1`. The cube functions still map them to the default 5, as the `switch` does.
- The source has no insufficient-stock error, no guard against moves after a win and no check for an empty roster; the model adds none.
- Room ids are treated as own keys of the `games` and `rooms` tables only. An id that names a property every plain JavaScript object inherits (such as `constructor`) is not modelled: there `startGame` writes onto the inherited object without throwing, and `joinRoom` throws instead of returning null.
- ApiGames.TurnsGoRound: covers runs of at most one full round (`n <= len`), not every `n` in modulo form. `FullRound` closes the round, and a longer run repeats it.
