/**
 * The second copy of the farm-dice engine, `src/games.ts`, the one the server's
 * entry point imports. It differs from `api/src/games.ts`: code 4 (horse) is also
 * the fox on the red cube and the wolf on the blue one, a tier neither cube shows
 * drops to zero, every roll clears both dogs of the player on turn, the game-level
 * dog counters and `cubesPlayed` are never touched, and there is no win check and
 * no `endMove`. Randomness is an input, as in `ApiGames`.
 */
module Games {
  import opened Common
  import opened Rooms
  import Helpers

  datatype Status = NotStarted | Running | Finished

  // The codes of this copy's `animals` enum: it has no fox and no wolf.
  const Rabbit := 0
  const Sheep := 1
  const Pig := 2
  const Cow := 3
  const Horse := 4
  const DogLevel1 := 5
  const DogLevel2 := 6

  /** The code `dropCubes` treats as the fox (red cube) and as the wolf (blue cube). */
  const Predator := Horse

  /** A player's herd and guard dogs. Counts are unbounded integers: buying can drive them negative. */
  datatype Farm = Farm(rabbits: int, sheep: int, pigs: int, cows: int, horses: int,
                       dogLevel1: bool, dogLevel2: bool)

  /** A roster entry together with the farm the game gave it. */
  datatype GamePlayer = GamePlayer(player: Player, farm: Farm)

  /** One room's game. `None` in `playingId` or `winnerId` is JavaScript's `undefined`. */
  datatype GameState = GameState(
    status: Status,
    playingId: Option<PlayerId>,
    winnerId: Option<PlayerId>,
    moveNumber: int,
    cubesPlayed: bool,
    redCubeNumber: int,
    blueCubeNumber: int,
    dogLevel1bought: int,
    dogLevel2bought: int,
    playingOrder: seq<PlayerId>,
    players: seq<GamePlayer>)

  const NewGame := GameState(NotStarted, Some(""), Some(""), 0, false, 0, 0, 0, 0, [], [])

  const NewFarm := Farm(0, 0, 0, 0, 0, false, false)

  // ---------------------------------------------------------------- the cubes

  /** `getRandomBlueAnimal` once its roll is drawn; rolls outside 1..12 fall to the default 5. */
  function BlueAnimal(roll: int): (animal: int)
    ensures 1 <= roll <= 12 ==> animal in {Rabbit, Sheep, Pig, Cow, Horse}
    ensures !(1 <= roll <= 12) ==> animal == 5
  {
    match roll
    case 1 | 2 | 3 | 4 | 5 | 6 => Rabbit
    case 7 | 8 | 9 => Sheep
    case 10 => Pig
    case 11 => Cow
    case 12 => Horse
    case _ => 5
  }

  /** `getRandomRedAnimal` once its roll is drawn. */
  function RedAnimal(roll: int): (animal: int)
    ensures 1 <= roll <= 12 ==> animal in {Rabbit, Sheep, Pig, Cow, Horse}
    ensures !(1 <= roll <= 12) ==> animal == 5
  {
    match roll
    case 1 | 2 | 3 | 4 | 5 | 6 => Rabbit
    case 7 | 8 => Sheep
    case 9 | 10 => Pig
    case 11 => Cow
    case 12 => Horse
    case _ => 5
  }

  /** The faces of a cube that show `animal`. */
  ghost function BlueFaces(animal: int): set<int>
  {
    set roll | 1 <= roll <= 12 && BlueAnimal(roll) == animal
  }

  ghost function RedFaces(animal: int): set<int>
  {
    set roll | 1 <= roll <= 12 && RedAnimal(roll) == animal
  }

  /** The blue cube's faces: 1-6 rabbit, 7-9 sheep, 10 pig, 11 cow, 12 horse; never 7 or 8. */
  lemma BlueDistribution()
    ensures BlueFaces(Rabbit) == {1, 2, 3, 4, 5, 6} && BlueFaces(Sheep) == {7, 8, 9}
    ensures BlueFaces(Pig) == {10} && BlueFaces(Cow) == {11} && BlueFaces(Horse) == {12}
    ensures |BlueFaces(Rabbit)| == 6 && |BlueFaces(Sheep)| == 3 && |BlueFaces(Pig)| == 1
    ensures |BlueFaces(Cow)| == 1 && |BlueFaces(Horse)| == 1
    ensures BlueFaces(7) == {} && BlueFaces(8) == {} && BlueFaces(5) == {}
  {
    assert BlueFaces(Rabbit) == {1, 2, 3, 4, 5, 6};
    assert BlueFaces(Sheep) == {7, 8, 9};
    assert BlueFaces(Pig) == {10};
    assert BlueFaces(Cow) == {11};
    assert BlueFaces(Horse) == {12};
  }

  /** The red cube's faces: 1-6 rabbit, 7-8 sheep, 9-10 pig, 11 cow, 12 horse; never 7 or 8. */
  lemma RedDistribution()
    ensures RedFaces(Rabbit) == {1, 2, 3, 4, 5, 6} && RedFaces(Sheep) == {7, 8}
    ensures RedFaces(Pig) == {9, 10} && RedFaces(Cow) == {11} && RedFaces(Horse) == {12}
    ensures |RedFaces(Rabbit)| == 6 && |RedFaces(Sheep)| == 2 && |RedFaces(Pig)| == 2
    ensures |RedFaces(Cow)| == 1 && |RedFaces(Horse)| == 1
    ensures RedFaces(7) == {} && RedFaces(8) == {} && RedFaces(5) == {}
  {
    assert RedFaces(Rabbit) == {1, 2, 3, 4, 5, 6};
    assert RedFaces(Sheep) == {7, 8};
    assert RedFaces(Pig) == {9, 10};
    assert RedFaces(Cow) == {11};
    assert RedFaces(Horse) == {12};
  }

  // ---------------------------------------------------------------- breeding and predators

  /**
   * `reproduceAnimal` of this copy: the both-cubes branch overwrites its first result
   * with `n + 1`, an odd count hit once also gets `n + 1`, and with no `else` branch a
   * tier neither cube shows comes back as 0. JavaScript's `n % 2 === 1` holds only for
   * positive odd `n`.
   */
  function ReproduceAnimal(n: int, key: int, blue: int, red: int): (r: int)
    ensures red != key && blue != key ==> r == 0
    ensures red == key && blue == key ==> r == n + 1
    ensures (red == key) != (blue == key) ==> r == (if n > 0 && n % 2 == 1 then n + 1 else n + n / 2)
  {
    var animalNew := 0;
    if red == key && blue == key then
      var animalNew := n + n / 2;
      var animalNew := n + 1;
      animalNew
    else if red == key || blue == key then
      var animalNew := n + n / 2;
      if n > 0 && n % 2 == 1 then n + 1 else animalNew
    else
      animalNew
  }

  /** A tier that neither cube shows is lost however many animals it had. */
  lemma UnshownTierIsLost(n: int, key: int, blue: int, red: int)
    requires red != key && blue != key
    ensures ReproduceAnimal(n, key, blue, red) == 0
  {
  }

  /** All five tiers bred; the dogs are untouched. */
  function Breed(f: Farm, blue: int, red: int): Farm
  {
    f.(rabbits := ReproduceAnimal(f.rabbits, Rabbit, blue, red),
       sheep := ReproduceAnimal(f.sheep, Sheep, blue, red),
       pigs := ReproduceAnimal(f.pigs, Pig, blue, red),
       cows := ReproduceAnimal(f.cows, Cow, blue, red),
       horses := ReproduceAnimal(f.horses, Horse, blue, red))
  }

  /** Code 4 on the red cube with no level-1 dog eats the rabbits; every other case clears the level-1 dog. */
  function FoxAttack(f: Farm, red: int): Farm
  {
    if red == Predator && !f.dogLevel1 then f.(rabbits := 0) else f.(dogLevel1 := false)
  }

  /** Code 4 on the blue cube with no level-2 dog eats all but the horses; every other case clears the level-2 dog. */
  function WolfAttack(f: Farm, blue: int): Farm
  {
    if blue == Predator && !f.dogLevel2 then f.(rabbits := 0, pigs := 0, sheep := 0, cows := 0)
    else f.(dogLevel2 := false)
  }

  /** The farm after one roll: breeding first, then the fox, then the wolf. */
  function Resolve(f: Farm, blue: int, red: int): Farm
  {
    WolfAttack(FoxAttack(Breed(f, blue, red), red), blue)
  }

  /** No dog survives a roll, whatever the cubes show. */
  lemma DogsNeverSurvive(f: Farm, blue: int, red: int)
    ensures !Resolve(f, blue, red).dogLevel1 && !Resolve(f, blue, red).dogLevel2
  {
  }

  /** Code 4 on the red cube with no level-1 dog leaves no rabbits. */
  lemma FoxEatsRabbits(f: Farm, blue: int)
    requires !f.dogLevel1
    ensures Resolve(f, blue, Predator).rabbits == 0
  {
  }

  /** Code 4 on the blue cube with no level-2 dog leaves only the horses, which breed on that 4. */
  lemma WolfEatsAllButHorses(f: Farm, red: int)
    requires !f.dogLevel2
    ensures var r := Resolve(f, Predator, red);
      r.rabbits == 0 && r.sheep == 0 && r.pigs == 0 && r.cows == 0
      && r.horses == ReproduceAnimal(f.horses, Horse, Predator, red)
  {
  }

  /** A dog keeps the animals its predator would eat, and is used up. */
  lemma DogsGuard(f: Farm, blue: int, red: int)
    requires red == Predator && f.dogLevel1 && blue != Predator
    ensures Resolve(f, blue, red) == Breed(f, blue, red).(dogLevel1 := false, dogLevel2 := false)
  {
  }

  // ---------------------------------------------------------------- finding the current player

  /** The roster entry belongs to the player whose turn it is. */
  predicate Plays(p: GamePlayer, id: Option<PlayerId>)
  {
    id == Some(p.player.id)
  }

  /** The index `players.find` stops at, or -1. */
  function PlayingIndex(ps: seq<GamePlayer>, id: Option<PlayerId>): (k: int)
    ensures -1 <= k < |ps|
    ensures k >= 0 ==> Plays(ps[k], id) && forall m :: 0 <= m < k ==> !Plays(ps[m], id)
    ensures k == -1 ==> forall m :: 0 <= m < |ps| ==> !Plays(ps[m], id)
  {
    if ps == [] then -1
    else if Plays(ps[0], id) then 0
    else var k := PlayingIndex(ps[1..], id); if k < 0 then -1 else k + 1
  }

  /** `getFarm`: the farm of the first roster entry whose id is `playingId`. */
  function GetFarm(g: GameState): Option<Farm>
  {
    var k := PlayingIndex(g.players, g.playingId);
    if k < 0 then None else Some(g.players[k].farm)
  }

  /** `updateFarm`: every entry whose id is `playingId` is given `farm`. */
  function UpdateFarm(g: GameState, farm: Farm): GameState
  {
    g.(players := seq(|g.players|, k requires 0 <= k < |g.players| =>
         if Plays(g.players[k], g.playingId) then g.players[k].(farm := farm) else g.players[k]))
  }

  /** The roster has pairwise distinct ids. */
  predicate UniquePlayers(ps: seq<GamePlayer>)
  {
    forall i, j :: 0 <= i < j < |ps| ==> ps[i].player.id != ps[j].player.id
  }

  /** `getFarm` finds a farm exactly when some roster entry is on turn, and it is that entry's farm. */
  lemma GetFarmFinds(g: GameState)
    ensures GetFarm(g).Some? <==> exists k :: 0 <= k < |g.players| && Plays(g.players[k], g.playingId)
    ensures GetFarm(g).Some? ==>
      exists k :: 0 <= k < |g.players| && Plays(g.players[k], g.playingId) && g.players[k].farm == GetFarm(g).value
  {
  }

  /**
   * `updateFarm` touches only the roster: every entry keeps its player, entries on
   * turn get `farm`, the others keep theirs.
   */
  lemma UpdateFarmFrame(g: GameState, farm: Farm)
    ensures var r := UpdateFarm(g, farm);
      && r.(players := g.players) == g && |r.players| == |g.players|
      && (forall k :: 0 <= k < |g.players| ==> r.players[k].player == g.players[k].player)
      && (forall k :: 0 <= k < |g.players| ==>
            r.players[k].farm == if Plays(g.players[k], g.playingId) then farm else g.players[k].farm)
  {
  }

  // ---------------------------------------------------------------- dropCubes

  /** The state after `dropCubes` with cube codes `blue` and `red`. */
  function Rolled(g: GameState, blue: int, red: int): GameState
  {
    var g1 := g.(blueCubeNumber := blue, redCubeNumber := red);
    match GetFarm(g1)
    case None => g1
    case Some(farm) => UpdateFarm(g1, Resolve(farm, blue, red))
  }

  /** With nobody on turn in the roster only the two cube numbers change. */
  lemma RolledWithoutPlayer(g: GameState, blue: int, red: int)
    requires GetFarm(g).None?
    ensures Rolled(g, blue, red) == g.(blueCubeNumber := blue, redCubeNumber := red)
  {
  }

  /**
   * With a player on turn: the cubes are recorded and only that player's entries
   * change, only in their farm, which becomes the resolved farm with both dogs
   * cleared. `cubesPlayed`, `winnerId`, both dog counters and every other field keep
   * their values.
   */
  lemma RolledFrame(g: GameState, blue: int, red: int)
    requires GetFarm(g).Some?
    ensures var r := Rolled(g, blue, red); var f := Resolve(GetFarm(g).value, blue, red);
      && r.(players := g.players) == g.(blueCubeNumber := blue, redCubeNumber := red)
      && !f.dogLevel1 && !f.dogLevel2
      && |r.players| == |g.players|
      && (forall k :: 0 <= k < |g.players| && !Plays(g.players[k], g.playingId) ==> r.players[k] == g.players[k])
      && (forall k :: 0 <= k < |g.players| && Plays(g.players[k], g.playingId) ==>
            r.players[k] == g.players[k].(farm := f))
  {
  }

  // ---------------------------------------------------------------- buyAnimal

  /** The trade table: what buying `key` costs and gives; any other key changes nothing. */
  function Trade(f: Farm, key: int): Farm
  {
    if key == Sheep then f.(rabbits := f.rabbits - 6, sheep := f.sheep + 1)
    else if key == Pig then f.(sheep := f.sheep - 2, pigs := f.pigs + 1)
    else if key == Cow then f.(pigs := f.pigs - 3, cows := f.cows + 1)
    else if key == Horse then f.(cows := f.cows - 2, horses := f.horses + 1)
    else if key == DogLevel1 then f.(sheep := f.sheep - 1, dogLevel1 := true)
    else if key == DogLevel2 then f.(cows := f.cows - 1, dogLevel2 := true)
    else f
  }

  /** The state after `buyAnimal(key)`: the dog counters are never touched in this copy. */
  function Bought(g: GameState, key: int): GameState
  {
    match GetFarm(g)
    case None => g
    case Some(farm) => UpdateFarm(g, Trade(farm, key))
  }

  /** Buying a pig with a single sheep leaves the farm a sheep in debt. */
  lemma BuyWithoutStock(f: Farm)
    requires f.sheep == 1
    ensures Trade(f, Pig).sheep == -1 && Trade(f, Pig).pigs == f.pigs + 1
  {
  }

  /**
   * `buyAnimal` changes only the farm of the player on turn, to the traded farm; a
   * dog sets its flag but no game-level counter; with nobody on turn nothing changes.
   */
  lemma BoughtFrame(g: GameState, key: int)
    ensures GetFarm(g).None? ==> Bought(g, key) == g
    ensures GetFarm(g).Some? ==> var r := Bought(g, key); var f := Trade(GetFarm(g).value, key);
      && r.(players := g.players) == g
      && |r.players| == |g.players|
      && (forall k :: 0 <= k < |g.players| && !Plays(g.players[k], g.playingId) ==> r.players[k] == g.players[k])
      && (forall k :: 0 <= k < |g.players| && Plays(g.players[k], g.playingId) ==> r.players[k] == g.players[k].(farm := f))
  {
  }

  /** With distinct player ids, an unknown key (rabbit, or anything outside the table) changes nothing. */
  lemma BuyUnknownKey(g: GameState, key: int)
    requires UniquePlayers(g.players)
    requires key !in {Sheep, Pig, Cow, Horse, DogLevel1, DogLevel2}
    ensures Bought(g, key) == g
  {
    var k := PlayingIndex(g.players, g.playingId);
    if k >= 0 {
      var r := Bought(g, key);
      assert forall m :: 0 <= m < |g.players| && Plays(g.players[m], g.playingId) ==> m == k;
      assert r.players == g.players;
    }
  }

  // ---------------------------------------------------------------- startGame

  /** The ids of the passed players, in order: `players.map(player => player.id)`. */
  function PlayerIds(players: seq<Player>): (ids: seq<PlayerId>)
    ensures UniqueIds(players) ==> Helpers.Distinct(ids)
  {
    seq(|players|, k requires 0 <= k < |players| => players[k].id)
  }

  /** The online players, in input order, each with a fresh farm. */
  function Seated(players: seq<Player>): (r: seq<GamePlayer>)
    ensures |r| <= |players|
    ensures forall k :: 0 <= k < |r| ==> r[k].farm == NewFarm && r[k].player.online
    ensures forall p :: p in players && p.online <==> GamePlayer(p, NewFarm) in r
  {
    if players == [] then []
    else if players[0].online then [GamePlayer(players[0], NewFarm)] + Seated(players[1..])
    else Seated(players[1..])
  }

  /** The state after `startGame(players)` with swap indices `js` and cube codes `blue`, `red`. */
  function Started(g: GameState, players: seq<Player>, js: seq<int>, blue: int, red: int): GameState
    requires Helpers.ValidSwaps(js, |players|)
  {
    var order := Helpers.Shuffled(PlayerIds(players), js);
    g.(status := Running,
       playingId := if |order| > 0 then Some(order[0]) else None,
       blueCubeNumber := blue,
       redCubeNumber := red,
       moveNumber := 1,
       playingOrder := order,
       players := Seated(players))
  }

  /**
   * A started game is running at move 1; its playing order is a permutation of all
   * the passed ids, offline players included; the first in that order plays; its
   * players are the online ones, in input order, with zeroed farms and no dogs.
   */
  lemma StartedState(g: GameState, players: seq<Player>, js: seq<int>, blue: int, red: int)
    requires Helpers.ValidSwaps(js, |players|)
    ensures var r := Started(g, players, js, blue, red);
      && r.status == Running && r.moveNumber == 1
      && multiset(r.playingOrder) == multiset(PlayerIds(players))
      && (|players| > 0 ==> r.playingId == Some(r.playingOrder[0]))
      && r.players == Seated(players)
      && r.blueCubeNumber == blue && r.redCubeNumber == red
      && r.winnerId == g.winnerId && r.cubesPlayed == g.cubesPlayed
      && r.dogLevel1bought == g.dogLevel1bought && r.dogLevel2bought == g.dogLevel2bought
  {
    Helpers.ShuffledPermutes(PlayerIds(players), js);
  }

  /** The example of two online players A and B. */
  lemma StartTwoPlayers(g: GameState, a: Player, b: Player, js: seq<int>, blue: int, red: int)
    requires a.online && b.online && Helpers.ValidSwaps(js, 2)
    ensures var r := Started(g, [a, b], js, blue, red);
      && (r.playingOrder == [a.id, b.id] || r.playingOrder == [b.id, a.id])
      && (r.playingId == Some(a.id) || r.playingId == Some(b.id))
      && r.players == [GamePlayer(a, NewFarm), GamePlayer(b, NewFarm)]
  {
    var ids := PlayerIds([a, b]);
    assert ids == [a.id, b.id];
    assert Helpers.Shuffle(ids, js, 0) == ids;
    assert Helpers.Swap(ids, 1, 0) == [b.id, a.id];
  }

  // ---------------------------------------------------------------- the `games` table

  class GameTable {
    var games: map<string, GameState>

    constructor ()
      ensures games == map[]
    {
      games := map[];
    }

    /** `createGame`: a fresh game under `roomId`, overwriting any earlier one. */
    method CreateGame(roomId: string)
      modifies this
      ensures games == old(games)[roomId := NewGame]
    {
      games := games[roomId := NewGame];
    }

    /** `getGame`: the room's game, or undefined. */
    function GetGame(roomId: string): Option<GameState>
      reads this
    {
      if roomId in games then Some(games[roomId]) else None
    }

    /** `startGame`, with the shuffle's swap indices and the two initial rolls as inputs. */
    method StartGame(roomId: string, players: seq<Player>, js: seq<int>, blueRoll: int, redRoll: int)
      returns (r: Result<GameState>)
      requires Helpers.ValidSwaps(js, |players|)
      modifies this
      ensures roomId !in old(games) ==> r == UnknownRoom && games == old(games)
      ensures roomId in old(games) ==>
        var g := Started(old(games)[roomId], players, js, BlueAnimal(blueRoll), RedAnimal(redRoll));
        r == Ok(g) && games == old(games)[roomId := g]
    {
      var ids := new PlayerId[|players|](k requires 0 <= k < |players| => players[k].id);
      assert ids[..] == PlayerIds(players);
      var playersOrder := Helpers.ShuffleArray(ids, js);
      if roomId !in games {
        return UnknownRoom;
      }
      var game := games[roomId];
      game := game.(status := Running);
      game := game.(playingId := if playersOrder.Length > 0 then Some(playersOrder[0]) else None);
      game := game.(blueCubeNumber := BlueAnimal(blueRoll));
      game := game.(redCubeNumber := RedAnimal(redRoll));
      game := game.(moveNumber := 1);
      game := game.(playingOrder := playersOrder[..]);
      game := game.(players := Seated(players));
      games := games[roomId := game];
      r := Ok(game);
    }

    /** `dropCubes`, with the two rolls as inputs. */
    method DropCubes(roomId: string, blueRoll: int, redRoll: int) returns (r: Result<GameState>)
      modifies this
      ensures roomId !in old(games) ==> r == UnknownRoom && games == old(games)
      ensures roomId in old(games) ==>
        var g := Rolled(old(games)[roomId], BlueAnimal(blueRoll), RedAnimal(redRoll));
        r == Ok(g) && games == old(games)[roomId := g]
    {
      if roomId !in games {
        return UnknownRoom;
      }
      var game := games[roomId];
      var blueAnimalKey := BlueAnimal(blueRoll);
      var redAnimalKey := RedAnimal(redRoll);
      game := game.(blueCubeNumber := blueAnimalKey, redCubeNumber := redAnimalKey);
      var found := GetFarm(game);
      if found.Some? {
        var farm := found.value;
        ghost var original := farm;
        farm := farm.(rabbits := ReproduceAnimal(farm.rabbits, Rabbit, blueAnimalKey, redAnimalKey));
        farm := farm.(sheep := ReproduceAnimal(farm.sheep, Sheep, blueAnimalKey, redAnimalKey));
        farm := farm.(pigs := ReproduceAnimal(farm.pigs, Pig, blueAnimalKey, redAnimalKey));
        farm := farm.(cows := ReproduceAnimal(farm.cows, Cow, blueAnimalKey, redAnimalKey));
        farm := farm.(horses := ReproduceAnimal(farm.horses, Horse, blueAnimalKey, redAnimalKey));
        assert farm == Breed(original, blueAnimalKey, redAnimalKey);

        if redAnimalKey == Predator && !farm.dogLevel1 {
          farm := farm.(rabbits := 0);
        } else {
          farm := farm.(dogLevel1 := false);
        }

        if blueAnimalKey == Predator && !farm.dogLevel2 {
          farm := farm.(rabbits := 0, pigs := 0, sheep := 0, cows := 0);
        } else {
          farm := farm.(dogLevel2 := false);
        }
        assert farm == Resolve(original, blueAnimalKey, redAnimalKey);

        game := UpdateFarm(game, farm);
      }
      games := games[roomId := game];
      r := Ok(game);
    }

    /** `buyAnimal(animalKey)`. */
    method BuyAnimal(roomId: string, animalKey: int) returns (r: Result<GameState>)
      modifies this
      ensures roomId !in old(games) ==> r == UnknownRoom && games == old(games)
      ensures roomId in old(games) ==>
        var g := Bought(old(games)[roomId], animalKey);
        r == Ok(g) && games == old(games)[roomId := g]
    {
      if roomId !in games {
        return UnknownRoom;
      }
      var game := games[roomId];
      var found := GetFarm(game);
      if found.Some? {
        var farm := found.value;
        if animalKey == Sheep {
          farm := farm.(rabbits := farm.rabbits - 6, sheep := farm.sheep + 1);
        }
        if animalKey == Pig {
          farm := farm.(sheep := farm.sheep - 2, pigs := farm.pigs + 1);
        }
        if animalKey == Cow {
          farm := farm.(pigs := farm.pigs - 3, cows := farm.cows + 1);
        }
        if animalKey == Horse {
          farm := farm.(cows := farm.cows - 2, horses := farm.horses + 1);
        }
        if animalKey == DogLevel1 {
          farm := farm.(sheep := farm.sheep - 1, dogLevel1 := true);
        }
        if animalKey == DogLevel2 {
          farm := farm.(cows := farm.cows - 1, dogLevel2 := true);
        }
        game := UpdateFarm(game, farm);
      }
      games := games[roomId := game];
      r := Ok(game);
    }
  }
}
