/**
 * The canonical copy of the farm-dice engine, `api/src/games.ts`: a table of game
 * states keyed by room id; starting a game, rolling the two cubes (breeding, fox
 * and wolf attacks, guard dogs, the win check), buying animals and passing the turn.
 * Randomness is an input: each cube is given its roll in 1..12, the shuffle its swap
 * indices.
 */
module ApiGames {
  import opened Common
  import opened Rooms
  import Helpers

  datatype Status = NotStarted | Running | Finished

  // The codes of the `animals` enum; the cubes and `buyAnimal` use them.
  const Rabbit := 0
  const Sheep := 1
  const Pig := 2
  const Cow := 3
  const Horse := 4
  const DogLevel1 := 5
  const DogLevel2 := 6
  const Fox := 7
  const Wolf := 8

  // `animalPoints` and `winPoints`.
  const RabbitPoints := 1
  const SheepPoints := 6
  const PigPoints := 12
  const CowPoints := 36
  const HorsePoints := 72
  const WinPoints := RabbitPoints + SheepPoints + PigPoints + CowPoints + HorsePoints

  /** A player's herd and guard dogs. Counts are unbounded integers: buying can drive them negative. */
  datatype Farm = Farm(rabbits: int, sheep: int, pigs: int, cows: int, horses: int,
                       dogLevel1: bool, dogLevel2: bool)

  /** A roster entry together with the farm the game gave it. */
  datatype GamePlayer = GamePlayer(player: Player, farm: Farm)

  /** One room's game. `None` in `playingId` or `winnerId` is JavaScript's `undefined`. */
  datatype GameState = GameState(
    status: Status,
    playingId: Option<PlayerId>,
    winnerId: Option<PlayerId>,
    moveNumber: int,
    cubesPlayed: bool,
    redCubeNumber: int,
    blueCubeNumber: int,
    dogLevel1bought: int,
    dogLevel2bought: int,
    playingOrder: seq<PlayerId>,
    players: seq<GamePlayer>)

  const NewGame := GameState(NotStarted, Some(""), Some(""), 0, false, 0, 0, 0, 0, [], [])

  const NewFarm := Farm(0, 0, 0, 0, 0, false, false)

  // ---------------------------------------------------------------- the cubes

  /** `getRandomBlueAnimal` once its roll is drawn; rolls outside 1..12 fall to the default 5. */
  function BlueAnimal(roll: int): (animal: int)
    ensures 1 <= roll <= 12 ==> animal in {Rabbit, Sheep, Pig, Cow, Wolf}
    ensures !(1 <= roll <= 12) ==> animal == 5
  {
    match roll
    case 1 | 2 | 3 | 4 | 5 | 6 => Rabbit
    case 7 | 8 | 9 => Sheep
    case 10 => Pig
    case 11 => Cow
    case 12 => Wolf
    case _ => 5
  }

  /** `getRandomRedAnimal` once its roll is drawn. */
  function RedAnimal(roll: int): (animal: int)
    ensures 1 <= roll <= 12 ==> animal in {Rabbit, Sheep, Pig, Horse, Fox}
    ensures !(1 <= roll <= 12) ==> animal == 5
  {
    match roll
    case 1 | 2 | 3 | 4 | 5 | 6 => Rabbit
    case 7 | 8 => Sheep
    case 9 | 10 => Pig
    case 11 => Horse
    case 12 => Fox
    case _ => 5
  }

  /** The faces of a cube that show `animal`. */
  ghost function BlueFaces(animal: int): set<int>
  {
    set roll | 1 <= roll <= 12 && BlueAnimal(roll) == animal
  }

  ghost function RedFaces(animal: int): set<int>
  {
    set roll | 1 <= roll <= 12 && RedAnimal(roll) == animal
  }

  /** The blue cube's faces: 1-6 rabbit, 7-9 sheep, 10 pig, 11 cow, 12 wolf. */
  lemma BlueDistribution()
    ensures BlueFaces(Rabbit) == {1, 2, 3, 4, 5, 6} && BlueFaces(Sheep) == {7, 8, 9}
    ensures BlueFaces(Pig) == {10} && BlueFaces(Cow) == {11} && BlueFaces(Wolf) == {12}
    ensures |BlueFaces(Rabbit)| == 6 && |BlueFaces(Sheep)| == 3 && |BlueFaces(Pig)| == 1
    ensures |BlueFaces(Cow)| == 1 && |BlueFaces(Wolf)| == 1
    ensures BlueFaces(Horse) == {} && BlueFaces(Fox) == {} && BlueFaces(5) == {}
  {
    assert BlueFaces(Rabbit) == {1, 2, 3, 4, 5, 6};
    assert BlueFaces(Sheep) == {7, 8, 9};
    assert BlueFaces(Pig) == {10};
    assert BlueFaces(Cow) == {11};
    assert BlueFaces(Wolf) == {12};
  }

  /** The red cube's faces: 1-6 rabbit, 7-8 sheep, 9-10 pig, 11 horse, 12 fox. */
  lemma RedDistribution()
    ensures RedFaces(Rabbit) == {1, 2, 3, 4, 5, 6} && RedFaces(Sheep) == {7, 8}
    ensures RedFaces(Pig) == {9, 10} && RedFaces(Horse) == {11} && RedFaces(Fox) == {12}
    ensures |RedFaces(Rabbit)| == 6 && |RedFaces(Sheep)| == 2 && |RedFaces(Pig)| == 2
    ensures |RedFaces(Horse)| == 1 && |RedFaces(Fox)| == 1
    ensures RedFaces(Cow) == {} && RedFaces(Wolf) == {} && RedFaces(5) == {}
  {
    assert RedFaces(Rabbit) == {1, 2, 3, 4, 5, 6};
    assert RedFaces(Sheep) == {7, 8};
    assert RedFaces(Pig) == {9, 10};
    assert RedFaces(Horse) == {11};
    assert RedFaces(Fox) == {12};
  }

  // ---------------------------------------------------------------- breeding and predators

  /**
   * `reproduceAnimal`: the new count of tier `key` with `n` animals after the cubes
   * showed `blue` and `red`. JavaScript's `n % 2 === 1` holds only for positive odd `n`.
   */
  function ReproduceAnimal(n: int, key: int, blue: int, red: int): (r: int)
    ensures red != key && blue != key ==> r == n
    ensures red == key && blue == key ==> r == n + n / 2 + 1
    ensures (red == key) != (blue == key) ==> r == n + n / 2 + (if n > 0 && n % 2 == 1 then 1 else 0)
  {
    if (red == key && blue == key) || (red == key || blue == key) then
      var grown := n + n / 2;
      if red == key && blue == key then grown + 1
      else if n > 0 && n % 2 == 1 then grown + 1
      else grown
    else
      n
  }

  /** A herd that is not in debt never shrinks by breeding. */
  lemma ReproduceNeverShrinks(n: int, key: int, blue: int, red: int)
    requires n >= 0
    ensures ReproduceAnimal(n, key, blue, red) >= n
  {
  }

  /** All five tiers bred; the dogs are untouched. */
  function Breed(f: Farm, blue: int, red: int): Farm
  {
    f.(rabbits := ReproduceAnimal(f.rabbits, Rabbit, blue, red),
       sheep := ReproduceAnimal(f.sheep, Sheep, blue, red),
       pigs := ReproduceAnimal(f.pigs, Pig, blue, red),
       cows := ReproduceAnimal(f.cows, Cow, blue, red),
       horses := ReproduceAnimal(f.horses, Horse, blue, red))
  }

  /** The fox on the red cube: eats the rabbits, or is driven off by the level-1 dog, which is used up. */
  function FoxAttack(f: Farm, red: int): Farm
  {
    if red == Fox && !f.dogLevel1 then f.(rabbits := 0)
    else if red == Fox && f.dogLevel1 then f.(dogLevel1 := false)
    else f
  }

  /** The wolf on the blue cube: eats everything but the horses, or is driven off by the level-2 dog. */
  function WolfAttack(f: Farm, blue: int): Farm
  {
    if blue == Wolf && !f.dogLevel2 then f.(rabbits := 0, sheep := 0, pigs := 0, cows := 0)
    else if blue == Wolf && f.dogLevel2 then f.(dogLevel2 := false)
    else f
  }

  /** The farm after one roll: breeding first, then the fox, then the wolf. */
  function Resolve(f: Farm, blue: int, red: int): Farm
  {
    WolfAttack(FoxAttack(Breed(f, blue, red), red), blue)
  }

  // ---------------------------------------------------------------- the win check

  /** The farm's value in `animalPoints`. */
  function Points(f: Farm): int
  {
    f.rabbits * RabbitPoints + f.sheep * SheepPoints + f.pigs * PigPoints
      + f.cows * CowPoints + f.horses * HorsePoints
  }

  /** `checkWin`: the farm is worth at least one animal of every tier, 127 points. */
  function CheckWin(f: Farm): (r: bool)
    ensures r <==> f.rabbits + 6 * f.sheep + 12 * f.pigs + 36 * f.cows + 72 * f.horses >= 127
  {
    Points(f) >= WinPoints
  }

  /** One animal of each tier wins; no farm worth 126 points does. */
  lemma WinThreshold(f: Farm)
    ensures CheckWin(Farm(1, 1, 1, 1, 1, f.dogLevel1, f.dogLevel2))
    ensures Points(f) == 126 ==> !CheckWin(f)
  {
  }

  // ---------------------------------------------------------------- finding the current player

  /** The roster entry belongs to the player whose turn it is. */
  predicate Plays(p: GamePlayer, id: Option<PlayerId>)
  {
    id == Some(p.player.id)
  }

  /** The index `players.find` stops at, or -1. */
  function PlayingIndex(ps: seq<GamePlayer>, id: Option<PlayerId>): (k: int)
    ensures -1 <= k < |ps|
    ensures k >= 0 ==> Plays(ps[k], id) && forall m :: 0 <= m < k ==> !Plays(ps[m], id)
    ensures k == -1 ==> forall m :: 0 <= m < |ps| ==> !Plays(ps[m], id)
  {
    if ps == [] then -1
    else if Plays(ps[0], id) then 0
    else var k := PlayingIndex(ps[1..], id); if k < 0 then -1 else k + 1
  }

  /** `getFarm`: the farm of the first roster entry whose id is `playingId`. */
  function GetFarm(g: GameState): Option<Farm>
  {
    var k := PlayingIndex(g.players, g.playingId);
    if k < 0 then None else Some(g.players[k].farm)
  }

  /** `updateFarm`: every entry whose id is `playingId` is given `farm`. */
  function UpdateFarm(g: GameState, farm: Farm): GameState
  {
    g.(players := seq(|g.players|, k requires 0 <= k < |g.players| =>
         if Plays(g.players[k], g.playingId) then g.players[k].(farm := farm) else g.players[k]))
  }

  /** The roster has pairwise distinct ids. */
  predicate UniquePlayers(ps: seq<GamePlayer>)
  {
    forall i, j :: 0 <= i < j < |ps| ==> ps[i].player.id != ps[j].player.id
  }

  /** `getFarm` finds a farm exactly when some roster entry is on turn, and it is that entry's farm. */
  lemma GetFarmFinds(g: GameState)
    ensures GetFarm(g).Some? <==> exists k :: 0 <= k < |g.players| && Plays(g.players[k], g.playingId)
    ensures GetFarm(g).Some? ==>
      exists k :: 0 <= k < |g.players| && Plays(g.players[k], g.playingId) && g.players[k].farm == GetFarm(g).value
  {
  }

  /**
   * `updateFarm` touches only the roster: every entry keeps its player, entries on
   * turn get `farm`, the others keep theirs.
   */
  lemma UpdateFarmFrame(g: GameState, farm: Farm)
    ensures var r := UpdateFarm(g, farm);
      && r.(players := g.players) == g && |r.players| == |g.players|
      && (forall k :: 0 <= k < |g.players| ==> r.players[k].player == g.players[k].player)
      && (forall k :: 0 <= k < |g.players| ==>
            r.players[k].farm == if Plays(g.players[k], g.playingId) then farm else g.players[k].farm)
  {
  }

  // ---------------------------------------------------------------- dropCubes

  /** The state after `dropCubes` with cube codes `blue` and `red`. */
  function Rolled(g: GameState, blue: int, red: int): GameState
  {
    var g1 := g.(blueCubeNumber := blue, redCubeNumber := red);
    match GetFarm(g1)
    case None => g1
    case Some(farm) =>
      var f := Resolve(farm, blue, red);
      var g2 := UpdateFarm(g1.(dogLevel1bought := g1.dogLevel1bought - (if red == Fox && farm.dogLevel1 then 1 else 0),
                               dogLevel2bought := g1.dogLevel2bought - (if blue == Wolf && farm.dogLevel2 then 1 else 0)), f);
      g2.(cubesPlayed := true, winnerId := if CheckWin(f) then g2.playingId else g2.winnerId)
  }

  /** With nobody on turn in the roster only the two cube numbers change. */
  lemma RolledWithoutPlayer(g: GameState, blue: int, red: int)
    requires GetFarm(g).None?
    ensures Rolled(g, blue, red) == g.(blueCubeNumber := blue, redCubeNumber := red)
  {
  }

  /**
   * With a player on turn: the cubes are recorded, only that player's entries change
   * and only in their farm, which becomes the resolved farm; `cubesPlayed` is set; the
   * winner is the player on turn if the new farm wins and stays as it was otherwise;
   * status, order, turn and move number do not change.
   */
  lemma RolledFrame(g: GameState, blue: int, red: int)
    requires GetFarm(g).Some?
    ensures var r := Rolled(g, blue, red); var f := Resolve(GetFarm(g).value, blue, red);
      && r.blueCubeNumber == blue && r.redCubeNumber == red
      && r.cubesPlayed
      && r.winnerId == (if CheckWin(f) then g.playingId else g.winnerId)
      && r.dogLevel1bought == g.dogLevel1bought - (if red == Fox && GetFarm(g).value.dogLevel1 then 1 else 0)
      && r.dogLevel2bought == g.dogLevel2bought - (if blue == Wolf && GetFarm(g).value.dogLevel2 then 1 else 0)
      && r.status == g.status && r.playingId == g.playingId && r.moveNumber == g.moveNumber
      && r.playingOrder == g.playingOrder
      && |r.players| == |g.players|
      && (forall k :: 0 <= k < |g.players| && !Plays(g.players[k], g.playingId) ==> r.players[k] == g.players[k])
      && (forall k :: 0 <= k < |g.players| && Plays(g.players[k], g.playingId) ==>
            r.players[k] == g.players[k].(farm := f))
  {
  }

  /** Breeding and attacks never take a horse: the horses only breed. */
  lemma HorsesSurvive(f: Farm, blue: int, red: int)
    ensures Resolve(f, blue, red).horses == ReproduceAnimal(f.horses, Horse, blue, red)
  {
  }

  /** A fox with no level-1 dog leaves no rabbits, whatever the blue cube shows. */
  lemma FoxEatsRabbits(f: Farm, blue: int)
    requires !f.dogLevel1
    ensures Resolve(f, blue, Fox).rabbits == 0
  {
  }

  /** A wolf with no level-2 dog leaves only the (bred) horses. */
  lemma WolfEatsAllButHorses(f: Farm, red: int)
    requires !f.dogLevel2
    ensures var r := Resolve(f, Wolf, red);
      r.rabbits == 0 && r.sheep == 0 && r.pigs == 0 && r.cows == 0
      && r.horses == ReproduceAnimal(f.horses, Horse, Wolf, red)
  {
  }

  /**
   * A fox against the level-1 dog, with no wolf: the dog is used up, the level-1
   * counter drops by exactly one, and the farm keeps every animal it bred.
   */
  lemma FoxMeetsDog(g: GameState, blue: int)
    requires GetFarm(g).Some? && GetFarm(g).value.dogLevel1 && blue != Wolf
    ensures var r := Rolled(g, blue, Fox); var f := GetFarm(g).value;
      && r.dogLevel1bought == g.dogLevel1bought - 1
      && r.dogLevel2bought == g.dogLevel2bought
      && Resolve(f, blue, Fox) == Breed(f, blue, Fox).(dogLevel1 := false)
  {
  }

  /**
   * A wolf against the level-2 dog, with no fox: the dog is used up, the level-2
   * counter drops by exactly one, and the farm keeps every animal it bred.
   */
  lemma WolfMeetsDog(g: GameState, red: int)
    requires GetFarm(g).Some? && GetFarm(g).value.dogLevel2 && red != Fox
    ensures var r := Rolled(g, Wolf, red); var f := GetFarm(g).value;
      && r.dogLevel2bought == g.dogLevel2bought - 1
      && r.dogLevel1bought == g.dogLevel1bought
      && Resolve(f, Wolf, red) == Breed(f, Wolf, red).(dogLevel2 := false)
  {
  }

  // ---------------------------------------------------------------- buyAnimal

  /** The trade table: what buying `key` costs and gives; any other key changes nothing. */
  function Trade(f: Farm, key: int): Farm
  {
    if key == Sheep then f.(rabbits := f.rabbits - 6, sheep := f.sheep + 1)
    else if key == Pig then f.(sheep := f.sheep - 2, pigs := f.pigs + 1)
    else if key == Cow then f.(pigs := f.pigs - 3, cows := f.cows + 1)
    else if key == Horse then f.(cows := f.cows - 2, horses := f.horses + 1)
    else if key == DogLevel1 then f.(sheep := f.sheep - 1, dogLevel1 := true)
    else if key == DogLevel2 then f.(cows := f.cows - 1, dogLevel2 := true)
    else f
  }

  /** The state after `buyAnimal(key)`. */
  function Bought(g: GameState, key: int): GameState
  {
    match GetFarm(g)
    case None => g
    case Some(farm) =>
      UpdateFarm(g.(dogLevel1bought := g.dogLevel1bought + (if key == DogLevel1 then 1 else 0),
                    dogLevel2bought := g.dogLevel2bought + (if key == DogLevel2 then 1 else 0)),
                 Trade(farm, key))
  }

  /**
   * Trading up the chain keeps a farm's value: 6 rabbits are worth a sheep, 2 sheep a
   * pig, 3 pigs a cow, 2 cows a horse. A dog costs 6 or 36 points. There is no stock
   * check, so a count may go below zero.
   */
  lemma TradeKeepsPoints(f: Farm, key: int)
    ensures key in {Sheep, Pig, Cow, Horse} ==> Points(Trade(f, key)) == Points(f)
    ensures key == DogLevel1 ==> Points(Trade(f, key)) == Points(f) - SheepPoints
    ensures key == DogLevel2 ==> Points(Trade(f, key)) == Points(f) - CowPoints
    ensures key !in {Sheep, Pig, Cow, Horse, DogLevel1, DogLevel2} ==> Trade(f, key) == f
  {
  }

  /** Buying a pig with a single sheep leaves the farm a sheep in debt. */
  lemma BuyWithoutStock(f: Farm)
    requires f.sheep == 1
    ensures Trade(f, Pig).sheep == -1 && Trade(f, Pig).pigs == f.pigs + 1
  {
  }

  /**
   * `buyAnimal` changes only the farm of the player on turn (to the traded farm) and
   * the dog counter of a bought dog; with nobody on turn it changes nothing.
   */
  lemma BoughtFrame(g: GameState, key: int)
    ensures GetFarm(g).None? ==> Bought(g, key) == g
    ensures GetFarm(g).Some? ==> var r := Bought(g, key); var f := Trade(GetFarm(g).value, key);
      && r.dogLevel1bought == g.dogLevel1bought + (if key == DogLevel1 then 1 else 0)
      && r.dogLevel2bought == g.dogLevel2bought + (if key == DogLevel2 then 1 else 0)
      && r.(players := g.players, dogLevel1bought := g.dogLevel1bought, dogLevel2bought := g.dogLevel2bought) == g
      && |r.players| == |g.players|
      && (forall k :: 0 <= k < |g.players| && !Plays(g.players[k], g.playingId) ==> r.players[k] == g.players[k])
      && (forall k :: 0 <= k < |g.players| && Plays(g.players[k], g.playingId) ==> r.players[k] == g.players[k].(farm := f))
  {
  }

  /** With distinct player ids, an unknown key (rabbit, fox, wolf, anything else) changes nothing. */
  lemma BuyUnknownKey(g: GameState, key: int)
    requires UniquePlayers(g.players)
    requires key !in {Sheep, Pig, Cow, Horse, DogLevel1, DogLevel2}
    ensures Bought(g, key) == g
  {
    var k := PlayingIndex(g.players, g.playingId);
    if k >= 0 {
      var r := Bought(g, key);
      assert forall m :: 0 <= m < |g.players| && Plays(g.players[m], g.playingId) ==> m == k;
      assert r.players == g.players;
    }
  }

  // ---------------------------------------------------------------- endMove

  /** `playingOrder.findIndex(id => id === playingId)`: the first index holding the id, or -1. */
  function IndexOf(order: seq<PlayerId>, id: Option<PlayerId>): (k: int)
    ensures -1 <= k < |order|
    ensures k >= 0 ==> Some(order[k]) == id && forall m :: 0 <= m < k ==> Some(order[m]) != id
    ensures k == -1 ==> forall m :: 0 <= m < |order| ==> Some(order[m]) != id
  {
    if order == [] then -1
    else if Some(order[0]) == id then 0
    else var k := IndexOf(order[1..], id); if k < 0 then -1 else k + 1
  }

  /** The id after `id` in the playing order; `None` (undefined) when the order is empty. */
  function NextPlayer(order: seq<PlayerId>, id: Option<PlayerId>): Option<PlayerId>
  {
    var playerIndex := IndexOf(order, id);
    var nextIndex := if playerIndex < |order| - 1 then playerIndex + 1 else 0;
    if nextIndex < |order| then Some(order[nextIndex]) else None
  }

  /** The state after `endMove`. */
  function Ended(g: GameState): GameState
  {
    g.(moveNumber := g.moveNumber + 1,
       playingId := NextPlayer(g.playingOrder, g.playingId),
       cubesPlayed := false)
  }

  /**
   * The turn passes cyclically: from the id at index `i` to index `(i + 1) mod len`;
   * from an id not in the order to the first one; with an empty order to nobody.
   */
  lemma NextPlayerCycles(order: seq<PlayerId>, id: Option<PlayerId>)
    ensures IndexOf(order, id) >= 0 ==>
      NextPlayer(order, id) == Some(order[(IndexOf(order, id) + 1) % |order|])
    ensures IndexOf(order, id) < 0 && |order| > 0 ==> NextPlayer(order, id) == Some(order[0])
    ensures |order| == 0 ==> NextPlayer(order, id) == None
  {
    var k := IndexOf(order, id);
    if k >= 0 {
      NextIndexWraps(k, |order|);
    }
  }

  /** The successor index modulo `len`: one step on, or back to 0 after the last. */
  lemma NextIndexWraps(k: int, len: int)
    requires 0 <= k < len
    ensures (k + 1) % len == if k + 1 < len then k + 1 else 0
  {
    if k + 1 == len {
      assert (k + 1) % len == len % len == 0;
    }
  }

  /** In an order without repeats the id at index `j` is found at `j`. */
  lemma IndexOfDistinct(order: seq<PlayerId>, j: int)
    requires Helpers.Distinct(order) && 0 <= j < |order|
    ensures IndexOf(order, Some(order[j])) == j
  {
    var k := IndexOf(order, Some(order[j]));
    assert k >= 0 && order[k] == order[j];
  }

  /** `endMove` counts one more move, clears `cubesPlayed`, passes the turn and touches nothing else. */
  lemma EndedFrame(g: GameState)
    ensures Ended(g).moveNumber == g.moveNumber + 1 && !Ended(g).cubesPlayed
    ensures Ended(g).playingId == NextPlayer(g.playingOrder, g.playingId)
    ensures Ended(g).(moveNumber := g.moveNumber, playingId := g.playingId, cubesPlayed := g.cubesPlayed) == g
  {
  }

  /** The state after `n` calls of `endMove`. */
  function EndedTimes(g: GameState, n: nat): GameState
  {
    if n == 0 then g else Ended(EndedTimes(g, n - 1))
  }

  /** `n` turn ends count `n` moves and keep the playing order. */
  lemma {:induction false} EndedTimesCounts(g: GameState, n: nat)
    ensures EndedTimes(g, n).moveNumber == g.moveNumber + n
    ensures EndedTimes(g, n).playingOrder == g.playingOrder
  {
    if n > 0 {
      EndedTimesCounts(g, n - 1);
    }
  }

  /** Over an order without repeats the player at index `j` hands the turn to index `j + 1`, or 0 after the last. */
  lemma EndMoveStep(g: GameState, j: nat)
    requires Helpers.Distinct(g.playingOrder) && j < |g.playingOrder| && g.playingId == Some(g.playingOrder[j])
    ensures Ended(g).playingId == Some(g.playingOrder[if j < |g.playingOrder| - 1 then j + 1 else 0])
  {
    IndexOfDistinct(g.playingOrder, j);
  }

  /** One more turn end moves the player on turn one index further, wrapping once. */
  lemma TurnsStep(g: GameState, i: nat, n: nat)
    requires Helpers.Distinct(g.playingOrder) && i < |g.playingOrder| && 0 < n <= |g.playingOrder|
    requires var len := |g.playingOrder|;
      EndedTimes(g, n - 1).playingId == Some(g.playingOrder[if i + n - 1 < len then i + n - 1 else i + n - 1 - len])
    ensures var len := |g.playingOrder|;
      EndedTimes(g, n).playingId == Some(g.playingOrder[if i + n < len then i + n else i + n - len])
  {
    var len := |g.playingOrder|;
    var prev := EndedTimes(g, n - 1);
    var j := if i + n - 1 < len then i + n - 1 else i + n - 1 - len;
    EndedTimesCounts(g, n - 1);
    assert prev.playingOrder == g.playingOrder;
    EndMoveStep(prev, j);
    assert (if j < len - 1 then j + 1 else 0) == (if i + n < len then i + n else i + n - len);
    assert EndedTimes(g, n) == Ended(prev);
  }

  /**
   * Over a playing order without repeats, `n <= len` turn ends starting from the
   * player at index `i` reach the player at index `i + n`, wrapped back by `len`
   * once it runs past the end.
   */
  lemma {:induction false} TurnsGoRound(g: GameState, i: nat, n: nat)
    requires Helpers.Distinct(g.playingOrder) && i < |g.playingOrder| && g.playingId == Some(g.playingOrder[i])
    requires n <= |g.playingOrder|
    ensures var len := |g.playingOrder|;
      EndedTimes(g, n).playingId == Some(g.playingOrder[if i + n < len then i + n else i + n - len])
  {
    if n > 0 {
      TurnsGoRound(g, i, n - 1);
      TurnsStep(g, i, n);
    }
  }

  /** After one full round of turn ends the same player is on turn again. */
  lemma FullRound(g: GameState, i: nat)
    requires Helpers.Distinct(g.playingOrder) && i < |g.playingOrder| && g.playingId == Some(g.playingOrder[i])
    ensures EndedTimes(g, |g.playingOrder|).playingId == g.playingId
  {
    TurnsGoRound(g, i, |g.playingOrder|);
  }

  // ---------------------------------------------------------------- startGame

  /** The ids of the passed players, in order: `players.map(player => player.id)`. */
  function PlayerIds(players: seq<Player>): (ids: seq<PlayerId>)
    ensures UniqueIds(players) ==> Helpers.Distinct(ids)
  {
    seq(|players|, k requires 0 <= k < |players| => players[k].id)
  }

  /** The online players, in input order, each with a fresh farm. */
  function Seated(players: seq<Player>): (r: seq<GamePlayer>)
    ensures |r| <= |players|
    ensures forall k :: 0 <= k < |r| ==> r[k].farm == NewFarm && r[k].player.online
    ensures forall p :: p in players && p.online <==> GamePlayer(p, NewFarm) in r
  {
    if players == [] then []
    else if players[0].online then [GamePlayer(players[0], NewFarm)] + Seated(players[1..])
    else Seated(players[1..])
  }

  /** The state after `startGame(players)` with swap indices `js` and cube codes `blue`, `red`. */
  function Started(g: GameState, players: seq<Player>, js: seq<int>, blue: int, red: int): GameState
    requires Helpers.ValidSwaps(js, |players|)
  {
    var order := Helpers.Shuffled(PlayerIds(players), js);
    g.(status := Running,
       playingId := if |order| > 0 then Some(order[0]) else None,
       blueCubeNumber := blue,
       redCubeNumber := red,
       moveNumber := 1,
       playingOrder := order,
       players := Seated(players))
  }

  /**
   * A started game is running at move 1; its playing order is a permutation of all
   * the passed ids, offline players included; the first in that order plays; its
   * players are the online ones, in input order, with zeroed farms and no dogs.
   */
  lemma StartedState(g: GameState, players: seq<Player>, js: seq<int>, blue: int, red: int)
    requires Helpers.ValidSwaps(js, |players|)
    ensures var r := Started(g, players, js, blue, red);
      && r.status == Running && r.moveNumber == 1
      && multiset(r.playingOrder) == multiset(PlayerIds(players))
      && (|players| > 0 ==> r.playingId == Some(r.playingOrder[0]))
      && r.players == Seated(players)
      && r.blueCubeNumber == blue && r.redCubeNumber == red
      && r.winnerId == g.winnerId && r.cubesPlayed == g.cubesPlayed
      && r.dogLevel1bought == g.dogLevel1bought && r.dogLevel2bought == g.dogLevel2bought
  {
    Helpers.ShuffledPermutes(PlayerIds(players), js);
  }

  /**
   * Over a roster with distinct ids, as the room table keeps it, the playing order of
   * a started game has no repeats, which the turn lemmas above require.
   */
  lemma StartedOrderDistinct(g: GameState, players: seq<Player>, js: seq<int>, blue: int, red: int)
    requires UniqueIds(players) && Helpers.ValidSwaps(js, |players|)
    ensures Helpers.Distinct(Started(g, players, js, blue, red).playingOrder)
  {
    Helpers.ShuffleKeepsDistinct(PlayerIds(players), js, |players| - 1);
  }

  /** The example of two online players A and B. */
  lemma StartTwoPlayers(g: GameState, a: Player, b: Player, js: seq<int>, blue: int, red: int)
    requires a.online && b.online && Helpers.ValidSwaps(js, 2)
    ensures var r := Started(g, [a, b], js, blue, red);
      && (r.playingOrder == [a.id, b.id] || r.playingOrder == [b.id, a.id])
      && (r.playingId == Some(a.id) || r.playingId == Some(b.id))
      && r.players == [GamePlayer(a, NewFarm), GamePlayer(b, NewFarm)]
  {
    var ids := PlayerIds([a, b]);
    assert ids == [a.id, b.id];
    assert Helpers.Shuffle(ids, js, 0) == ids;
    assert Helpers.Swap(ids, 1, 0) == [b.id, a.id];
  }

  // ---------------------------------------------------------------- the dog counters

  /** How many roster entries hold a level-1 dog. */
  function Dogs1(ps: seq<GamePlayer>): nat
  {
    if ps == [] then 0 else (if ps[0].farm.dogLevel1 then 1 else 0) + Dogs1(ps[1..])
  }

  /** How many roster entries hold a level-2 dog. */
  function Dogs2(ps: seq<GamePlayer>): nat
  {
    if ps == [] then 0 else (if ps[0].farm.dogLevel2 then 1 else 0) + Dogs2(ps[1..])
  }

  /**
   * The game-level counters cover the dogs on the farms: over a roster with distinct
   * ids, each counter is at least the number of entries holding that dog. It can be
   * more, since buying a dog that is already held still counts one purchase.
   */
  predicate DogsCounted(g: GameState)
  {
    UniquePlayers(g.players) && Dogs1(g.players) <= g.dogLevel1bought && Dogs2(g.players) <= g.dogLevel2bought
  }

  /** Replacing one entry's farm changes each dog count by that entry's difference. */
  lemma {:induction false} DogsAfterReplace(ps: seq<GamePlayer>, k: int, f: Farm)
    requires 0 <= k < |ps|
    ensures Dogs1(ps[k := ps[k].(farm := f)]) ==
      Dogs1(ps) - (if ps[k].farm.dogLevel1 then 1 else 0) + (if f.dogLevel1 then 1 else 0)
    ensures Dogs2(ps[k := ps[k].(farm := f)]) ==
      Dogs2(ps) - (if ps[k].farm.dogLevel2 then 1 else 0) + (if f.dogLevel2 then 1 else 0)
  {
    var qs := ps[k := ps[k].(farm := f)];
    if k > 0 {
      DogsAfterReplace(ps[1..], k - 1, f);
      assert qs[1..] == ps[1..][k - 1 := ps[k].(farm := f)];
    } else {
      assert qs[1..] == ps[1..];
    }
  }

  /** Over distinct ids `updateFarm` replaces the one farm of the player on turn and keeps the ids distinct. */
  lemma UpdateOnePlayer(g: GameState, f: Farm)
    requires UniquePlayers(g.players) && PlayingIndex(g.players, g.playingId) >= 0
    ensures var k := PlayingIndex(g.players, g.playingId);
      UpdateFarm(g, f).players == g.players[k := g.players[k].(farm := f)]
    ensures UniquePlayers(UpdateFarm(g, f).players)
  {
    var k := PlayingIndex(g.players, g.playingId);
    assert forall m :: 0 <= m < |g.players| && Plays(g.players[m], g.playingId) ==> m == k;
  }

  /** A new game satisfies the counter invariant. */
  lemma NewGameDogsCounted()
    ensures DogsCounted(NewGame)
  {
  }

  /** A roll keeps the counter invariant: a dog that meets its predator leaves its farm and its counter together. */
  lemma RolledKeepsDogsCounted(g: GameState, blue: int, red: int)
    requires DogsCounted(g)
    ensures DogsCounted(Rolled(g, blue, red))
  {
    var g1 := g.(blueCubeNumber := blue, redCubeNumber := red);
    var k := PlayingIndex(g1.players, g1.playingId);
    if k >= 0 {
      var farm := g1.players[k].farm;
      var f := Resolve(farm, blue, red);
      var g2 := g1.(dogLevel1bought := g1.dogLevel1bought - (if red == Fox && farm.dogLevel1 then 1 else 0),
                    dogLevel2bought := g1.dogLevel2bought - (if blue == Wolf && farm.dogLevel2 then 1 else 0));
      UpdateOnePlayer(g2, f);
      DogsAfterReplace(g2.players, k, f);
    }
  }

  /** A purchase keeps the counter invariant: a bought dog counts one more purchase. */
  lemma BoughtKeepsDogsCounted(g: GameState, key: int)
    requires DogsCounted(g)
    ensures DogsCounted(Bought(g, key))
  {
    var k := PlayingIndex(g.players, g.playingId);
    if k >= 0 {
      var f := Trade(g.players[k].farm, key);
      var g2 := g.(dogLevel1bought := g.dogLevel1bought + (if key == DogLevel1 then 1 else 0),
                   dogLevel2bought := g.dogLevel2bought + (if key == DogLevel2 then 1 else 0));
      UpdateOnePlayer(g2, f);
      DogsAfterReplace(g2.players, k, f);
    }
  }

  /** Ending a move keeps the counter invariant. */
  lemma EndedKeepsDogsCounted(g: GameState)
    requires DogsCounted(g)
    ensures DogsCounted(Ended(g))
  {
  }

  /** Fresh farms hold no dogs, and seating a roster with distinct ids keeps them distinct. */
  lemma {:induction false} SeatedFresh(players: seq<Player>)
    requires UniqueIds(players)
    ensures Dogs1(Seated(players)) == 0 && Dogs2(Seated(players)) == 0
    ensures UniquePlayers(Seated(players))
    ensures forall q :: q in Seated(players) ==> q.player in players
  {
    if players != [] {
      SeatedFresh(players[1..]);
      var rest := Seated(players[1..]);
      forall q | q in rest ensures q.player.id != players[0].id {
        var m :| 0 <= m < |players[1..]| && players[1..][m] == q.player;
        assert players[m + 1] == q.player;
      }
    }
  }

  /** Starting from a roster with distinct ids (as the room table keeps it) keeps the counter invariant. */
  lemma StartedKeepsDogsCounted(g: GameState, players: seq<Player>, js: seq<int>, blue: int, red: int)
    requires DogsCounted(g) && UniqueIds(players) && Helpers.ValidSwaps(js, |players|)
    ensures DogsCounted(Started(g, players, js, blue, red))
  {
    SeatedFresh(players);
  }

  // ---------------------------------------------------------------- the `games` table

  class GameTable {
    var games: map<string, GameState>

    constructor ()
      ensures games == map[]
    {
      games := map[];
    }

    /** `createGame`: a fresh game under `roomId`, overwriting any earlier one. */
    method CreateGame(roomId: string)
      modifies this
      ensures games == old(games)[roomId := NewGame]
    {
      games := games[roomId := NewGame];
    }

    /** `getGame`: the room's game, or undefined. */
    function GetGame(roomId: string): Option<GameState>
      reads this
    {
      if roomId in games then Some(games[roomId]) else None
    }

    /** `startGame`, with the shuffle's swap indices and the two initial rolls as inputs. */
    method StartGame(roomId: string, players: seq<Player>, js: seq<int>, blueRoll: int, redRoll: int)
      returns (r: Result<GameState>)
      requires Helpers.ValidSwaps(js, |players|)
      modifies this
      ensures roomId !in old(games) ==> r == UnknownRoom && games == old(games)
      ensures roomId in old(games) ==>
        var g := Started(old(games)[roomId], players, js, BlueAnimal(blueRoll), RedAnimal(redRoll));
        r == Ok(g) && games == old(games)[roomId := g]
    {
      var ids := new PlayerId[|players|](k requires 0 <= k < |players| => players[k].id);
      assert ids[..] == PlayerIds(players);
      var playersOrder := Helpers.ShuffleArray(ids, js);
      if roomId !in games {
        return UnknownRoom;
      }
      var game := games[roomId];
      game := game.(status := Running);
      game := game.(playingId := if playersOrder.Length > 0 then Some(playersOrder[0]) else None);
      game := game.(blueCubeNumber := BlueAnimal(blueRoll));
      game := game.(redCubeNumber := RedAnimal(redRoll));
      game := game.(moveNumber := 1);
      game := game.(playingOrder := playersOrder[..]);
      game := game.(players := Seated(players));
      games := games[roomId := game];
      r := Ok(game);
    }

    /** `dropCubes`, with the two rolls as inputs. */
    method DropCubes(roomId: string, blueRoll: int, redRoll: int) returns (r: Result<GameState>)
      modifies this
      ensures roomId !in old(games) ==> r == UnknownRoom && games == old(games)
      ensures roomId in old(games) ==>
        var g := Rolled(old(games)[roomId], BlueAnimal(blueRoll), RedAnimal(redRoll));
        r == Ok(g) && games == old(games)[roomId := g]
    {
      if roomId !in games {
        return UnknownRoom;
      }
      var game := games[roomId];
      ghost var start := game;
      var blueAnimalKey := BlueAnimal(blueRoll);
      var redAnimalKey := RedAnimal(redRoll);
      game := game.(blueCubeNumber := blueAnimalKey, redCubeNumber := redAnimalKey);
      var found := GetFarm(game);
      if found.Some? {
        var farm := found.value;
        ghost var original := farm;
        farm := farm.(rabbits := ReproduceAnimal(farm.rabbits, Rabbit, blueAnimalKey, redAnimalKey));
        farm := farm.(sheep := ReproduceAnimal(farm.sheep, Sheep, blueAnimalKey, redAnimalKey));
        farm := farm.(pigs := ReproduceAnimal(farm.pigs, Pig, blueAnimalKey, redAnimalKey));
        farm := farm.(cows := ReproduceAnimal(farm.cows, Cow, blueAnimalKey, redAnimalKey));
        farm := farm.(horses := ReproduceAnimal(farm.horses, Horse, blueAnimalKey, redAnimalKey));
        assert farm == Breed(original, blueAnimalKey, redAnimalKey);

        ghost var rolled := game;
        if redAnimalKey == Fox && !farm.dogLevel1 {
          farm := farm.(rabbits := 0);
        } else if redAnimalKey == Fox && farm.dogLevel1 {
          game := game.(dogLevel1bought := game.dogLevel1bought - 1);
          farm := farm.(dogLevel1 := false);
        }
        assert farm == FoxAttack(Breed(original, blueAnimalKey, redAnimalKey), redAnimalKey);

        if blueAnimalKey == Wolf && !farm.dogLevel2 {
          farm := farm.(rabbits := 0, sheep := 0, pigs := 0, cows := 0);
        } else if blueAnimalKey == Wolf && farm.dogLevel2 {
          game := game.(dogLevel2bought := game.dogLevel2bought - 1);
          farm := farm.(dogLevel2 := false);
        }
        assert farm == Resolve(original, blueAnimalKey, redAnimalKey);
        assert game == rolled.(dogLevel1bought := rolled.dogLevel1bought - (if redAnimalKey == Fox && original.dogLevel1 then 1 else 0),
                               dogLevel2bought := rolled.dogLevel2bought - (if blueAnimalKey == Wolf && original.dogLevel2 then 1 else 0));

        game := UpdateFarm(game, farm);
        game := game.(cubesPlayed := true);
        if CheckWin(farm) {
          game := game.(winnerId := game.playingId);
        }
        assert game == Rolled(start, blueAnimalKey, redAnimalKey);
      }
      games := games[roomId := game];
      r := Ok(game);
    }

    /** `buyAnimal(animalKey)`. */
    method BuyAnimal(roomId: string, animalKey: int) returns (r: Result<GameState>)
      modifies this
      ensures roomId !in old(games) ==> r == UnknownRoom && games == old(games)
      ensures roomId in old(games) ==>
        var g := Bought(old(games)[roomId], animalKey);
        r == Ok(g) && games == old(games)[roomId := g]
    {
      if roomId !in games {
        return UnknownRoom;
      }
      var game := games[roomId];
      var found := GetFarm(game);
      if found.Some? {
        var farm := found.value;
        if animalKey == Sheep {
          farm := farm.(rabbits := farm.rabbits - 6, sheep := farm.sheep + 1);
        }
        if animalKey == Pig {
          farm := farm.(sheep := farm.sheep - 2, pigs := farm.pigs + 1);
        }
        if animalKey == Cow {
          farm := farm.(pigs := farm.pigs - 3, cows := farm.cows + 1);
        }
        if animalKey == Horse {
          farm := farm.(cows := farm.cows - 2, horses := farm.horses + 1);
        }
        if animalKey == DogLevel1 {
          farm := farm.(sheep := farm.sheep - 1, dogLevel1 := true);
          game := game.(dogLevel1bought := game.dogLevel1bought + 1);
        }
        if animalKey == DogLevel2 {
          farm := farm.(cows := farm.cows - 1, dogLevel2 := true);
          game := game.(dogLevel2bought := game.dogLevel2bought + 1);
        }
        game := UpdateFarm(game, farm);
      }
      games := games[roomId := game];
      r := Ok(game);
    }

    /** `endMove`. */
    method EndMove(roomId: string) returns (r: Result<GameState>)
      modifies this
      ensures roomId !in old(games) ==> r == UnknownRoom && games == old(games)
      ensures roomId in old(games) ==>
        var g := Ended(old(games)[roomId]);
        r == Ok(g) && games == old(games)[roomId := g]
    {
      if roomId !in games {
        return UnknownRoom;
      }
      var game := games[roomId];
      game := game.(moveNumber := game.moveNumber + 1);
      var playerIndex := IndexOf(game.playingOrder, game.playingId);
      var nextIndex := 0;
      if playerIndex < |game.playingOrder| - 1 {
        nextIndex := playerIndex + 1;
      }
      game := game.(playingId := if nextIndex < |game.playingOrder| then Some(game.playingOrder[nextIndex]) else None);
      game := game.(cubesPlayed := false);
      games := games[roomId := game];
      r := Ok(game);
    }
  }
}
