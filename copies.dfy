/**
 * Where the two copies of the engine, `api/src/games.ts` (`ApiGames`) and
 * `src/games.ts` (`Games`), agree and where they part. Nothing here is used by
 * either copy; it only relates them.
 */
module Copies {
  import ApiGames
  import Games

  /** The same herd seen as a farm of the other copy. */
  function AsVariant(f: ApiGames.Farm): Games.Farm
  {
    Games.Farm(f.rabbits, f.sheep, f.pigs, f.cows, f.horses, f.dogLevel1, f.dogLevel2)
  }

  /** Both copies apply the same trade table to the farm, for every key. */
  lemma SameTradeTable(f: ApiGames.Farm, key: int)
    ensures AsVariant(ApiGames.Trade(f, key)) == Games.Trade(AsVariant(f), key)
  {
  }

  /**
   * The cubes agree on rolls 1 to 10 and part on 11 and 12: red 11 is a horse in
   * the canonical copy and a cow in the other; 12 is the wolf (8) or fox (7) there
   * and a horse (4) on both cubes here.
   */
  lemma CubesCompared(roll: int)
    ensures 1 <= roll <= 10 ==>
      ApiGames.BlueAnimal(roll) == Games.BlueAnimal(roll) && ApiGames.RedAnimal(roll) == Games.RedAnimal(roll)
    ensures ApiGames.BlueAnimal(11) == Games.BlueAnimal(11) == ApiGames.Cow
    ensures ApiGames.RedAnimal(11) == ApiGames.Horse && Games.RedAnimal(11) == Games.Cow
    ensures ApiGames.BlueAnimal(12) == ApiGames.Wolf && ApiGames.RedAnimal(12) == ApiGames.Fox
    ensures Games.BlueAnimal(12) == Games.RedAnimal(12) == Games.Predator
  {
  }

  /**
   * The breeding rules give the same count exactly when: neither cube shows the tier
   * and it is empty; both show it and it holds 0 or 1; one shows it and the count is
   * not an odd number of 3 or more.
   */
  lemma BreedingCompared(n: int, key: int, blue: int, red: int)
    ensures ApiGames.ReproduceAnimal(n, key, blue, red) == Games.ReproduceAnimal(n, key, blue, red) <==>
      || (red != key && blue != key && n == 0)
      || (red == key && blue == key && 0 <= n <= 1)
      || ((red == key) != (blue == key) && !(n >= 3 && n % 2 == 1))
  {
    if red == key && blue == key {
      if n / 2 == 0 {
        assert 0 <= n <= 1;
      }
    } else if (red == key) != (blue == key) {
      if n > 0 && n % 2 == 1 && n / 2 == 0 {
        assert n == 1;
      }
    }
  }
}
