/** Small value types shared by the room table and both copies of the game engine. */
module Common {

  /** Player identifiers are strings chosen by the clients. */
  type PlayerId = string

  /** A value that may be missing; `None` stands for JavaScript's `undefined`. */
  datatype Option<T> = None | Some(value: T)

  /**
   * The outcome of an engine operation on a room. `startGame`, `dropCubes`,
   * `buyAnimal` and `endMove` read `games[roomId]` and then write a field of it or
   * read one, so on a room id that has no game the original code throws a TypeError
   * before it changes anything; `UnknownRoom` stands for that throw. Room ids are
   * taken as own keys of the table, never as names inherited by a plain object.
   */
  datatype Result<T> = Ok(value: T) | UnknownRoom
}
