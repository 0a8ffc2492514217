/** The band record kept by the collection manager and the small value types it is built from. */
module Bands {

  /** A value that may be absent (a Java reference that may be null). */
  datatype Option<+T> = None | Some(value: T)

  /** The outcome of an operation that returns a value or throws. */
  datatype Result<+R, +E> = Success(value: R) | Failure(error: E)

  /** The outcome of an operation that returns nothing or throws. */
  datatype Outcome<+E> = Pass | Fail(error: E)

  /** The exceptions the collection manager lets escape to its caller. */
  datatype Error =
    | IndexOutOfRange  // a positional access outside the list
    | NoSuchId         // no element carries the requested id
    | NullGenre        // an element without a genre was compared with a genre

  /**
   * A constant of the closed genre enumeration, identified by its position
   * in the declaration; the constants themselves are not part of this model.
   */
  datatype Genre = Genre(ordinal: nat)

  /** Enum comparison: the difference of the declaration positions. */
  function CompareGenres(a: Genre, b: Genre): (r: int)
    ensures r < 0 <==> a.ordinal < b.ordinal
    ensures r == 0 <==> a == b
  {
    a.ordinal - b.ordinal
  }

  /** The two axes of a band's coordinates: one integral, one floating point. */
  datatype Coordinates = Coordinates(x: int, y: real)

  datatype Label = Label(name: string)

  datatype Date = Date(year: int, month: int, day: int)

  /** A music band record; absent optional fields are `None`. */
  datatype Band = Band(
    id: int,
    name: string,
    coordinates: Coordinates,
    creationDate: Option<Date>,
    numberOfParticipants: int,
    singlesCount: Option<int>,
    genre: Option<Genre>,
    recordLabel: Option<Label>)
}
