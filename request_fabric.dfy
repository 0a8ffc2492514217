/**
 * The client's request construction: a request carries a band payload,
 * read field by field from the console, exactly when its command is one of
 * the configured "extended" commands.
 */
module RequestFabric {
  import opened Bands

  /** A request as the client sends it; `U` is the opaque identity of the logged-in user. */
  datatype Request<U> = Request(command: string, argument: string, band: Option<Band>, user: U)

  /**
   * The answers of the console field reader, in the order it is asked for
   * them: everything of a band except its id and creation date.
   */
  datatype BandFields = BandFields(
    name: string,
    coordinates: Coordinates,
    numberOfParticipants: int,
    singlesCount: Option<int>,
    genre: Option<Genre>,
    recordLabel: Option<Label>)

  /** The configuration a request fabric is built with (its field reader is an input of `CreateRequest`). */
  datatype Fabric<U> = Fabric(commandsWithExtendedRequest: set<string>, currentUser: U)

  /** The part of a band the field reader supplies. */
  function FieldsOf(b: Band): (f: BandFields)
  {
    BandFields(b.name, b.coordinates, b.numberOfParticipants, b.singlesCount, b.genre, b.recordLabel)
  }

  /** A request whose band is built from what the reader returned, with placeholder id 0 and no creation date. */
  function CreateExtendedRequest<U>(fabric: Fabric<U>, command: string, argument: string, fields: BandFields): (r: Request<U>)
    ensures r.command == command && r.argument == argument && r.user == fabric.currentUser
    ensures r.band.Some? && r.band.value.id == 0 && r.band.value.creationDate.None?
    ensures FieldsOf(r.band.value) == fields
  {
    var band := Band(0, fields.name, fields.coordinates, None, fields.numberOfParticipants,
                     fields.singlesCount, fields.genre, fields.recordLabel);
    Request(command, argument, Some(band), fabric.currentUser)
  }

  /**
   * Builds the request for `command`; `fields` are the answers the field
   * reader would give, consulted only for an extended command.
   */
  function CreateRequest<U>(fabric: Fabric<U>, command: string, argument: string, fields: BandFields): (r: Request<U>)
    ensures r.command == command && r.argument == argument && r.user == fabric.currentUser
    ensures r.band.Some? <==> command in fabric.commandsWithExtendedRequest
    ensures r.band.Some? ==> r.band.value.id == 0 && r.band.value.creationDate.None?
    ensures r.band.Some? ==> FieldsOf(r.band.value) == fields
  {
    if command in fabric.commandsWithExtendedRequest then
      CreateExtendedRequest(fabric, command, argument, fields)
    else
      Request(command, argument, None, fabric.currentUser)
  }

  /**
   * A band with placeholder id and no creation date is fully determined by
   * the reader's answers, so the ensures of `CreateExtendedRequest` and
   * `CreateRequest` pin down the payload completely.
   */
  lemma PlaceholderDeterminedByFields(a: Band, b: Band)
    requires a.id == 0 && a.creationDate.None? && b.id == 0 && b.creationDate.None?
    requires FieldsOf(a) == FieldsOf(b)
    ensures a == b
  {
  }

  /** A plain request does not depend on anything the reader could return. */
  lemma PlainRequestIgnoresReader<U>(fabric: Fabric<U>, command: string, argument: string,
                                     fields: BandFields, other: BandFields)
    requires command !in fabric.commandsWithExtendedRequest
    ensures CreateRequest(fabric, command, argument, fields) == CreateRequest(fabric, command, argument, other)
  {
  }
}
