/**
 * The two Mongoose models, the responses a handler sends, and the store: one
 * collection of parking lots and one of reservations, each a map from the
 * document identifier to the record.
 */
module Models {
  import opened Wrappers
  import opened Js

  /** A parking-lot document. `totalSpots` is a number: nothing makes it whole. */
  datatype ParkingLot = ParkingLot(
    name: string,
    address: string,
    pricePerHour: real,
    totalSpots: real,
    hasCCTV: bool)

  /**
   * The ParkingLot schema's own validators: `required` on the two strings
   * (Mongoose rejects the empty string), `min: 0` on the price and `min: 1`
   * on the spot count.
   */
  predicate LotSchemaValid(lot: ParkingLot) {
    && lot.name != []
    && lot.address != []
    && lot.pricePerHour >= 0.0
    && lot.totalSpots >= 1.0
  }

  /** A reservation document; the two times are in milliseconds since the epoch. */
  datatype Reservation = Reservation(
    parkingLotId: Id,
    customerName: string,
    carPlate: string,
    startTime: int,
    endTime: int,
    totalPrice: real)

  /** The Reservation schema's own validators: `required` strings and `min: 0` on the price. */
  predicate ReservationSchemaValid(r: Reservation) {
    && r.customerName != []
    && r.carPlate != []
    && r.totalPrice >= 0.0
  }

  /** What a stored reservation satisfies: its schema, and an end strictly after its start. */
  predicate StoredReservationValid(r: Reservation) {
    ReservationSchemaValid(r) && r.startTime < r.endTime
  }

  /**
   * The HTTP answer of a handler. `BadRequest` carries the `message` and the
   * `errors` list of the JSON body (empty for the invalid-id answer);
   * `ServerError` is what the global error handler sends for an error a
   * handler passes on.
   */
  datatype Response<T> =
    | Created(id: Id, record: T)
    | Ok(id: Id, record: T)
    | NoContent
    | BadRequest(message: string, errors: seq<string>)
    | NotFound(message: string)
    | ServerError
  {
    function Status(): int {
      match this
      case Created(_, _) => 201
      case Ok(_, _) => 200
      case NoContent => 204
      case BadRequest(_, _) => 400
      case NotFound(_) => 404
      case ServerError => 500
    }
  }

  const ValidationError: string := "Validation error"
  const InvalidId: string := "Invalid id"

  /**
   * The `validateObjectId` middleware in front of every `/:id` route: the
   * identifier the path names, or `None` when the handler never runs and
   * the answer is `BadRequest(InvalidId, [])`.
   */
  function PathId(rt: Runtime, rawId: string): Option<Id> {
    rt.objectId(Str(rawId))
  }

  /** The two collections. */
  class Database {
    var lots: map<Id, ParkingLot>
    var reservations: map<Id, Reservation>

    /** Every stored document meets its schema; reservations end after they start. */
    ghost predicate Valid()
      reads this
    {
      && (forall id :: id in lots ==> LotSchemaValid(lots[id]))
      && (forall id :: id in reservations ==> StoredReservationValid(reservations[id]))
    }

    constructor ()
      ensures Valid()
      ensures lots == map[] && reservations == map[]
    {
      lots := map[];
      reservations := map[];
    }
  }
}
