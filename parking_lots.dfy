/**
 * The parking-lot routes: the body validator, the record a valid body
 * becomes, and the create, read, replace and delete handlers.
 */
module ParkingLots {
  import opened Wrappers
  import opened Js
  import opened Strings
  import opened Validation
  import opened Models

  /** The fields of a request body the routes read. */
  datatype LotBody = LotBody(
    name: JsValue,
    address: JsValue,
    pricePerHour: JsValue,
    totalSpots: JsValue,
    hasCCTV: JsValue)

  /** The checks of `validateParkingLot`, in the order they run. */
  datatype Check = NameRequired | AddressRequired | PricePerHourRequired | TotalSpotsRequired | HasCctvNotBoolean

  const Checks: seq<Check> := [NameRequired, AddressRequired, PricePerHourRequired, TotalSpotsRequired, HasCctvNotBoolean]

  const NameMessage: string := "name is required (string)"
  const AddressMessage: string := "address is required (string)"
  const PricePerHourMessage: string := "pricePerHour is required (number >= 0)"
  const TotalSpotsMessage: string := "totalSpots is required (number >= 1)"
  const HasCctvMessage: string := "hasCCTV must be boolean"

  /** The text a failing check pushes. */
  function Message(c: Check): string {
    match c
    case NameRequired => NameMessage
    case AddressRequired => AddressMessage
    case PricePerHourRequired => PricePerHourMessage
    case TotalSpotsRequired => TotalSpotsMessage
    case HasCctvNotBoolean => HasCctvMessage
  }

  /** `Number(v)` is undefined or NaN or below `min`. */
  predicate NumberBelow(rt: Runtime, v: JsValue, min: real) {
    v.Undefined? || rt.toNumber(v).None? || rt.toNumber(v).value < min
  }

  /** Whether check `c` fails on `body`. */
  predicate Fails(rt: Runtime, body: LotBody, c: Check) {
    match c
    case NameRequired => MissingOrNotString(body.name)
    case AddressRequired => MissingOrNotString(body.address)
    case PricePerHourRequired => NumberBelow(rt, body.pricePerHour, 0.0)
    case TotalSpotsRequired => NumberBelow(rt, body.totalSpots, 1.0)
    case HasCctvNotBoolean => !body.hasCCTV.Undefined? && !body.hasCCTV.Bool?
  }

  /** The verdicts of the five checks on `body`, in table order. */
  function Table(rt: Runtime, body: LotBody): seq<Verdict> {
    [ Verdict(Fails(rt, body, NameRequired), NameMessage),
      Verdict(Fails(rt, body, AddressRequired), AddressMessage),
      Verdict(Fails(rt, body, PricePerHourRequired), PricePerHourMessage),
      Verdict(Fails(rt, body, TotalSpotsRequired), TotalSpotsMessage),
      Verdict(Fails(rt, body, HasCctvNotBoolean), HasCctvMessage) ]
  }

  /** The error list the validator reports for `body`. */
  function Errors(rt: Runtime, body: LotBody): seq<string> {
    Collect(Table(rt, body))
  }

  /** A body the validator lets through, field by field. */
  predicate Accepted(rt: Runtime, body: LotBody) {
    && body.name.Str? && body.name.s != []
    && body.address.Str? && body.address.s != []
    && !body.pricePerHour.Undefined? && rt.toNumber(body.pricePerHour).Some?
    && rt.toNumber(body.pricePerHour).value >= 0.0
    && !body.totalSpots.Undefined? && rt.toNumber(body.totalSpots).Some?
    && rt.toNumber(body.totalSpots).value >= 1.0
    && (body.hasCCTV.Undefined? || body.hasCCTV.Bool?)
  }

  /**
   * `validateParkingLot`: runs all five checks without stopping and returns
   * the messages of the failing ones in table order.
   */
  method ValidateParkingLot(rt: Runtime, body: LotBody) returns (errors: seq<string>)
    ensures errors == Errors(rt, body)
  {
    errors := [];
    errors := Report(errors, !Truthy(body.name) || !body.name.Str?, NameMessage);
    errors := Report(errors, !Truthy(body.address) || !body.address.Str?, AddressMessage);
    var price := rt.toNumber(body.pricePerHour);
    errors := Report(errors, body.pricePerHour.Undefined? || price.None? || price.value < 0.0, PricePerHourMessage);
    var total := rt.toNumber(body.totalSpots);
    errors := Report(errors, body.totalSpots.Undefined? || total.None? || total.value < 1.0, TotalSpotsMessage);
    errors := Report(errors, !body.hasCCTV.Undefined? && !body.hasCCTV.Bool?, HasCctvMessage);
    ErrorsUnfold(rt, body);
  }

  /** The list, check by check, with each check's condition as the route writes it. */
  lemma ErrorsUnfold(rt: Runtime, body: LotBody)
    ensures Errors(rt, body) == []
      + (if !Truthy(body.name) || !body.name.Str? then [NameMessage] else [])
      + (if !Truthy(body.address) || !body.address.Str? then [AddressMessage] else [])
      + (if body.pricePerHour.Undefined? || rt.toNumber(body.pricePerHour).None?
             || rt.toNumber(body.pricePerHour).value < 0.0 then [PricePerHourMessage] else [])
      + (if body.totalSpots.Undefined? || rt.toNumber(body.totalSpots).None?
             || rt.toNumber(body.totalSpots).value < 1.0 then [TotalSpotsMessage] else [])
      + (if !body.hasCCTV.Undefined? && !body.hasCCTV.Bool? then [HasCctvMessage] else [])
  {
    CollectFive(Table(rt, body));
  }

  lemma TableDistinct(rt: Runtime, body: LotBody)
    ensures DistinctMessages(Table(rt, body))
  {
  }

  /** Position of check `c` in the table. */
  function IndexOf(c: Check): (i: nat)
    ensures i < |Checks| && Checks[i] == c
  {
    match c
    case NameRequired => 0
    case AddressRequired => 1
    case PricePerHourRequired => 2
    case TotalSpotsRequired => 3
    case HasCctvNotBoolean => 4
  }

  /** The list is empty exactly when the body is accepted field by field. */
  lemma ErrorsEmptyIff(rt: Runtime, body: LotBody)
    ensures Errors(rt, body) == [] <==> Accepted(rt, body)
  {
    var t := Table(rt, body);
    CollectEmpty(t);
    assert t[0].failed == Fails(rt, body, NameRequired);
    assert t[1].failed == Fails(rt, body, AddressRequired);
    assert t[2].failed == Fails(rt, body, PricePerHourRequired);
    assert t[3].failed == Fails(rt, body, TotalSpotsRequired);
    assert t[4].failed == Fails(rt, body, HasCctvNotBoolean);
  }

  /** Each check's message is in the list exactly when that check fails; none is there twice. */
  lemma ErrorsExact(rt: Runtime, body: LotBody, c: Check)
    ensures Message(c) in Errors(rt, body) <==> Fails(rt, body, c)
    ensures forall p, q :: 0 <= p < q < |Errors(rt, body)| ==> Errors(rt, body)[p] != Errors(rt, body)[q]
  {
    TableDistinct(rt, body);
    CollectExact(Table(rt, body), IndexOf(c));
  }

  /** At most five messages, and the message of an earlier failing check comes first. */
  lemma ErrorsOrdered(rt: Runtime, body: LotBody, c: Check, d: Check)
    requires IndexOf(c) < IndexOf(d) && Fails(rt, body, c) && Fails(rt, body, d)
    ensures |Errors(rt, body)| <= 5
    ensures exists p, q :: && 0 <= p < q < |Errors(rt, body)|
                           && Errors(rt, body)[p] == Message(c)
                           && Errors(rt, body)[q] == Message(d)
  {
    var t := Table(rt, body);
    CollectOrdered(t, IndexOf(c), IndexOf(d));
    var p := |Collect(t[..IndexOf(c)])|;
    var q := |Collect(t[..IndexOf(d)])|;
    assert Errors(rt, body)[p] == Message(c) && Errors(rt, body)[q] == Message(d);
  }

  /** The price message appears exactly when the price is undefined, NaN or negative. */
  lemma PricePerHourError(rt: Runtime, body: LotBody)
    ensures Message(PricePerHourRequired) in Errors(rt, body)
        <==> (body.pricePerHour.Undefined? || rt.toNumber(body.pricePerHour).None?
              || rt.toNumber(body.pricePerHour).value < 0.0)
  {
    ErrorsExact(rt, body, PricePerHourRequired);
  }

  /**
   * The spot-count message appears exactly when the count is undefined, NaN
   * or below one; a fractional count such as 1.5 is accepted.
   */
  lemma TotalSpotsError(rt: Runtime, body: LotBody)
    ensures Message(TotalSpotsRequired) in Errors(rt, body)
        <==> (body.totalSpots.Undefined? || rt.toNumber(body.totalSpots).None?
              || rt.toNumber(body.totalSpots).value < 1.0)
    ensures !body.totalSpots.Undefined? && rt.toNumber(body.totalSpots) == Some(1.5)
        ==> Message(TotalSpotsRequired) !in Errors(rt, body)
  {
    ErrorsExact(rt, body, TotalSpotsRequired);
  }

  /** `hasCCTV` may be absent; when present, anything but a boolean is reported. */
  lemma HasCctvError(rt: Runtime, body: LotBody)
    ensures body.hasCCTV.Undefined? ==> Message(HasCctvNotBoolean) !in Errors(rt, body)
    ensures !body.hasCCTV.Undefined? ==> (Message(HasCctvNotBoolean) in Errors(rt, body) <==> !body.hasCCTV.Bool?)
  {
    ErrorsExact(rt, body, HasCctvNotBoolean);
  }

  /**
   * The document the POST and PUT handlers write for an accepted body: the
   * trimmed strings, the coerced numbers, and `hasCCTV ?? false`. It meets
   * the schema's numeric bounds.
   */
  function BuildLot(rt: Runtime, body: LotBody): (lot: ParkingLot)
    requires Accepted(rt, body)
    ensures lot.name == Trim(body.name.s) && lot.address == Trim(body.address.s)
    ensures Some(lot.pricePerHour) == rt.toNumber(body.pricePerHour) && lot.pricePerHour >= 0.0
    ensures Some(lot.totalSpots) == rt.toNumber(body.totalSpots) && lot.totalSpots >= 1.0
    ensures lot.hasCCTV == (body.hasCCTV == Bool(true))
  {
    ParkingLot(
      Trim(body.name.s),
      Trim(body.address.s),
      rt.toNumber(body.pricePerHour).value,
      rt.toNumber(body.totalSpots).value,
      if body.hasCCTV.Undefined? || body.hasCCTV.Null? then false else body.hasCCTV.b)
  }

  /**
   * The schema rejects a built document exactly when its name or its address
   * was whitespace only: the route's check lets "  " through, trimming makes
   * it empty, and `required` refuses it.
   */
  lemma BuildLotSchema(rt: Runtime, body: LotBody)
    requires Accepted(rt, body)
    ensures LotSchemaValid(BuildLot(rt, body)) <==>
      && (exists k :: 0 <= k < |body.name.s| && !IsWhitespace(body.name.s[k]))
      && (exists k :: 0 <= k < |body.address.s| && !IsWhitespace(body.address.s[k]))
  {
    TrimShape(body.name.s);
    TrimShape(body.address.s);
  }

  const LotNotFound: string := "Parking lot not found"

  /** POST /api/parking-lots. */
  method CreateLot(db: Database, rt: Runtime, body: LotBody, newId: Id) returns (resp: Response<ParkingLot>)
    requires db.Valid() && newId !in db.lots
    modifies db
    ensures db.Valid()
    ensures db.reservations == old(db.reservations)
    ensures Errors(rt, body) != [] ==> resp == BadRequest(ValidationError, Errors(rt, body)) && db.lots == old(db.lots)
    ensures Errors(rt, body) == [] ==> (
      && Accepted(rt, body)
      && if LotSchemaValid(BuildLot(rt, body)) then
           resp == Created(newId, BuildLot(rt, body)) && db.lots == old(db.lots)[newId := BuildLot(rt, body)]
         else
           resp == ServerError && db.lots == old(db.lots))
  {
    var errors := ValidateParkingLot(rt, body);
    if |errors| > 0 {
      return BadRequest(ValidationError, errors);
    }
    ErrorsEmptyIff(rt, body);
    var lot := BuildLot(rt, body);
    if !LotSchemaValid(lot) {
      return ServerError;
    }
    db.lots := db.lots[newId := lot];
    resp := Created(newId, lot);
  }

  /** GET /api/parking-lots/:id. */
  method GetLot(db: Database, rt: Runtime, rawId: string) returns (resp: Response<ParkingLot>)
    ensures PathId(rt, rawId).None? ==> resp == BadRequest(InvalidId, [])
    ensures PathId(rt, rawId).Some? && PathId(rt, rawId).value !in db.lots ==> resp == NotFound(LotNotFound)
    ensures PathId(rt, rawId).Some? && PathId(rt, rawId).value in db.lots
        ==> resp == Ok(PathId(rt, rawId).value, db.lots[PathId(rt, rawId).value])
  {
    var id := PathId(rt, rawId);
    if id.None? {
      return BadRequest(InvalidId, []);
    }
    if id.value !in db.lots {
      return NotFound(LotNotFound);
    }
    resp := Ok(id.value, db.lots[id.value]);
  }

  /**
   * PUT /api/parking-lots/:id: the id check, then the body check, then the
   * schema's validators (run before the update reaches the store), then the
   * lookup; only then is the document replaced.
   */
  method UpdateLot(db: Database, rt: Runtime, rawId: string, body: LotBody) returns (resp: Response<ParkingLot>)
    requires db.Valid()
    modifies db
    ensures db.Valid()
    ensures db.reservations == old(db.reservations)
    ensures PathId(rt, rawId).None? ==> resp == BadRequest(InvalidId, []) && db.lots == old(db.lots)
    ensures PathId(rt, rawId).Some? && Errors(rt, body) != [] ==>
      resp == BadRequest(ValidationError, Errors(rt, body)) && db.lots == old(db.lots)
    ensures PathId(rt, rawId).Some? && Errors(rt, body) == [] ==> (
      && Accepted(rt, body)
      && var id, lot := PathId(rt, rawId).value, BuildLot(rt, body);
         if !LotSchemaValid(lot) then resp == ServerError && db.lots == old(db.lots)
         else if id !in old(db.lots) then resp == NotFound(LotNotFound) && db.lots == old(db.lots)
         else resp == Ok(id, lot) && db.lots == old(db.lots)[id := lot])
  {
    var id := PathId(rt, rawId);
    if id.None? {
      return BadRequest(InvalidId, []);
    }
    var errors := ValidateParkingLot(rt, body);
    if |errors| > 0 {
      return BadRequest(ValidationError, errors);
    }
    ErrorsEmptyIff(rt, body);
    var lot := BuildLot(rt, body);
    if !LotSchemaValid(lot) {
      return ServerError;
    }
    if id.value !in db.lots {
      return NotFound(LotNotFound);
    }
    db.lots := db.lots[id.value := lot];
    resp := Ok(id.value, lot);
  }

  /**
   * DELETE /api/parking-lots/:id: removes that one lot and nothing else; the
   * reservations that reference it stay as they are.
   */
  method DeleteLot(db: Database, rt: Runtime, rawId: string) returns (resp: Response<ParkingLot>)
    requires db.Valid()
    modifies db
    ensures db.Valid()
    ensures db.reservations == old(db.reservations)
    ensures PathId(rt, rawId).None? ==> resp == BadRequest(InvalidId, []) && db.lots == old(db.lots)
    ensures PathId(rt, rawId).Some? ==>
      var id := PathId(rt, rawId).value;
      if id in old(db.lots) then resp == NoContent && db.lots == old(db.lots) - {id}
      else resp == NotFound(LotNotFound) && db.lots == old(db.lots)
  {
    var id := PathId(rt, rawId);
    if id.None? {
      return BadRequest(InvalidId, []);
    }
    if id.value !in db.lots {
      return NotFound(LotNotFound);
    }
    db.lots := db.lots - {id.value};
    resp := NoContent;
  }
}
