/**
 * The reservation routes: the body validator, the hourly billing rule, the
 * record a valid body becomes, and the create, read, replace and delete
 * handlers.
 */
module Reservations {
  import opened Wrappers
  import opened Js
  import opened Strings
  import opened Validation
  import opened Models

  /** The fields of a request body the routes read. */
  datatype ReservationBody = ReservationBody(
    parkingLotId: JsValue,
    customerName: JsValue,
    carPlate: JsValue,
    startTime: JsValue,
    endTime: JsValue)

  /** The checks of `validateReservation`, in the order they run. */
  datatype Check =
    | LotIdRequired | CustomerNameRequired | CarPlateRequired | StartTimeRequired
    | EndTimeRequired | StartTimeInvalid | EndTimeInvalid | EndNotAfterStart

  const Checks: seq<Check> := [
    LotIdRequired, CustomerNameRequired, CarPlateRequired, StartTimeRequired,
    EndTimeRequired, StartTimeInvalid, EndTimeInvalid, EndNotAfterStart]

  const LotIdMessage: string := "parkingLotId is required (valid ObjectId)"
  const CustomerNameMessage: string := "customerName is required (string)"
  const CarPlateMessage: string := "carPlate is required (string)"
  const StartTimeMessage: string := "startTime is required (ISO date string)"
  const EndTimeMessage: string := "endTime is required (ISO date string)"
  const StartInvalidMessage: string := "startTime is invalid date"
  const EndInvalidMessage: string := "endTime is invalid date"
  const OrderMessage: string := "endTime must be after startTime"

  /** The text a failing check pushes. */
  function Message(c: Check): string {
    match c
    case LotIdRequired => LotIdMessage
    case CustomerNameRequired => CustomerNameMessage
    case CarPlateRequired => CarPlateMessage
    case StartTimeRequired => StartTimeMessage
    case EndTimeRequired => EndTimeMessage
    case StartTimeInvalid => StartInvalidMessage
    case EndTimeInvalid => EndInvalidMessage
    case EndNotAfterStart => OrderMessage
  }

  /** Both times are dates and the end is not later than the start. */
  predicate EndsNoLaterThanStart(rt: Runtime, body: ReservationBody) {
    && rt.toDate(body.startTime).Some? && rt.toDate(body.endTime).Some?
    && rt.toDate(body.endTime).value <= rt.toDate(body.startTime).value
  }

  /** Whether check `c` fails on `body`. */
  predicate Fails(rt: Runtime, body: ReservationBody, c: Check) {
    match c
    case LotIdRequired => !Truthy(body.parkingLotId) || rt.objectId(body.parkingLotId).None?
    case CustomerNameRequired => MissingOrNotString(body.customerName)
    case CarPlateRequired => MissingOrNotString(body.carPlate)
    case StartTimeRequired => !Truthy(body.startTime)
    case EndTimeRequired => !Truthy(body.endTime)
    case StartTimeInvalid => rt.toDate(body.startTime).None?
    case EndTimeInvalid => rt.toDate(body.endTime).None?
    case EndNotAfterStart => EndsNoLaterThanStart(rt, body)
  }

  /** The verdicts of the eight checks on `body`, in table order. */
  function Table(rt: Runtime, body: ReservationBody): seq<Verdict> {
    [ Verdict(Fails(rt, body, LotIdRequired), LotIdMessage),
      Verdict(Fails(rt, body, CustomerNameRequired), CustomerNameMessage),
      Verdict(Fails(rt, body, CarPlateRequired), CarPlateMessage),
      Verdict(Fails(rt, body, StartTimeRequired), StartTimeMessage),
      Verdict(Fails(rt, body, EndTimeRequired), EndTimeMessage),
      Verdict(Fails(rt, body, StartTimeInvalid), StartInvalidMessage),
      Verdict(Fails(rt, body, EndTimeInvalid), EndInvalidMessage),
      Verdict(Fails(rt, body, EndNotAfterStart), OrderMessage) ]
  }

  /** The error list the validator reports for `body`. */
  function Errors(rt: Runtime, body: ReservationBody): seq<string> {
    Collect(Table(rt, body))
  }

  /** A body the validator lets through, field by field. */
  predicate Accepted(rt: Runtime, body: ReservationBody) {
    && Truthy(body.parkingLotId) && rt.objectId(body.parkingLotId).Some?
    && body.customerName.Str? && body.customerName.s != []
    && body.carPlate.Str? && body.carPlate.s != []
    && Truthy(body.startTime) && Truthy(body.endTime)
    && rt.toDate(body.startTime).Some? && rt.toDate(body.endTime).Some?
    && rt.toDate(body.startTime).value < rt.toDate(body.endTime).value
  }

  /**
   * `validateReservation`: runs all eight checks without stopping and returns
   * the messages of the failing ones in table order, with the two parsed dates.
   */
  method ValidateReservation(rt: Runtime, body: ReservationBody)
    returns (errors: seq<string>, start: Option<int>, end: Option<int>)
    ensures errors == Errors(rt, body)
    ensures start == rt.toDate(body.startTime) && end == rt.toDate(body.endTime)
  {
    errors := [];
    errors := Report(errors, !Truthy(body.parkingLotId) || rt.objectId(body.parkingLotId).None?, LotIdMessage);
    errors := Report(errors, !Truthy(body.customerName) || !body.customerName.Str?, CustomerNameMessage);
    errors := Report(errors, !Truthy(body.carPlate) || !body.carPlate.Str?, CarPlateMessage);
    errors := Report(errors, !Truthy(body.startTime), StartTimeMessage);
    errors := Report(errors, !Truthy(body.endTime), EndTimeMessage);
    start := rt.toDate(body.startTime);
    end := rt.toDate(body.endTime);
    errors := Report(errors, start.None?, StartInvalidMessage);
    errors := Report(errors, end.None?, EndInvalidMessage);
    errors := Report(errors, start.Some? && end.Some? && end.value <= start.value, OrderMessage);
    ErrorsUnfold(rt, body);
  }

  /** The list, check by check. */
  lemma ErrorsUnfold(rt: Runtime, body: ReservationBody)
    ensures Errors(rt, body) == []
      + (if !Truthy(body.parkingLotId) || rt.objectId(body.parkingLotId).None? then [LotIdMessage] else [])
      + (if !Truthy(body.customerName) || !body.customerName.Str? then [CustomerNameMessage] else [])
      + (if !Truthy(body.carPlate) || !body.carPlate.Str? then [CarPlateMessage] else [])
      + (if !Truthy(body.startTime) then [StartTimeMessage] else [])
      + (if !Truthy(body.endTime) then [EndTimeMessage] else [])
      + (if rt.toDate(body.startTime).None? then [StartInvalidMessage] else [])
      + (if rt.toDate(body.endTime).None? then [EndInvalidMessage] else [])
      + (if rt.toDate(body.startTime).Some? && rt.toDate(body.endTime).Some?
             && rt.toDate(body.endTime).value <= rt.toDate(body.startTime).value then [OrderMessage] else [])
  {
    CollectEight(Table(rt, body));
  }

  lemma TableDistinct(rt: Runtime, body: ReservationBody)
    ensures DistinctMessages(Table(rt, body))
  {
  }

  /** Position of check `c` in the table. */
  function IndexOf(c: Check): (i: nat)
    ensures i < |Checks| && Checks[i] == c
  {
    match c
    case LotIdRequired => 0
    case CustomerNameRequired => 1
    case CarPlateRequired => 2
    case StartTimeRequired => 3
    case EndTimeRequired => 4
    case StartTimeInvalid => 5
    case EndTimeInvalid => 6
    case EndNotAfterStart => 7
  }

  /**
   * The list is empty exactly when the body is accepted field by field; in
   * particular an empty list means both dates parsed and the end is later.
   */
  lemma ErrorsEmptyIff(rt: Runtime, body: ReservationBody)
    ensures Errors(rt, body) == [] <==> Accepted(rt, body)
    ensures Errors(rt, body) == [] ==>
      && rt.toDate(body.startTime).Some? && rt.toDate(body.endTime).Some?
      && rt.toDate(body.startTime).value < rt.toDate(body.endTime).value
  {
    var t := Table(rt, body);
    CollectEmpty(t);
    assert t[0].failed == Fails(rt, body, LotIdRequired);
    assert t[1].failed == Fails(rt, body, CustomerNameRequired);
    assert t[2].failed == Fails(rt, body, CarPlateRequired);
    assert t[3].failed == Fails(rt, body, StartTimeRequired);
    assert t[4].failed == Fails(rt, body, EndTimeRequired);
    assert t[5].failed == Fails(rt, body, StartTimeInvalid);
    assert t[6].failed == Fails(rt, body, EndTimeInvalid);
    assert t[7].failed == Fails(rt, body, EndNotAfterStart);
  }

  /** Each check's message is in the list exactly when that check fails; none is there twice. */
  lemma ErrorsExact(rt: Runtime, body: ReservationBody, c: Check)
    ensures Message(c) in Errors(rt, body) <==> Fails(rt, body, c)
    ensures forall p, q :: 0 <= p < q < |Errors(rt, body)| ==> Errors(rt, body)[p] != Errors(rt, body)[q]
  {
    TableDistinct(rt, body);
    CollectExact(Table(rt, body), IndexOf(c));
  }

  /** At most eight messages, and the message of an earlier failing check comes first. */
  lemma ErrorsOrdered(rt: Runtime, body: ReservationBody, c: Check, d: Check)
    requires IndexOf(c) < IndexOf(d) && Fails(rt, body, c) && Fails(rt, body, d)
    ensures |Errors(rt, body)| <= 8
    ensures exists p, q :: && 0 <= p < q < |Errors(rt, body)|
                           && Errors(rt, body)[p] == Message(c)
                           && Errors(rt, body)[q] == Message(d)
  {
    var t := Table(rt, body);
    CollectOrdered(t, IndexOf(c), IndexOf(d));
    var p := |Collect(t[..IndexOf(c)])|;
    var q := |Collect(t[..IndexOf(d)])|;
    assert Errors(rt, body)[p] == Message(c) && Errors(rt, body)[q] == Message(d);
  }

  /**
   * Nothing in the validator asks for strings: a body whose times are
   * one-element arrays (which `new Date` reads through their string form)
   * passes for a runtime that parses them to two increasing times.
   */
  lemma ArrayTimesCanPass(a: string, b: string)
    requires a != b
    ensures var body := ReservationBody(Str("lot"), Str("Ann"), Str("ab-123"), Arr([Str(a)]), Arr([Str(b)]));
      exists rt: Runtime :: Errors(rt, body) == []
  {
    var body := ReservationBody(Str("lot"), Str("Ann"), Str("ab-123"), Arr([Str(a)]), Arr([Str(b)]));
    var rt := Runtime(
      v => Some("lot"),
      v => None,
      v => if v == body.startTime then Some(0) else if v == body.endTime then Some(1) else None);
    assert body.startTime != body.endTime;
    assert Accepted(rt, body);
    ErrorsEmptyIff(rt, body);
  }

  /** The ordering message appears exactly when both dates parse and the end is not after the start. */
  lemma OrderError(rt: Runtime, body: ReservationBody)
    ensures OrderMessage in Errors(rt, body) <==>
      && rt.toDate(body.startTime).Some? && rt.toDate(body.endTime).Some?
      && rt.toDate(body.endTime).value <= rt.toDate(body.startTime).value
  {
    ErrorsExact(rt, body, EndNotAfterStart);
  }

  /**
   * No short-circuit: a missing start time that `new Date` cannot parse is
   * reported twice, as missing and as invalid, and the ordering check is then
   * skipped.
   */
  lemma MissingStartReportedTwice(rt: Runtime, body: ReservationBody)
    requires !Truthy(body.startTime) && rt.toDate(body.startTime).None?
    ensures StartTimeMessage in Errors(rt, body) && StartInvalidMessage in Errors(rt, body)
    ensures OrderMessage !in Errors(rt, body)
  {
    ErrorsExact(rt, body, StartTimeRequired);
    ErrorsExact(rt, body, StartTimeInvalid);
    ErrorsExact(rt, body, EndNotAfterStart);
  }

  // ---------------------------------------------------------------------
  // Billing: `calcTotalPrice`
  // ---------------------------------------------------------------------

  /** Milliseconds in an hour, `1000 * 60 * 60`. */
  const MsPerHour: int := 1000 * 60 * 60

  /** `Math.ceil` on an exact real: the least integer not below `x`. */
  function Ceil(x: real): (c: int)
    ensures c as real - 1.0 < x <= c as real
  {
    -((-x).Floor)
  }

  /**
   * `Math.ceil((end - start) / (1000 * 60 * 60))`: the hours billed for a
   * stay, the least whole number of hours that covers it.
   */
  function BillableHours(start: int, end: int): (h: int)
    ensures (h - 1) * MsPerHour < end - start <= h * MsPerHour
  {
    var x := (end - start) as real / MsPerHour as real;
    assert x * MsPerHour as real == (end - start) as real;
    var h := Ceil(x);
    assert (h as real - 1.0) * MsPerHour as real < (end - start) as real;
    assert (end - start) as real <= h as real * MsPerHour as real;
    h
  }

  /**
   * `calcTotalPrice`: billable hours times the hourly rate. With a
   * non-negative rate a positive stay costs at least one hour's rate, and a
   * stay of at most an hour costs exactly that.
   */
  function TotalPrice(start: int, end: int, pricePerHour: real): (p: real)
    ensures start < end && pricePerHour >= 0.0 ==> p >= pricePerHour
    ensures start < end <= start + MsPerHour ==> p == pricePerHour
  {
    var h := BillableHours(start, end);
    assert start < end ==> h >= 1;
    assert start < end && pricePerHour >= 0.0 ==> h as real * pricePerHour >= 1.0 * pricePerHour;
    assert start < end <= start + MsPerHour ==> h == 1;
    h as real * pricePerHour
  }

  /** Only the integer with those bounds is the billed figure. */
  lemma BillableHoursUnique(start: int, end: int, k: int)
    requires (k - 1) * MsPerHour < end - start <= k * MsPerHour
    ensures BillableHours(start, end) == k
  {
  }

  /** Exactly `k` hours bill `k` hours; one millisecond more bills `k + 1`. */
  lemma BillableWholeHours(start: int, k: int)
    ensures BillableHours(start, start + k * MsPerHour) == k
    ensures BillableHours(start, start + k * MsPerHour + 1) == k + 1
  {
    BillableHoursUnique(start, start + k * MsPerHour, k);
    BillableHoursUnique(start, start + k * MsPerHour + 1, k + 1);
  }

  /** A longer stay is never billed fewer hours. */
  lemma BillableHoursMonotone(start1: int, end1: int, start2: int, end2: int)
    requires end1 - start1 <= end2 - start2
    ensures BillableHours(start1, end1) <= BillableHours(start2, end2)
  {
  }

  /** With a non-negative rate the price of a stay is non-negative and grows with its length. */
  lemma TotalPriceMonotone(start1: int, end1: int, start2: int, end2: int, rate: real)
    requires rate >= 0.0 && start1 < end1 && end1 - start1 <= end2 - start2
    ensures 0.0 <= TotalPrice(start1, end1, rate) <= TotalPrice(start2, end2, rate)
  {
    var h1, h2 := BillableHours(start1, end1), BillableHours(start2, end2);
    calc {
      TotalPrice(start1, end1, rate);
    ==
      h1 as real * rate;
    <= { BillableHoursMonotone(start1, end1, start2, end2); ScaleMonotone(h1, h2, rate); }
      h2 as real * rate;
    ==
      TotalPrice(start2, end2, rate);
    }
  }

  /** Scaling by a non-negative rate keeps the order of two whole numbers. */
  lemma ScaleMonotone(a: int, b: int, rate: real)
    requires a <= b && rate >= 0.0
    ensures a as real * rate <= b as real * rate
  {
    assert b as real * rate - a as real * rate == (b - a) as real * rate;
  }

  /** 59 minutes at 10 per hour cost 10; 61 minutes and 120 minutes cost 20. */
  lemma TotalPriceExamples(start: int)
    ensures TotalPrice(start, start + 59 * 60 * 1000, 10.0) == 10.0
    ensures TotalPrice(start, start + 61 * 60 * 1000, 10.0) == 20.0
    ensures TotalPrice(start, start + 120 * 60 * 1000, 10.0) == 20.0
  {
    BillableHoursUnique(start, start + 59 * 60 * 1000, 1);
    BillableHoursUnique(start, start + 61 * 60 * 1000, 2);
    BillableWholeHours(start, 2);
  }

  // ---------------------------------------------------------------------
  // The stored record
  // ---------------------------------------------------------------------

  /** `carPlate.trim().toUpperCase()`. */
  function NormalizeCarPlate(s: string): string {
    ToUpper(Trim(s))
  }

  /** A normalized plate is its own normal form. */
  lemma NormalizeCarPlateIdempotent(s: string)
    ensures NormalizeCarPlate(NormalizeCarPlate(s)) == NormalizeCarPlate(s)
  {
    var t := Trim(s);
    var u := ToUpper(t);
    TrimShape(s);
    ToUpperShape(t);
    TrimOfTrimmed(u);
    ToUpperIdempotent(t);
  }

  /** A normalized plate has no lower-case ASCII letter and no whitespace at either end. */
  lemma NormalizeCarPlateShape(s: string)
    ensures var p := NormalizeCarPlate(s);
      && (forall k :: 0 <= k < |p| ==> !('a' <= p[k] <= 'z'))
      && (p == [] || (!IsWhitespace(p[0]) && !IsWhitespace(p[|p| - 1])))
      && (p == [] <==> forall k :: 0 <= k < |s| ==> IsWhitespace(s[k]))
  {
    TrimShape(s);
    ToUpperShape(Trim(s));
  }

  /** A plate typed with surrounding spaces and small letters is stored trimmed and in capitals. */
  lemma NormalizeCarPlateExample()
    ensures NormalizeCarPlate(" ab-123 ") == "AB-123"
  {
    assert TrimStart(" ab-123 ") == TrimStart("ab-123 ") == "ab-123 ";
    assert TrimEnd("ab-123 ") == TrimEnd("ab-123") == "ab-123";
    ToUpperShape("ab-123");
  }

  /**
   * The document POST and PUT write for an accepted body and the lot it names:
   * the lot's identifier, the trimmed name, the normalized plate, the two
   * parsed times and the price from the lot's own rate.
   */
  function BuildReservation(rt: Runtime, body: ReservationBody, lot: ParkingLot): (r: Reservation)
    requires Accepted(rt, body)
    ensures Some(r.parkingLotId) == rt.objectId(body.parkingLotId)
    ensures r.customerName == Trim(body.customerName.s)
    ensures r.carPlate == NormalizeCarPlate(body.carPlate.s)
    ensures Some(r.startTime) == rt.toDate(body.startTime) && Some(r.endTime) == rt.toDate(body.endTime)
    ensures r.startTime < r.endTime
    ensures r.totalPrice == TotalPrice(r.startTime, r.endTime, lot.pricePerHour)
  {
    Reservation(
      rt.objectId(body.parkingLotId).value,
      Trim(body.customerName.s),
      NormalizeCarPlate(body.carPlate.s),
      rt.toDate(body.startTime).value,
      rt.toDate(body.endTime).value,
      TotalPrice(rt.toDate(body.startTime).value, rt.toDate(body.endTime).value, lot.pricePerHour))
  }

  /**
   * For a stored lot, the schema rejects a built reservation exactly when the
   * customer name or the plate was whitespace only; the price is then at
   * least the lot's hourly rate.
   */
  lemma BuildReservationSchema(rt: Runtime, body: ReservationBody, lot: ParkingLot)
    requires Accepted(rt, body) && LotSchemaValid(lot)
    ensures BuildReservation(rt, body, lot).totalPrice >= lot.pricePerHour >= 0.0
    ensures StoredReservationValid(BuildReservation(rt, body, lot)) <==>
      && (exists k :: 0 <= k < |body.customerName.s| && !IsWhitespace(body.customerName.s[k]))
      && (exists k :: 0 <= k < |body.carPlate.s| && !IsWhitespace(body.carPlate.s[k]))
  {
    var r := BuildReservation(rt, body, lot);
    TrimShape(body.customerName.s);
    NormalizeCarPlateShape(body.carPlate.s);
  }

  // ---------------------------------------------------------------------
  // Handlers
  // ---------------------------------------------------------------------

  const LotNotFound: string := "Parking lot not found for this parkingLotId"
  const ReservationNotFound: string := "Reservation not found"

  /**
   * POST /api/reservations: the body check, then the lot lookup, then the
   * price from the lot's rate, then the schema; only then is the record
   * inserted. The lots are never touched.
   */
  method CreateReservation(db: Database, rt: Runtime, body: ReservationBody, newId: Id)
    returns (resp: Response<Reservation>)
    requires db.Valid() && newId !in db.reservations
    modifies db
    ensures db.Valid()
    ensures db.lots == old(db.lots)
    ensures Errors(rt, body) != [] ==>
      resp == BadRequest(ValidationError, Errors(rt, body)) && db.reservations == old(db.reservations)
    ensures Errors(rt, body) == [] ==> (
      && Accepted(rt, body)
      && var lotId := rt.objectId(body.parkingLotId).value;
         if lotId !in db.lots then
           resp == NotFound(LotNotFound) && db.reservations == old(db.reservations)
         else
           var r := BuildReservation(rt, body, db.lots[lotId]);
           if StoredReservationValid(r) then
             resp == Created(newId, r) && db.reservations == old(db.reservations)[newId := r]
           else
             resp == ServerError && db.reservations == old(db.reservations))
  {
    var errors, start, end := ValidateReservation(rt, body);
    if |errors| > 0 {
      return BadRequest(ValidationError, errors);
    }
    ErrorsEmptyIff(rt, body);
    var lotId := rt.objectId(body.parkingLotId).value;
    if lotId !in db.lots {
      return NotFound(LotNotFound);
    }
    var lot := db.lots[lotId];
    var totalPrice := TotalPrice(start.value, end.value, lot.pricePerHour);
    var r := Reservation(lotId, Trim(body.customerName.s), NormalizeCarPlate(body.carPlate.s),
                         start.value, end.value, totalPrice);
    assert r == BuildReservation(rt, body, lot);
    if !ReservationSchemaValid(r) {
      return ServerError;
    }
    db.reservations := db.reservations[newId := r];
    resp := Created(newId, r);
  }

  /** GET /api/reservations/:id. */
  method GetReservation(db: Database, rt: Runtime, rawId: string) returns (resp: Response<Reservation>)
    ensures PathId(rt, rawId).None? ==> resp == BadRequest(InvalidId, [])
    ensures PathId(rt, rawId).Some? && PathId(rt, rawId).value !in db.reservations
        ==> resp == NotFound(ReservationNotFound)
    ensures PathId(rt, rawId).Some? && PathId(rt, rawId).value in db.reservations
        ==> resp == Ok(PathId(rt, rawId).value, db.reservations[PathId(rt, rawId).value])
  {
    var id := PathId(rt, rawId);
    if id.None? {
      return BadRequest(InvalidId, []);
    }
    if id.value !in db.reservations {
      return NotFound(ReservationNotFound);
    }
    resp := Ok(id.value, db.reservations[id.value]);
  }

  /**
   * PUT /api/reservations/:id: the id check, the body check, the lot lookup,
   * the price, the schema's validators (run before the update reaches the
   * store), then the lookup of the reservation; only then is it replaced.
   */
  method UpdateReservation(db: Database, rt: Runtime, rawId: string, body: ReservationBody)
    returns (resp: Response<Reservation>)
    requires db.Valid()
    modifies db
    ensures db.Valid()
    ensures db.lots == old(db.lots)
    ensures PathId(rt, rawId).None? ==>
      resp == BadRequest(InvalidId, []) && db.reservations == old(db.reservations)
    ensures PathId(rt, rawId).Some? && Errors(rt, body) != [] ==>
      resp == BadRequest(ValidationError, Errors(rt, body)) && db.reservations == old(db.reservations)
    ensures PathId(rt, rawId).Some? && Errors(rt, body) == [] ==> (
      && Accepted(rt, body)
      && var id, lotId := PathId(rt, rawId).value, rt.objectId(body.parkingLotId).value;
         if lotId !in db.lots then
           resp == NotFound(LotNotFound) && db.reservations == old(db.reservations)
         else
           var r := BuildReservation(rt, body, db.lots[lotId]);
           if !StoredReservationValid(r) then
             resp == ServerError && db.reservations == old(db.reservations)
           else if id !in old(db.reservations) then
             resp == NotFound(ReservationNotFound) && db.reservations == old(db.reservations)
           else
             resp == Ok(id, r) && db.reservations == old(db.reservations)[id := r])
  {
    var id := PathId(rt, rawId);
    if id.None? {
      return BadRequest(InvalidId, []);
    }
    var errors, start, end := ValidateReservation(rt, body);
    if |errors| > 0 {
      return BadRequest(ValidationError, errors);
    }
    ErrorsEmptyIff(rt, body);
    var lotId := rt.objectId(body.parkingLotId).value;
    if lotId !in db.lots {
      return NotFound(LotNotFound);
    }
    var lot := db.lots[lotId];
    var totalPrice := TotalPrice(start.value, end.value, lot.pricePerHour);
    var r := Reservation(lotId, Trim(body.customerName.s), NormalizeCarPlate(body.carPlate.s),
                         start.value, end.value, totalPrice);
    assert r == BuildReservation(rt, body, lot);
    if !ReservationSchemaValid(r) {
      return ServerError;
    }
    if id.value !in db.reservations {
      return NotFound(ReservationNotFound);
    }
    db.reservations := db.reservations[id.value := r];
    resp := Ok(id.value, r);
  }

  /** DELETE /api/reservations/:id: 204 exactly when a record was removed. */
  method DeleteReservation(db: Database, rt: Runtime, rawId: string) returns (resp: Response<Reservation>)
    requires db.Valid()
    modifies db
    ensures db.Valid()
    ensures db.lots == old(db.lots)
    ensures PathId(rt, rawId).None? ==>
      resp == BadRequest(InvalidId, []) && db.reservations == old(db.reservations)
    ensures PathId(rt, rawId).Some? ==>
      var id := PathId(rt, rawId).value;
      if id in old(db.reservations) then
        resp == NoContent && db.reservations == old(db.reservations) - {id}
      else
        resp == NotFound(ReservationNotFound) && db.reservations == old(db.reservations)
  {
    var id := PathId(rt, rawId);
    if id.None? {
      return BadRequest(InvalidId, []);
    }
    if id.value !in db.reservations {
      return NotFound(ReservationNotFound);
    }
    db.reservations := db.reservations - {id.value};
    resp := NoContent;
  }
}
