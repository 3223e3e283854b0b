# Parking-lot reservation service: a verified model

This project models the request-handling core of a small REST service for
parking lots and their reservations. The service is an Express application
over two MongoDB collections, written in JavaScript.

The model covers:

- the two request-body validators. Each runs every check, never stops at the
  first failure, and returns the failed checks' messages in a fixed order;
- the billing rule. The length of a stay is rounded up to whole hours and
  multiplied by the lot's hourly rate;
- the record a valid body becomes. Strings are trimmed, the car plate is
  upper-cased, numbers are coerced and `hasCCTV` defaults to `false`;
- the create, read, replace and delete handlers of both resources. They are
  methods on a `Database` object that holds the two collections as maps from
  identifier to record.

## Files

- `wrappers.dfy`: module `Wrappers`, the `Option` datatype.
- `js.dfy`: module `Js`.
  - `JsValue` is a property of a JSON request body. Arrays carry their
    elements and objects their properties, so the built-ins can tell any two
    of them apart.
  - `Truthy` is JavaScript truthiness.
  - `Runtime` bundles the three built-ins the routes call as abstract total
    functions: `mongoose.Types.ObjectId.isValid` together with the cast to an
    identifier, `Number()`, and `new Date()`.
- `strings.dfy`: module `Strings`. It holds `String.prototype.trim`, with
  ECMAScript's whitespace and line-terminator set, and `toUpperCase`.
- `validation.dfy`: module `Validation`. It is the error-accumulating pattern
  both validators share. One run of a validator is a table of verdicts, one
  per check, and `Collect` is the list it returns. The module proves, for any
  table:
  - which messages the list holds;
  - in what order they appear;
  - when the list is empty.
- `models.dfy`: module `Models`. It holds:
  - the two Mongoose schemas as records, together with their validators;
  - the HTTP responses;
  - the `validateObjectId` middleware;
  - the `Database` class, whose invariant `Valid` says every stored record
    meets its schema.
- `parking_lots.dfy`: module `ParkingLots`, the `routes/parkingLots.js` core.
- `reservations.dfy`: module `Reservations`, the `routes/reservations.js`
  core, with the billing rule.

## Modelling choices

- **Abstract built-ins.** Every result holds for every choice of the
  `Runtime` functions:
  - `toNumber(v) == None` stands for `Number(v)` being `NaN`;
  - `toDate(v) == None` stands for an Invalid Date;
  - otherwise `toDate(v)` is the time value in milliseconds.
- **Store failures.** Mongoose's own schema validators become
  `LotSchemaValid` and `ReservationSchemaValid`. When they reject a document,
  the write throws. The handler passes the error on, and the global error
  handler in `server.js:35-38` answers 500. The model writes this as
  `ServerError`, and nothing is written.
- **Order of the checks in PUT.** With `runValidators`, `findByIdAndUpdate`
  validates the update before it looks the document up. So in both PUT
  handlers the schema check comes before the not-found answer.
- **Fresh identifiers.** The identifier the store assigns to a created record
  is a parameter, `newId`, and it must be unused.
- **Where the code is looser than its schema suggests.**
  - `totalSpots` is only required to coerce to a number ≥ 1. A count of 1.5 is
    accepted, as `ParkingLots.TotalSpotsError` shows.
  - A name, address, customer name or plate made only of whitespace passes the
    route's check. It is then trimmed to the empty string, so the schema's
    `required` rejects it and the answer is 500, not 400.
    `ParkingLots.BuildLotSchema` and `Reservations.BuildReservationSchema`
    state exactly when this happens.

## Model

| member | source | states |
|---|---|---|
| Js.Truthy | routes/reservations.js:13-29 | JavaScript truthiness, the test behind each `!body.x`: `undefined`, `null`, `false`, `0` and `""` are falsy; every other number, string, array and object is truthy |
| Js.MissingOrNotString | routes/parkingLots.js:10 | `!v \|\| typeof v !== 'string'` holds exactly when `v` is not a non-empty string |
| Strings.TrimStartShape | routes/parkingLots.js:44 | removing leading whitespace keeps a suffix of the input, drops only whitespace, and stops at a non-whitespace character |
| Strings.TrimEndShape | routes/parkingLots.js:44 | removing trailing whitespace keeps a prefix of the input, drops only whitespace, and stops at a non-whitespace character |
| Strings.TrimShape | routes/parkingLots.js:44-45 | `trim()` is the infix of its input flanked by whitespace on both sides; it starts and ends with a non-whitespace character, and it is empty exactly when the input is all whitespace |
| Strings.TrimIdempotent | models/ParkingLot.js:8-17 | trimming an already trimmed value (the schema's `trim: true`) changes nothing |
| Strings.Trim | routes/parkingLots.js:44-45 | `trim()` removes the leading whitespace, then the trailing whitespace; its properties are `TrimShape`'s and `TrimIdempotent`'s |
| Strings.ToUpper | routes/reservations.js:81 | `toUpperCase()`, one character at a time; its properties are `ToUpperShape`'s |
| Strings.ToUpperShape | routes/reservations.js:81 | upper-casing keeps the length, puts the matching capital A-Z at every position that held a letter a-z, and keeps every other character; so no letter a-z is left and every whitespace position stays whitespace |
| Strings.ToUpperIdempotent | routes/reservations.js:81 | upper-casing twice is upper-casing once |
| Validation.Report | routes/reservations.js:13-46 | one `if (…) errors.push(msg)`: the list grows by the message exactly when the check failed, and is otherwise unchanged |
| Validation.CollectSplit | routes/reservations.js:10-49 | the list for a table is the list for its first `i` checks followed by the list for the rest |
| Validation.CollectEmpty | routes/reservations.js:10-49 | the list is empty exactly when no check failed |
| Validation.CollectSound | routes/reservations.js:10-49 | every entry of the list is the message of a failed check, standing at the index equal to the number of failed checks before that check |
| Validation.CollectAt | routes/reservations.js:10-49 | a failed check's message stands at the index equal to the number of failed checks before it |
| Validation.CollectOrdered | routes/reservations.js:10-49 | of two failed checks, the earlier one's message comes first |
| Validation.CollectContains | routes/reservations.js:10-49 | with distinct messages, a message is in the list exactly when its check failed |
| Validation.CollectNoDuplicates | routes/reservations.js:10-49 | with distinct messages, no message is in the list twice |
| Validation.CollectExact | routes/reservations.js:10-49 | with distinct messages, a check's message is in the list exactly when it failed, and no message is in it twice; both validators' `ErrorsExact` are this fact for their own table |
| Models.LotSchemaValid | models/ParkingLot.js:6-34 | the ParkingLot schema's validators: `required` name and address (so not empty), `min: 0` on the price, `min: 1` on the spot count |
| Models.ReservationSchemaValid | models/Reservation.js:6-39 | the Reservation schema's validators: `required` customer name and plate (so not empty), `min: 0` on the price |
| Models.PathId | middleware/validateObjectId.js:4-11 | the identifier the `:id` in the path names, or none when `ObjectId.isValid` refuses it and the answer is 400 `Invalid id` |
| Models.Database.Valid | models/ParkingLot.js:6-34 | the store invariant every handler keeps: every stored lot meets its schema, and every stored reservation meets its schema and ends after it starts |
| ParkingLots.ValidateParkingLot | routes/parkingLots.js:7-33 | the five checks run in order without short-circuit; the result is the message list for the body's table of verdicts |
| ParkingLots.ErrorsEmptyIff | routes/parkingLots.js:7-33 | no errors exactly when name and address are non-empty strings, the price coerces to a number ≥ 0, the spot count to a number ≥ 1, and `hasCCTV` is absent or boolean |
| ParkingLots.ErrorsExact | routes/parkingLots.js:7-33 | each check's message is reported exactly when that check fails, and no message twice |
| ParkingLots.ErrorsOrdered | routes/parkingLots.js:7-33 | at most five messages; an earlier failing check's message precedes a later one's |
| ParkingLots.PricePerHourError | routes/parkingLots.js:18-21 | the price message appears exactly when the price is undefined, NaN or negative |
| ParkingLots.TotalSpotsError | routes/parkingLots.js:23-26 | the spot-count message appears exactly when the count is undefined, NaN or below 1; a fractional count of 1.5 passes |
| ParkingLots.HasCctvError | routes/parkingLots.js:28-30 | an absent `hasCCTV` passes; a present one is reported exactly when it is not a boolean |
| ParkingLots.BuildLot | routes/parkingLots.js:43-49 | the written lot has the trimmed strings, the coerced numbers (price ≥ 0, spots ≥ 1), and `hasCCTV` true only when the body sent `true` |
| ParkingLots.BuildLotSchema | models/ParkingLot.js:6-34 | the schema accepts the built lot exactly when its name and its address each held a non-whitespace character |
| ParkingLots.CreateLot | routes/parkingLots.js:36-55 | 400 with the error list and no write; otherwise 500 with no write when the schema refuses, else 201 and exactly one insertion; reservations never change; the store invariant is kept |
| ParkingLots.GetLot | routes/parkingLots.js:67-79 | 400 for a malformed id, 404 for an absent one, else 200 with the stored lot; nothing changes |
| ParkingLots.UpdateLot | routes/parkingLots.js:81-109 | 400 for a malformed id, then 400 for validation errors, then 500 for a schema failure, then 404 for an absent lot, each with no write; else 200 and that one lot replaced; reservations never change |
| ParkingLots.DeleteLot | routes/parkingLots.js:111-124 | 400 for a malformed id; 404 with no change for an absent id; else 204 with exactly that lot removed; the reservations are left exactly as they were, including those that name the deleted lot |
| Reservations.ValidateReservation | routes/reservations.js:10-49 | the eight checks run in order without short-circuit; the result is the message list for the body's table of verdicts, and the two parsed dates |
| Reservations.ErrorsEmptyIff | routes/reservations.js:10-49 | no errors exactly when the body is accepted field by field; an empty list means both dates parsed and the end is strictly after the start |
| Reservations.ErrorsExact | routes/reservations.js:10-49 | each check's message is reported exactly when that check fails, and no message twice |
| Reservations.ErrorsOrdered | routes/reservations.js:10-49 | at most eight messages; an earlier failing check's message precedes a later one's |
| Reservations.ArrayTimesCanPass | routes/reservations.js:25-46 | the validator does not demand strings: a body whose two times are one-element arrays passes for a runtime whose `new Date` parses them to increasing times |
| Reservations.OrderError | routes/reservations.js:44-46 | the ordering message appears exactly when both dates parse and the end is not after the start |
| Reservations.MissingStartReportedTwice | routes/reservations.js:25-46 | a missing start time that does not parse is reported as both missing and invalid, and the ordering check does not fire |
| Reservations.Ceil | routes/reservations.js:56 | `Math.ceil`: the least integer not below its argument |
| Reservations.BillableHours | routes/reservations.js:52-56 | the billed hours `h` are the least whole number of hours covering the stay: `(h - 1)` hours are shorter than it and `h` hours are not |
| Reservations.BillableHoursUnique | routes/reservations.js:51-56 | the billed figure is the only integer with those bounds |
| Reservations.BillableWholeHours | routes/reservations.js:51-56 | exactly `k` hours bills `k`; one millisecond more bills `k + 1` |
| Reservations.BillableHoursMonotone | routes/reservations.js:51-56 | a longer stay is never billed fewer hours |
| Reservations.TotalPrice | routes/reservations.js:51-59 | at a non-negative rate a positive stay costs at least one hour's rate, and a stay of at most one hour costs exactly one hour's rate |
| Reservations.TotalPriceMonotone | routes/reservations.js:51-59 | at a non-negative rate the price is non-negative and grows with the length of the stay |
| Reservations.TotalPriceExamples | routes/reservations.js:51-59 | at 10 per hour: 59 minutes cost 10, 61 minutes cost 20, 120 minutes cost 20 |
| Reservations.NormalizeCarPlate | routes/reservations.js:81 | the stored plate is the sent plate trimmed, then upper-cased; its properties are those of `NormalizeCarPlateIdempotent`, `NormalizeCarPlateShape` and `NormalizeCarPlateExample` |
| Reservations.NormalizeCarPlateIdempotent | routes/reservations.js:81 | normalizing a plate (trim, then upper-case) twice is normalizing it once |
| Reservations.NormalizeCarPlateShape | routes/reservations.js:81 | a normalized plate has no letter a-z and no whitespace at either end, and it is empty exactly when the input was all whitespace |
| Reservations.NormalizeCarPlateExample | routes/reservations.js:81 | the plate `" ab-123 "` is stored as `"AB-123"` |
| Reservations.BuildReservation | routes/reservations.js:76-85 | the written record names the found lot, has the trimmed customer name and the normalized plate, keeps the parsed times (start strictly before end), and its price is the billing rule at the lot's own rate |
| Reservations.BuildReservationSchema | models/Reservation.js:6-39 | for a stored lot, the price is at least the lot's rate and ≥ 0, and the schema accepts the record exactly when the customer name and the plate each held a non-whitespace character |
| Reservations.CreateReservation | routes/reservations.js:62-91 | 400 with the error list, then 404 for a missing lot, then 500 for a schema failure, each with no write; else 201 and exactly one insertion of the built record; lots never change; the store invariant is kept |
| Reservations.GetReservation | routes/reservations.js:107-122 | 400 for a malformed id, 404 for an absent one, else 200 with the stored record; nothing changes |
| Reservations.UpdateReservation | routes/reservations.js:125-162 | 400 for a malformed id, then 400 for validation errors, then 404 for a missing lot, then 500 for a schema failure, then 404 for an absent reservation, each with no write; else 200 and that one record replaced; lots never change |
| Reservations.DeleteReservation | routes/reservations.js:165-177 | 400 for a malformed id; 204 exactly when a record with that id existed and was removed, 404 with no change otherwise; lots never change |

## Left out

- The list handlers `GET /api/parking-lots` and `GET /api/reservations` are
  not modelled. They only read, and their substance is the store's `sort` and
  `populate`, which are not part of this model.
- `populate` in `GET /api/reservations/:id` is left out. The model answers
  with the stored record, whose `parkingLotId` is the identifier, not the
  embedded lot fields.
- The `createdAt`/`updatedAt` timestamps (`timestamps: true`) are not stored.
- Numbers are exact reals. IEEE-754 rounding in `ms / 3600000`, in the price
  product and in `Number()` is not modelled, and neither are `Infinity` and
  JavaScript's `-0`.
- The internals of `Number()`, `new Date()` and `ObjectId.isValid` are not
  modelled. They are abstract functions in `Runtime`; the results hold for any
  of them.
- `toUpperCase` maps only the ASCII letters a-z. The full Unicode case
  mapping is not modelled.
- `async`/`await`, concurrent requests and store errors other than a schema
  rejection (connection loss, cast errors) are left out. Each handler is one
  atomic step.
- The `server.js` plumbing is left out: the JSON body parser, the CORS
  middleware, the static files, the health check, the catch-all 404 route,
  the connection string and the listening port. Its error handler appears only as the `ServerError` answer.
- The schema's `required` on the identifier, the two dates and the numbers is
  not modelled separately. The route validators already guarantee those
  fields, so the route checks cover it.
