# Aircraft record store of flight-craft, in Dafny

flight-craft is a small fleet-tracking application. Its core is the `Aircraft`
collection, a MongoDB collection of aircraft records behind a Mongoose schema,
and the `/api/main` request handlers in front of it. `POST` creates one aircraft.
`GET` lists them all.

The model has four modules:

- `Wrappers` (`wrappers.dfy`): `Option` (a JavaScript value that may be `undefined`) and `Result`.
- `FlightModels` (`flight_models.dfy`): the schema of `client/models/flightModels.js`.
  - An `AircraftDoc` is a document as handed to `create`. Any of its fields may be missing.
  - `ApplyDefaults` fills in the `status` default, `maintenance`.
  - `Violations` gives the set of schema paths whose `required` or `enum` validator fails. A Mongoose `ValidationError` is keyed by such paths; the model keeps the paths and drops the messages.
  - `Validate` runs both steps. It yields either a typed `Aircraft` record or the failing paths.
- `Store` (`store.dfy`): the collection.
  - The class `AircraftStore` holds a map from tail number to record.
  - Its invariant `WellKeyed` says that each record is filed under its own tail number and passes the schema. This is how the unique index on `tailNumber` appears in the model.
  - `Create` validates, then inserts or fails. `List` is `find({})`.
  - Both are specified by pure functions: `CreateOutcome`, `AfterCreate` and `Enumerates`. The lemmas are proved about these functions.
- `MainRoute` (`main_route.dfy`): the handlers of `client/app/api/main/route.ts`.
  - `Post` runs the truthiness pre-check, replaces a falsy `status` with `"maintenance"`, calls `Create`, and maps the outcome to 201, 400 or 500. The pure function `PostResponse` specifies its response.
  - `Get` answers 200 with every stored record, or 500.

Whether the database call fails is not something the model can observe. Each store
call therefore takes a boolean parameter `unreachable`. When it is true, the call
fails with `Unavailable`. `create` runs its validators before it contacts the
database, so a validation error takes precedence over `Unavailable`.
`Unavailable` in turn takes precedence over a duplicate key.

Schema semantics modelled, per Mongoose's validators:
- A required String path fails when the value is absent or `""`.
- A required Number path fails only when the value is absent. Zero is accepted.
- The `enum` validator accepts an absent value.
- The default fills only an absent `status`, so a `status` of `""` reaches the `enum` validator and fails.
- `location.lat` and `location.lng` are validated only when `location` is present. When one of them fails, the error is also recorded under `location` itself, as Mongoose does for a single nested sub-document.

Two consequences of the handler's code are worth noting:
- The handler's error text says "Missing required fields." (client/app/api/main/route.ts:17), but its check at client/app/api/main/route.ts:15 tests truthiness. A coordinate of 0 and an empty `tailNumber` or `model` therefore get 400 as well. `PostResponse` states this: it answers 400 exactly when `MissingRequired` holds of the body. `ZeroCoordinateRejected` states the coordinate case on its own.
- A truthy `status` outside the enum passes the pre-check. `create` then fails on it, and the handler answers 500, not 400 (`BadStatusIs500`).

## Model

| member | source | states |
|---|---|---|
| FlightModels.StatusName | client/models/flightModels.js:24-26 | every status is stored under one of the three enum strings |
| FlightModels.ParseStatus | client/models/flightModels.js:24-26 | a string is accepted by the enum validator exactly when it is "available", "aog" or "maintenance", and it then names the status it parses to |
| FlightModels.StatusRoundTrip | client/models/flightModels.js:24-26 | parsing the stored name of a status gives that status back |
| FlightModels.ApplyDefaults | client/models/flightModels.js:27 | an absent status becomes "maintenance"; a supplied status and every other field are left as they are |
| FlightModels.Violations | client/models/flightModels.js:3-33 | no validator fails exactly when tailNumber and model are non-empty strings, status is absent or in the enum, and location is present with lat and lng; each path is reported exactly when its own rule fails; lat and lng are reported only when location is present, and location is reported when it is missing or lacks lat or lng |
| FlightModels.ToDoc | client/models/flightModels.js:14-33 | the document form of a record passes the schema exactly when its tail number and model are non-empty |
| FlightModels.Validate | client/models/flightModels.js:14-33 | validation succeeds exactly when the defaulted document passes every validator; the record it yields is that defaulted document; a failure names a non-empty set of failing paths |
| FlightModels.ValidateToDoc | client/models/flightModels.js:14-33 | a conforming record survives the round trip through its document form unchanged |
| FlightModels.DefaultStatusApplied | client/models/flightModels.js:27 | a document validated without a status yields a record with status Maintenance |
| FlightModels.ZeroCoordinateValid | client/models/flightModels.js:3-12 | the schema accepts lat = 0 and lng = 0 |
| FlightModels.EmptyStatusRejected | client/models/flightModels.js:24-28 | an empty status is not defaulted and fails the enum validator |
| Store.CreateOutcome | client/models/flightModels.js:14-35 | create succeeds exactly when the defaulted document is valid, the database is reachable and the tail number is not stored; validation errors come first; a valid document with an unreachable database fails with Unavailable; a duplicate key is reported exactly when a valid document's tail number is already stored; a created record equals the defaulted input |
| Store.CreateAddsExactlyOne | client/models/flightModels.js:14-35 | a successful create adds exactly one key, the new tail number, holding the validated defaulted input, and leaves every other record unchanged; a failed create changes nothing |
| Store.CreateKeepsWellKeyed | client/models/flightModels.js:18 | create preserves the collection invariant: each record is keyed by its own tail number and passes the schema |
| Store.DuplicateRejected | client/models/flightModels.js:18 | creating with a stored tail number fails and leaves the collection, and so the existing record, unchanged |
| Store.InvalidRejected | client/models/flightModels.js:15-32 | a document with any failing path (missing tail number, model, location, lat or lng, or a status outside the enum) is refused with a validation error naming that path, and nothing is stored |
| Store.StoredRecordsValid | client/models/flightModels.js:24-26 | every stored record passes the schema, so its status is one of the three enum values |
| Store.ReplayKeepsRecords | client/models/flightModels.js:18 | after any sequence of creates no two records share a tail number, and no earlier record is changed or removed |
| Store.AircraftStore.constructor | client/models/flightModels.js:35 | a new collection is empty and satisfies the invariant |
| Store.AircraftStore.Create | client/app/api/main/route.ts:23-28 | returns the create outcome and updates the records accordingly, keeping the invariant |
| Store.AircraftStore.List | client/app/api/main/route.ts:40 | an unreachable database gives Unavailable; otherwise the list holds every stored record exactly once, with distinct tail numbers |
| MainRoute.CreateInput | client/app/api/main/route.ts:23-28 | the document passed to create keeps the request's tailNumber, model and location; a truthy status passes through unchanged, and a falsy one becomes "maintenance" |
| MainRoute.PostResponse | client/app/api/main/route.ts:8-36 | the code is 201, 400 or 500; 400 with "Missing required fields." exactly when the pre-check fails; a malformed body gives 500; a 201 carries the created record, whose tailNumber, model and location are the request's and whose status is the defaulted one |
| MainRoute.Post | client/app/api/main/route.ts:8-36 | the response is PostResponse of the records before the call; the collection gains the created record on 201 and is unchanged on 400 or 500, so nothing is stored before the pre-check passes |
| MainRoute.Get | client/app/api/main/route.ts:38-47 | 200 with every stored record exactly once, or 500 with the store's error when the call fails; the collection is not modified |
| MainRoute.PostCreatedIff | client/app/api/main/route.ts:15-30 | POST answers 201 exactly when the pre-check passes, the database is reachable, the tail number is new and a truthy status is in the enum |
| MainRoute.ZeroCoordinateRejected | client/app/api/main/route.ts:15-19 | a latitude or longitude of 0 is answered with 400 "Missing required fields." |
| MainRoute.CreateFailureIs500 | client/app/api/main/route.ts:31-35 | after the pre-check passes, every create failure is answered with 500 carrying that failure, never 400 |
| MainRoute.BadStatusIs500 | client/app/api/main/route.ts:26 | a truthy status outside the enum passes the pre-check and is answered with 500 for a validation error on status |
| MainRoute.DuplicateIs500 | client/app/api/main/route.ts:31-35 | a stored tail number in an otherwise valid request is answered with 500 for a duplicate key |
| MainRoute.UnreachableIs500 | client/app/api/main/route.ts:23-34 | an unreachable database during a request that passes the pre-check and has an acceptable status is answered with 500 carrying Unavailable |
| MainRoute.PostDefaultsStatus | client/app/api/main/route.ts:26 | an aircraft created from a request with a falsy status is stored as Maintenance |
| MainRoute.PostExample | client/app/api/main/route.ts:23-30 | an illustration, not a general property: creating N12345, a 737 at (10, 20) with no status, in an empty collection answers 201 with status Maintenance |

## Left out

- Update, delete and read-one (`client/app/api/aircraft/[tailNumber]/route.ts`) are not part of this model. They are separate endpoints around the same collection.
- Store.StoredRecordsValid: the collection invariant `WellKeyed`, and with it "every stored status is in the enum", covers only records written by `create`, the one writer in this model. The update handler (`client/app/api/aircraft/[tailNumber]/route.ts:36-40`) calls `findOneAndUpdate` with `$set` and without `runValidators`, so Mongoose runs no schema validators there. It can store a status outside the enum or a `location` lacking `lat` or `lng`, and `GET` then returns such records. The typed `Aircraft` record cannot represent them, and `Get` and `List` assume the invariant (`requires store.Valid()`), so the model does not cover a collection that update has written to.
- The user interface, map rendering and the database connection (`client/app/main/page.tsx`, `client/components/MapComponent.tsx`, `client/dbConfig/dbConfig.ts`) are not part of this model. They are I/O and rendering.
- A failing database call is a boolean parameter, `unreachable`. Connection setup, buffering and timeouts are not modelled.
- Fields the database generates (`_id`, `__v`) are not in the record. Neither is the effect of `.lean()`.
- Error messages are tags. The 400 message "Missing required fields." is the tag `MissingFields`. A 500 carries the store's or the parser's error. Mongoose's message texts and the fallback "An unknown error occurred" for a non-`Error` exception are not modelled.
- JSON parsing is reduced to one tag, `Malformed`. It covers a body that does not parse, and a body that cannot be destructured.
- JSON `null` is modelled as absent. The route's truthiness tests treat the two alike.
- Coordinates are integers. Floating point and `NaN` are not modelled, since only the zero and absent tests matter.
- Values of another JSON type than the schema declares (for instance a numeric `tailNumber`) are not modelled. Mongoose's casting of them is not modelled either.
- Concurrent requests are not modelled. Each call runs to completion on its own. Races between concurrent creates are settled by the database's unique index.
