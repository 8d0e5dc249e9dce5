/**
 * The request handlers of client/app/api/main/route.ts: `POST` creates one
 * aircraft, `GET` lists them all. Every failure is caught and turned into a
 * response; nothing escapes the handler.
 */
module MainRoute {
  import opened Wrappers
  import opened FlightModels
  import opened Store

  /** A request body: JSON that parsed into an aircraft document, or a body that did not parse. */
  datatype Request = Malformed | Json(body: AircraftDoc)

  /** What the `error` field of a failure response stands for. */
  datatype ApiError =
    | MissingFields               // the text "Missing required fields."
    | BadBody                     // the message of the exception `request.json()` threw
    | StoreFailure(cause: StoreError)  // the message of the exception the store call threw

  datatype Payload = Record(aircraft: Aircraft) | Records(list: seq<Aircraft>) | Error(error: ApiError)

  /** An HTTP status code with its JSON payload. */
  datatype Response = Response(code: int, payload: Payload)

  /**
   * JavaScript truthiness of a string-or-undefined: `undefined` and "" are falsy.
   * It is the same test as the schema's `HasString`, its `required` check on a String.
   */
  predicate Truthy(s: Option<string>)
  {
    s.Some? && s.value != ""
  }

  /** JavaScript truthiness of a number-or-undefined: `undefined` and 0 are falsy. */
  predicate TruthyNumber(n: Option<int>)
  {
    n.Some? && n.value != 0
  }

  /** The handler's pre-check: some required field is falsy, reading a missing `location` as falsy coordinates. */
  predicate MissingRequired(body: AircraftDoc)
  {
    !Truthy(body.tailNumber) || !Truthy(body.model) ||
    !(body.location.Some? && TruthyNumber(body.location.value.lat)) ||
    !(body.location.Some? && TruthyNumber(body.location.value.lng))
  }

  /** The document the handler passes to `create`: the body's fields with a falsy `status` replaced. */
  function CreateInput(body: AircraftDoc): (d: AircraftDoc)
    ensures d.tailNumber == body.tailNumber && d.model == body.model && d.location == body.location
    ensures Truthy(d.status)
    ensures Truthy(body.status) ==> d.status == body.status
    ensures !Truthy(body.status) ==> d.status == Some(StatusName(DefaultStatus))
  {
    body.(status := if Truthy(body.status) then body.status else Some("maintenance"))
  }

  /** The response `POST` gives, given the records stored when it runs. */
  function PostResponse(records: map<string, Aircraft>, req: Request, unreachable: bool): (resp: Response)
    ensures resp.code == 201 || resp.code == 400 || resp.code == 500
    ensures resp.code != 201 ==> resp.payload.Error?
    ensures resp.code == 400 <==> req.Json? && MissingRequired(req.body)
    ensures resp.code == 400 ==> resp.payload == Error(MissingFields)
    ensures req.Malformed? ==> resp == Response(500, Error(BadBody))
    ensures resp.code == 201 ==>
      resp.payload.Record? &&
      Some(resp.payload.aircraft.tailNumber) == req.body.tailNumber &&
      Some(resp.payload.aircraft.model) == req.body.model &&
      Some(StatusName(resp.payload.aircraft.status)) == CreateInput(req.body).status &&
      req.body.location == Some(LocationDoc(Some(resp.payload.aircraft.location.lat),
                                            Some(resp.payload.aircraft.location.lng)))
  {
    match req
    case Malformed => Response(500, Error(BadBody))
    case Json(body) =>
      if MissingRequired(body) then Response(400, Error(MissingFields))
      else
        match CreateOutcome(records, CreateInput(body), unreachable)
        case Success(a) => Response(201, Record(a))
        case Failure(e) => Response(500, Error(StoreFailure(e)))
  }

  /** `POST`: pre-check the body, default its status, create, and map the outcome to a response. */
  method Post(store: AircraftStore, req: Request, unreachable: bool) returns (resp: Response)
    requires store.Valid()
    modifies store
    ensures store.Valid()
    ensures resp == PostResponse(old(store.records), req, unreachable)
    ensures store.records ==
      if resp.code == 201 then old(store.records)[resp.payload.aircraft.tailNumber := resp.payload.aircraft]
      else old(store.records)
  {
    match req
    case Malformed =>
      return Response(500, Error(BadBody));
    case Json(body) =>
      if MissingRequired(body) {
        return Response(400, Error(MissingFields));
      }
      var r := store.Create(CreateInput(body), unreachable);
      match r
      case Success(a) => resp := Response(201, Record(a));
      case Failure(e) => resp := Response(500, Error(StoreFailure(e)));
  }

  /** `GET`: every stored record with 200, or 500 when the store call fails. */
  method Get(store: AircraftStore, unreachable: bool) returns (resp: Response)
    requires store.Valid()
    ensures unreachable ==> resp == Response(500, Error(StoreFailure(Unavailable)))
    ensures !unreachable ==> resp.code == 200 && resp.payload.Records? && Enumerates(resp.payload.list, store.records)
  {
    var r := store.List(unreachable);
    match r
    case Success(list) => resp := Response(200, Records(list));
    case Failure(e) => resp := Response(500, Error(StoreFailure(e)));
  }

  /**
   * `POST` answers 201 exactly when the pre-check passes, a truthy status is in the
   * enum, the database is reachable and the tail number is not yet stored.
   */
  lemma PostCreatedIff(records: map<string, Aircraft>, body: AircraftDoc, unreachable: bool)
    ensures PostResponse(records, Json(body), unreachable).code == 201 <==>
      !MissingRequired(body) && !unreachable && body.tailNumber.value !in records &&
      (!Truthy(body.status) || body.status.value in StatusNames)
  {
  }

  /** A zero latitude or longitude counts as missing: 400, although the schema would accept it. */
  lemma ZeroCoordinateRejected(records: map<string, Aircraft>, body: AircraftDoc, unreachable: bool)
    requires body.location.Some? && (body.location.value.lat == Some(0) || body.location.value.lng == Some(0))
    ensures PostResponse(records, Json(body), unreachable) == Response(400, Error(MissingFields))
  {
  }

  /** Once the pre-check passes, every failure is a 500 carrying the store's error, never a 400. */
  lemma CreateFailureIs500(records: map<string, Aircraft>, body: AircraftDoc, unreachable: bool)
    requires !MissingRequired(body)
    requires CreateOutcome(records, CreateInput(body), unreachable).Failure?
    ensures PostResponse(records, Json(body), unreachable) ==
      Response(500, Error(StoreFailure(CreateOutcome(records, CreateInput(body), unreachable).error)))
  {
  }

  /** A truthy status outside the enum passes the pre-check and fails in `create` with 500. */
  lemma BadStatusIs500(records: map<string, Aircraft>, body: AircraftDoc, unreachable: bool)
    requires !MissingRequired(body)
    requires Truthy(body.status) && body.status.value !in StatusNames
    ensures PostResponse(records, Json(body), unreachable) ==
      Response(500, Error(StoreFailure(ValidationError({StatusField}))))
  {
    var d := ApplyDefaults(CreateInput(body));
    assert Violations(d) == {StatusField};
  }

  /** A tail number already stored gives 500 with a duplicate-key error when nothing else is wrong. */
  lemma DuplicateIs500(records: map<string, Aircraft>, body: AircraftDoc)
    requires !MissingRequired(body)
    requires !Truthy(body.status) || body.status.value in StatusNames
    requires body.tailNumber.value in records
    ensures PostResponse(records, Json(body), false) == Response(500, Error(StoreFailure(DuplicateKey)))
  {
  }

  /** An unreachable database during an otherwise acceptable request gives 500 with `Unavailable`. */
  lemma UnreachableIs500(records: map<string, Aircraft>, body: AircraftDoc)
    requires !MissingRequired(body)
    requires !Truthy(body.status) || body.status.value in StatusNames
    ensures PostResponse(records, Json(body), true) == Response(500, Error(StoreFailure(Unavailable)))
  {
  }

  /** A created aircraft whose request had no usable status is stored as "maintenance". */
  lemma PostDefaultsStatus(records: map<string, Aircraft>, body: AircraftDoc, unreachable: bool)
    requires !Truthy(body.status)
    requires PostResponse(records, Json(body), unreachable).code == 201
    ensures PostResponse(records, Json(body), unreachable).payload.aircraft.status == Maintenance
  {
  }

  /** The example of a first create: a new "737" with no status is stored as "maintenance". */
  lemma PostExample()
    ensures var body := AircraftDoc(Some("N12345"), Some("737"), None, Some(LocationDoc(Some(10), Some(20))));
      PostResponse(map[], Json(body), false) ==
        Response(201, Record(Aircraft("N12345", "737", Maintenance, Location(10, 20))))
  {
  }
}
