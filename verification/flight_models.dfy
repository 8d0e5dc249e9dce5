/**
 * The Mongoose schemas of client/models/flightModels.js: the shape of an
 * aircraft document, the `required` and `enum` validators, and the default
 * that is filled in for a missing `status`.
 */
module FlightModels {
  import opened Wrappers

  /** The values the `status` enum admits. */
  datatype Status = Available | Aog | Maintenance

  const StatusNames: set<string> := {"available", "aog", "maintenance"}

  /** The value the schema fills in when `status` is not supplied. */
  const DefaultStatus: Status := Maintenance

  /** The string under which a status is stored. */
  function StatusName(s: Status): (t: string)
    ensures t in StatusNames
  {
    match s
    case Available => "available"
    case Aog => "aog"
    case Maintenance => "maintenance"
  }

  /** The `enum` validator: a string names a status exactly when it is one of the three. */
  function ParseStatus(t: string): (r: Option<Status>)
    ensures r.Some? <==> t in StatusNames
    ensures r.Some? ==> StatusName(r.value) == t
  {
    if t == "available" then Some(Available)
    else if t == "aog" then Some(Aog)
    else if t == "maintenance" then Some(Maintenance)
    else None
  }

  /** Parsing a status's stored name gives that status back. */
  lemma StatusRoundTrip(s: Status)
    ensures ParseStatus(StatusName(s)) == Some(s)
  {
  }

  /** A `location` sub-document as supplied: either coordinate may be missing. */
  datatype LocationDoc = LocationDoc(lat: Option<int>, lng: Option<int>)

  /** An aircraft document as handed to `create`: any field may be missing. */
  datatype AircraftDoc = AircraftDoc(
    tailNumber: Option<string>,
    model: Option<string>,
    status: Option<string>,
    location: Option<LocationDoc>)

  /** A location that passed validation. */
  datatype Location = Location(lat: int, lng: int)

  /** An aircraft record that passed validation, as the collection holds it. */
  datatype Aircraft = Aircraft(tailNumber: string, model: string, status: Status, location: Location)

  /** The schema paths a validation error can name. */
  datatype Field = TailNumberField | ModelField | StatusField | LocationField | LatField | LngField

  /** Mongoose's `required` check on a String path: present and not the empty string. */
  predicate HasString(s: Option<string>)
  {
    s.Some? && s.value != ""
  }

  /** Fill in the schema default: an absent `status` becomes "maintenance". */
  function ApplyDefaults(d: AircraftDoc): (r: AircraftDoc)
    ensures r.status.Some?
    ensures d.status.None? ==> r.status == Some(StatusName(DefaultStatus))
    ensures d.status.Some? ==> r == d
    ensures r.(status := d.status) == d
  {
    if d.status.None? then d.(status := Some(StatusName(DefaultStatus))) else d
  }

  /**
   * The paths whose validators fail on a (defaulted) document. When a present
   * `location` fails on one of its own paths, the error is also recorded under
   * `location` itself, as Mongoose does for a single nested sub-document.
   */
  function Violations(d: AircraftDoc): (v: set<Field>)
    ensures v == {} <==>
      HasString(d.tailNumber) && HasString(d.model) &&
      (d.status.None? || d.status.value in StatusNames) &&
      d.location.Some? && d.location.value.lat.Some? && d.location.value.lng.Some?
    ensures TailNumberField in v <==> !HasString(d.tailNumber)
    ensures ModelField in v <==> !HasString(d.model)
    ensures StatusField in v <==> d.status.Some? && d.status.value !in StatusNames
    ensures LocationField in v <==>
      d.location.None? || d.location.value.lat.None? || d.location.value.lng.None?
    // the sub-document's own paths are validated only when it is present
    ensures LatField in v <==> d.location.Some? && d.location.value.lat.None?
    ensures LngField in v <==> d.location.Some? && d.location.value.lng.None?
  {
    (if HasString(d.tailNumber) then {} else {TailNumberField}) +
    (if HasString(d.model) then {} else {ModelField}) +
    (if d.status.None? || d.status.value in StatusNames then {} else {StatusField}) +
    (match d.location
     case None => {LocationField}
     case Some(loc) =>
       (if loc.lat.Some? then {} else {LatField}) +
       (if loc.lng.Some? then {} else {LngField}) +
       (if loc.lat.Some? && loc.lng.Some? then {} else {LocationField}))
  }

  /** A document every validator accepts. */
  predicate Valid(d: AircraftDoc)
  {
    Violations(d) == {}
  }

  /** What a stored record must satisfy beyond its types: the required strings are non-empty. */
  predicate Conforms(a: Aircraft)
  {
    a.tailNumber != "" && a.model != ""
  }

  /** The document form of a record. */
  function ToDoc(a: Aircraft): (d: AircraftDoc)
    ensures Valid(d) <==> Conforms(a)
  {
    AircraftDoc(Some(a.tailNumber), Some(a.model), Some(StatusName(a.status)),
                Some(LocationDoc(Some(a.location.lat), Some(a.location.lng))))
  }

  /**
   * Default-filling followed by validation, as `Model.create` runs them
   * before it writes anything: either the record to store, or every path
   * whose validator failed.
   */
  function Validate(d: AircraftDoc): (r: Result<Aircraft, set<Field>>)
    ensures r.Success? <==> Valid(ApplyDefaults(d))
    ensures r.Success? ==> ToDoc(r.value) == ApplyDefaults(d) && Conforms(r.value)
    ensures r.Failure? ==> r.error == Violations(ApplyDefaults(d)) && r.error != {}
  {
    var e := ApplyDefaults(d);
    if Violations(e) == {} then
      Success(Aircraft(e.tailNumber.value, e.model.value, ParseStatus(e.status.value).value,
                       Location(e.location.value.lat.value, e.location.value.lng.value)))
    else
      Failure(Violations(e))
  }

  /** Validation accepts the document form of a conforming record and gives that record back. */
  lemma ValidateToDoc(a: Aircraft)
    requires Conforms(a)
    ensures Validate(ToDoc(a)) == Success(a)
  {
  }

  /** A document validated without a `status` is stored with status "maintenance". */
  lemma DefaultStatusApplied(d: AircraftDoc)
    requires d.status.None? && Validate(d).Success?
    ensures Validate(d).value.status == Maintenance
  {
  }

  /** A zero coordinate satisfies the `required` validator of a Number path. */
  lemma ZeroCoordinateValid(d: AircraftDoc)
    requires HasString(d.tailNumber) && HasString(d.model) && d.status.None?
    requires d.location == Some(LocationDoc(Some(0), Some(0)))
    ensures Validate(d).Success? && Validate(d).value.location == Location(0, 0)
  {
  }

  /** An empty `status` is not replaced by the default, so the `enum` validator rejects it. */
  lemma EmptyStatusRejected(d: AircraftDoc)
    requires d.status == Some("")
    ensures Validate(d).Failure? && StatusField in Validate(d).error
  {
  }
}
