/**
 * The aircraft collection behind the `Aircraft` model: `create` (validate,
 * then insert under the unique `tailNumber` index) and `find({})`.
 * The database being unreachable is a parameter of each call.
 */
module Store {
  import opened Wrappers
  import opened FlightModels

  /** Why a store call failed. */
  datatype StoreError =
    | ValidationError(fields: set<Field>)  // the schema paths whose validators failed
    | DuplicateKey                         // the unique index on `tailNumber` refused the insert
    | Unavailable                          // the database call itself failed

  /** The collection invariant: each record is filed under its own tail number and conforms. */
  predicate WellKeyed(records: map<string, Aircraft>)
  {
    forall k :: k in records ==> records[k].tailNumber == k && Conforms(records[k])
  }

  /** What `create` returns for a document, given the records already stored. */
  function CreateOutcome(records: map<string, Aircraft>, doc: AircraftDoc, unreachable: bool)
    : (r: Result<Aircraft, StoreError>)
    ensures r.Success? <==>
      Valid(ApplyDefaults(doc)) && !unreachable && doc.tailNumber.value !in records
    ensures r.Success? ==> ToDoc(r.value) == ApplyDefaults(doc) && Conforms(r.value)
    // validation comes first, whatever the database would answer
    ensures !Valid(ApplyDefaults(doc)) ==>
      r == Failure(ValidationError(Violations(ApplyDefaults(doc))))
    // a valid document meets an unreachable database before the unique index
    ensures Valid(ApplyDefaults(doc)) && unreachable ==> r == Failure(Unavailable)
    ensures r == Failure(DuplicateKey) <==>
      Valid(ApplyDefaults(doc)) && !unreachable && doc.tailNumber.value in records
  {
    match Validate(doc)
    case Failure(fields) => Failure(ValidationError(fields))
    case Success(a) =>
      if unreachable then Failure(Unavailable)
      else if a.tailNumber in records then Failure(DuplicateKey)
      else Success(a)
  }

  /** The records after `create`: the new record added on success, nothing changed otherwise. */
  function AfterCreate(records: map<string, Aircraft>, doc: AircraftDoc, unreachable: bool)
    : map<string, Aircraft>
  {
    match CreateOutcome(records, doc, unreachable)
    case Success(a) => records[a.tailNumber := a]
    case Failure(_) => records
  }

  /**
   * A successful create adds exactly the validated, defaulted document under its
   * tail number; every record already there is unchanged, and a failed create
   * changes nothing.
   */
  lemma CreateAddsExactlyOne(records: map<string, Aircraft>, doc: AircraftDoc, unreachable: bool)
    ensures var after := AfterCreate(records, doc, unreachable);
      match CreateOutcome(records, doc, unreachable)
      case Success(a) =>
        a.tailNumber !in records && after.Keys == records.Keys + {a.tailNumber} &&
        |after| == |records| + 1 && after[a.tailNumber] == a &&
        ToDoc(after[a.tailNumber]) == ApplyDefaults(doc) &&
        forall k :: k in records ==> after[k] == records[k]
      case Failure(_) => after == records
  {
  }

  /** A create never breaks the collection invariant. */
  lemma CreateKeepsWellKeyed(records: map<string, Aircraft>, doc: AircraftDoc, unreachable: bool)
    requires WellKeyed(records)
    ensures WellKeyed(AfterCreate(records, doc, unreachable))
  {
  }

  /** Creating with a tail number already stored fails and leaves the stored record as it was. */
  lemma DuplicateRejected(records: map<string, Aircraft>, doc: AircraftDoc, unreachable: bool)
    requires doc.tailNumber.Some? && doc.tailNumber.value in records
    ensures CreateOutcome(records, doc, unreachable).Failure?
    ensures AfterCreate(records, doc, unreachable) == records
  {
  }

  /**
   * A document lacking a required field (`tailNumber`, `model`, `location`,
   * `location.lat` or `location.lng`), or with a status outside the enum, is
   * refused with a validation error naming that path, and nothing is stored.
   */
  lemma InvalidRejected(records: map<string, Aircraft>, doc: AircraftDoc, unreachable: bool, f: Field)
    requires f in Violations(ApplyDefaults(doc))
    ensures CreateOutcome(records, doc, unreachable).Failure?
    ensures CreateOutcome(records, doc, unreachable).error.ValidationError?
    ensures f in CreateOutcome(records, doc, unreachable).error.fields
    ensures AfterCreate(records, doc, unreachable) == records
  {
  }

  /** Every record of a well-keyed collection passes the schema, its status included. */
  lemma StoredRecordsValid(records: map<string, Aircraft>, k: string)
    requires WellKeyed(records) && k in records
    ensures Valid(ToDoc(records[k]))
    ensures ToDoc(records[k]).status.value in StatusNames
  {
  }

  /** The records after a sequence of creates, each with its own reachability. */
  function Replay(records: map<string, Aircraft>, creates: seq<(AircraftDoc, bool)>)
    : map<string, Aircraft>
    decreases |creates|
  {
    if creates == [] then records
    else Replay(AfterCreate(records, creates[0].0, creates[0].1), creates[1..])
  }

  /**
   * After any sequence of creates the invariant still holds, so no two records
   * share a tail number, and no record stored before is changed or removed.
   */
  lemma {:induction false} ReplayKeepsRecords(records: map<string, Aircraft>, creates: seq<(AircraftDoc, bool)>)
    requires WellKeyed(records)
    ensures WellKeyed(Replay(records, creates))
    ensures forall k :: k in records ==> k in Replay(records, creates) && Replay(records, creates)[k] == records[k]
    decreases |creates|
  {
    if creates != [] {
      var next := AfterCreate(records, creates[0].0, creates[0].1);
      CreateKeepsWellKeyed(records, creates[0].0, creates[0].1);
      CreateAddsExactlyOne(records, creates[0].0, creates[0].1);
      ReplayKeepsRecords(next, creates[1..]);
    }
  }

  /** `list` holds every stored record exactly once, in some order. */
  predicate Enumerates(list: seq<Aircraft>, records: map<string, Aircraft>)
  {
    |list| == |records| &&
    (forall i :: 0 <= i < |list| ==> list[i].tailNumber in records && records[list[i].tailNumber] == list[i]) &&
    (forall k :: k in records ==> records[k] in list) &&
    (forall i, j :: 0 <= i < j < |list| ==> list[i].tailNumber != list[j].tailNumber)
  }

  /** The `Aircraft` collection: records keyed by tail number. */
  class AircraftStore {
    var records: map<string, Aircraft>

    ghost predicate Valid()
      reads this
    {
      WellKeyed(records)
    }

    constructor ()
      ensures Valid() && records == map[]
    {
      records := map[];
    }

    /** `Aircraft.create(doc)`: validate with defaults, then insert unless the tail number is taken. */
    method Create(doc: AircraftDoc, unreachable: bool) returns (r: Result<Aircraft, StoreError>)
      requires Valid()
      modifies this
      ensures Valid()
      ensures r == CreateOutcome(old(records), doc, unreachable)
      ensures records == AfterCreate(old(records), doc, unreachable)
    {
      r := CreateOutcome(records, doc, unreachable);
      if r.Success? {
        records := records[r.value.tailNumber := r.value];
      }
    }

    /** `Aircraft.find({})`: every stored record, each once, in an unspecified order. */
    method List(unreachable: bool) returns (r: Result<seq<Aircraft>, StoreError>)
      requires Valid()
      ensures unreachable ==> r == Failure(Unavailable)
      ensures !unreachable ==> r.Success? && Enumerates(r.value, records)
    {
      if unreachable {
        return Failure(Unavailable);
      }
      var pending := records.Keys;
      var found: seq<Aircraft> := [];
      while pending != {}
        invariant pending <= records.Keys
        invariant |found| + |pending| == |records|
        invariant forall i :: 0 <= i < |found| ==>
          found[i].tailNumber in records.Keys - pending && records[found[i].tailNumber] == found[i]
        invariant forall k :: k in records.Keys - pending ==> records[k] in found
        invariant forall i, j :: 0 <= i < j < |found| ==> found[i].tailNumber != found[j].tailNumber
        decreases pending
      {
        var k :| k in pending;
        found := found + [records[k]];
        pending := pending - {k};
      }
      return Success(found);
    }
  }
}
