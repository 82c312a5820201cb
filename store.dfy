/**
 * The persistent state the route handlers read and write: the pickup and user collections
 * as maps from document key to document, and the notification collection as the sequence of
 * notifications in the order they were written.
 */
module Store {
  import opened Wrappers
  import opened Pickups

  /** A user document: profile fields and the eco-point ledger. */
  datatype User = User(
    name: string,
    email: string,
    password: string,
    phone: string,
    location: string,
    avatar: string,
    role: string,
    ecoPoints: int,
    totalRecycled: real,
    carbonOffset: real,
    level: int)

  /** `Math.floor(points / 1000) + 1` (Dafny's `/` floors for a positive divisor). */
  function LevelFor(points: int): (level: int)
    ensures (level - 1) * 1000 <= points < level * 1000
    ensures points >= 0 ==> level >= 1
  {
    points / 1000 + 1
  }

  /** The ledger invariant: the stored level is the one the points give. */
  predicate LevelConsistent(u: User) {
    u.level == LevelFor(u.ecoPoints)
  }

  predicate AllLevelsConsistent(users: map<ObjectId, User>) {
    forall k :: k in users ==> LevelConsistent(users[k])
  }

  datatype NotificationType =
    PickupAccepted | PickupRejected | PickupCompleted | PickupScheduled | System | Admin

  datatype Notification = Notification(
    recipient: ObjectId,
    title: string,
    message: string,
    kind: NotificationType,
    read: bool,
    link: string,
    relatedPickup: Option<ObjectId>,
    createdAt: int)

  datatype Db = Db(
    pickups: map<ObjectId, Pickup>,
    users: map<ObjectId, User>,
    notifications: seq<Notification>)

  /** The time a request is served at, and the calendar year of that time. */
  datatype Clock = Clock(now: int, year: nat)

  datatype Error =
    | NotFound            // 404
    | NotAuthorized       // 401 "Not authorized"
    | ValidationFailed    // the schema refuses the document on save (500)
    | DuplicateKey        // a unique index refuses the document on save (500)
    | ServerError         // any other failure inside the handler (500)
    | CannotDeleteSelf    // 400 "Cannot delete your own account"
    | BadRequest(message: string)
    | Unauthorized(message: string)

  /** The state after a request and what the request answers. */
  datatype Outcome<T> = Outcome(db: Db, reply: Result<T, Error>)

  /** A pickup other than `id` already holds `code`. */
  predicate CodeTaken(pickups: map<ObjectId, Pickup>, id: ObjectId, code: string) {
    exists k :: k in pickups && k != id && pickups[k].pickupId == code
  }

  /**
   * What every stored pickup satisfies: the schema's validators, a code assigned by the
   * pre-save hook, and no two pickups sharing a code (the unique index).
   */
  predicate PickupsValid(pickups: map<ObjectId, Pickup>) {
    (forall k :: k in pickups ==> SchemaValid(pickups[k]) && pickups[k].pickupId != "") &&
    (forall a, b :: a in pickups && b in pickups && a != b ==> pickups[a].pickupId != pickups[b].pickupId)
  }

  /**
   * `pickup.save()` for the document with key `id`: the validators, then the pre-save hook
   * (counting the documents stored at that moment), then the unique index on the code.
   */
  function SavePickup(db: Db, id: ObjectId, p: Pickup, year: nat): (r: Result<Db, Error>)
    ensures r.Success? <==> SchemaValid(p) && !CodeTaken(db.pickups, id, PreSave(p, year, |db.pickups|).pickupId)
    ensures r.Failure? ==> r.error == (if SchemaValid(p) then DuplicateKey else ValidationFailed)
    ensures r.Success? ==> r.value == db.(pickups := db.pickups[id := PreSave(p, year, |db.pickups|)])
  {
    if !SchemaValid(p) then Failure(ValidationFailed)
    else
      var q := PreSave(p, year, |db.pickups|);
      if CodeTaken(db.pickups, id, q.pickupId) then Failure(DuplicateKey)
      else Success(db.(pickups := db.pickups[id := q]))
  }

  /**
   * A document being edited in memory. Assigning a value the schema cannot cast (NaN to a
   * Number path, an Invalid Date to a Date path) leaves the path's previous value in place
   * and records a cast error, which `castError` tracks.
   */
  datatype Draft = Draft(doc: Pickup, castError: bool)

  /**
   * `save()` on an edited document: validation runs before the pre-save hook, so a recorded
   * cast error refuses the save with nothing written; otherwise it is `SavePickup`.
   */
  function SaveDraft(db: Db, id: ObjectId, d: Draft, year: nat): (r: Result<Db, Error>)
    ensures d.castError ==> r == Failure(ValidationFailed)
    ensures !d.castError ==> r == SavePickup(db, id, d.doc, year)
  {
    if d.castError then Failure(ValidationFailed) else SavePickup(db, id, d.doc, year)
  }

  /** A successful save keeps the store invariant. */
  lemma SaveKeepsValid(db: Db, id: ObjectId, p: Pickup, year: nat)
    requires PickupsValid(db.pickups)
    requires SavePickup(db, id, p, year).Success?
    ensures PickupsValid(SavePickup(db, id, p, year).value.pickups)
  {
    var q := PreSave(p, year, |db.pickups|);
    var m := db.pickups[id := q];
    forall a, b | a in m && b in m && a != b
      ensures m[a].pickupId != m[b].pickupId
    {
      if a == id {
        assert !(b in db.pickups && b != id && db.pickups[b].pickupId == q.pickupId);
      } else if b == id {
        assert !(a in db.pickups && a != id && db.pickups[a].pickupId == q.pickupId);
      }
    }
  }

  /**
   * Re-saving a stored pickup whose code is unchanged and which still satisfies the
   * validators always succeeds and writes exactly that document.
   */
  lemma ResaveStored(db: Db, id: ObjectId, p: Pickup, year: nat)
    requires PickupsValid(db.pickups) && id in db.pickups
    requires SchemaValid(p) && p.pickupId == db.pickups[id].pickupId
    ensures SavePickup(db, id, p, year) == Success(db.(pickups := db.pickups[id := p]))
  {
    assert PreSave(p, year, |db.pickups|) == p;
  }
}
