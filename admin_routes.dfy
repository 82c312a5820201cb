/**
 * The administrator's handlers: the pickup update that completes a pickup, credits its owner
 * and notifies them, the user patch and delete, and the list pagination arithmetic.
 */
module AdminRoutes {
  import opened Wrappers
  import opened Numbers
  import opened Text
  import opened Pickups
  import opened Store

  // ---------------------------------------------------------------------------------------
  // PUT /pickups/:id
  // ---------------------------------------------------------------------------------------

  /** The request body: `status` ("" when absent or falsy) and `adminNotes` when present. */
  datatype PickupUpdate = PickupUpdate(status: string, adminNotes: Option<string>)

  /** A requested status the schema accepts on save: none at all, or an enumeration value. */
  predicate StatusAccepted(t: string) {
    t == "" || ParseStatus(t).Some?
  }

  /** The award condition: completion is requested and the pickup was not already completed. */
  predicate Completes(req: PickupUpdate, previous: Status) {
    req.status == "completed" && previous != Completed
  }

  /** A truthy status overwrites the stored one; `adminNotes` overwrites whenever present. */
  function PatchStatusAndNotes(p: Pickup, req: PickupUpdate): (r: Pickup)
    ensures r == p.(status := r.status, adminNotes := r.adminNotes)
    ensures r.status == ParseStatus(req.status).GetOr(p.status)
    ensures r.adminNotes == req.adminNotes.GetOr(p.adminNotes)
  {
    var p1 := match ParseStatus(req.status) case Some(s) => p.(status := s) case None => p;
    match req.adminNotes case Some(n) => p1.(adminNotes := n) case None => p1
  }

  /** The award written onto the pickup: the estimated weight becomes the collected one. */
  function AdminAward(p: Pickup, now: int): (r: Pickup)
    ensures r.actualWeight == p.estimatedWeight && r.completedAt == Some(now)
    ensures r.ecoPointsEarned == Points(r.wasteType, r.actualWeight)
    ensures r == p.(ecoPointsEarned := r.ecoPointsEarned, actualWeight := r.actualWeight, completedAt := r.completedAt)
  {
    p.(ecoPointsEarned := Points(p.wasteType, p.estimatedWeight),
       actualWeight := p.estimatedWeight,
       completedAt := Some(now))
  }

  /** The owner's ledger after an administrator completion: 2.5 kg of CO2 per kg, unrounded. */
  function AdminCredit(u: User, points: int, weight: real): (r: User)
    ensures r.ecoPoints == u.ecoPoints + points
    ensures r.totalRecycled == u.totalRecycled + weight
    ensures r.carbonOffset == u.carbonOffset + weight * 2.5
    ensures LevelConsistent(r)
    ensures r == u.(ecoPoints := r.ecoPoints, totalRecycled := r.totalRecycled,
                    carbonOffset := r.carbonOffset, level := r.level)
  {
    var points' := u.ecoPoints + points;
    u.(ecoPoints := points', totalRecycled := u.totalRecycled + weight,
       carbonOffset := u.carbonOffset + weight * 2.5, level := LevelFor(points'))
  }

  /** The credit goes to the owner when the owner still exists, and nowhere otherwise. */
  function CreditOwner(users: map<ObjectId, User>, owner: ObjectId, points: int, weight: real): (r: map<ObjectId, User>)
    ensures r.Keys == users.Keys
    ensures forall k :: k in users && k != owner ==> r[k] == users[k]
    ensures owner in users ==> r[owner] == AdminCredit(users[owner], points, weight)
  {
    if owner in users then users[owner := AdminCredit(users[owner], points, weight)] else users
  }

  /** The title, message and type of a status-change notification. */
  datatype Template = Template(title: string, message: string, kind: NotificationType)

  /** `adminNotes ? … : …`: the note is shown when it is a non-empty string. */
  predicate Truthy(n: Option<string>) {
    n.Some? && n.value != ""
  }

  /** The end of the acceptance message when no note follows it. */
  const ScheduledText := "scheduled for collection."

  function AcceptedMessage(typeLabel: string, code: string, adminNotes: Option<string>): string {
    "Your " + typeLabel + " pickup (" + code + ") has been accepted and is " + ScheduledText +
    (if Truthy(adminNotes) then " Note: " + adminNotes.value else "")
  }

  function CompletedMessage(typeLabel: string, code: string, earned: int): string {
    "Your " + typeLabel + " pickup (" + code + ") has been completed. You earned " + IntToString(earned) + " eco points!"
  }

  function DeclinedMessage(typeLabel: string, code: string, adminNotes: Option<string>): string {
    "Your " + typeLabel + " pickup (" + code + ") could not be processed." +
    (if Truthy(adminNotes) then " Reason: " + adminNotes.value else " Please contact support for assistance.")
  }

  function UpdatedMessage(code: string, status: string): string {
    "Your pickup (" + code + ") status has been updated to " + status + "."
  }

  /** The notification `switch`, chosen by the requested status. */
  function NotificationFor(status: string, typeLabel: string, code: string, earned: int, adminNotes: Option<string>): (t: Template)
    ensures status == "in-progress" ==>
      t.kind == PickupAccepted && t.title == "Pickup Accepted! \U{1F389}" &&
      (Truthy(adminNotes) ==> EndsWith(t.message, " Note: " + adminNotes.value)) &&
      (!Truthy(adminNotes) ==> EndsWith(t.message, ScheduledText))
    ensures status == "completed" ==>
      t.kind == PickupCompleted && t.title == "Pickup Completed! \U{2705}" &&
      Contains(t.message, IntToString(earned))
    ensures status == "cancelled" ==>
      t.kind == PickupRejected && t.title == "Pickup Declined" &&
      (Truthy(adminNotes) ==> EndsWith(t.message, " Reason: " + adminNotes.value)) &&
      (!Truthy(adminNotes) ==> EndsWith(t.message, " Please contact support for assistance."))
    ensures status !in {"in-progress", "completed", "cancelled"} ==>
      t.kind == System && t.title == "Pickup Status Updated" && Contains(t.message, status)
    ensures Contains(t.message, code)
  {
    if status == "in-progress" then
      AcceptedMessageFacts(typeLabel, code, adminNotes);
      Template("Pickup Accepted! \U{1F389}", AcceptedMessage(typeLabel, code, adminNotes), PickupAccepted)
    else if status == "completed" then
      CompletedMessageFacts(typeLabel, code, earned);
      Template("Pickup Completed! \U{2705}", CompletedMessage(typeLabel, code, earned), PickupCompleted)
    else if status == "cancelled" then
      DeclinedMessageFacts(typeLabel, code, adminNotes);
      Template("Pickup Declined", DeclinedMessage(typeLabel, code, adminNotes), PickupRejected)
    else
      UpdatedMessageFacts(code, status);
      Template("Pickup Status Updated", UpdatedMessage(code, status), System)
  }

  lemma AcceptedMessageFacts(typeLabel: string, code: string, adminNotes: Option<string>)
    ensures var m := AcceptedMessage(typeLabel, code, adminNotes);
            Contains(m, code) &&
            (Truthy(adminNotes) ==> EndsWith(m, " Note: " + adminNotes.value)) &&
            (!Truthy(adminNotes) ==> EndsWith(m, ScheduledText))
  {
    var head := "Your " + typeLabel + " pickup (";
    var front := head + code + ") has been accepted and is ";
    var tail := if Truthy(adminNotes) then " Note: " + adminNotes.value else "";
    var m := AcceptedMessage(typeLabel, code, adminNotes);
    assert m == head + code + (") has been accepted and is " + ScheduledText + tail);
    ContainsWithin(head, code, ") has been accepted and is " + ScheduledText + tail);
    if Truthy(adminNotes) {
      EndsWithConcat(front + ScheduledText, tail);
    } else {
      assert m == front + ScheduledText;
      EndsWithConcat(front, ScheduledText);
    }
  }

  lemma CompletedMessageFacts(typeLabel: string, code: string, earned: int)
    ensures var m := CompletedMessage(typeLabel, code, earned);
            Contains(m, code) && Contains(m, IntToString(earned))
  {
    var pts := IntToString(earned);
    var head := "Your " + typeLabel + " pickup (";
    var mid := ") has been completed. You earned ";
    var m := CompletedMessage(typeLabel, code, earned);
    assert m == head + code + (mid + pts + " eco points!");
    assert m == (head + code + mid) + pts + " eco points!";
    ContainsWithin(head, code, mid + pts + " eco points!");
    ContainsWithin(head + code + mid, pts, " eco points!");
  }

  lemma DeclinedMessageFacts(typeLabel: string, code: string, adminNotes: Option<string>)
    ensures var m := DeclinedMessage(typeLabel, code, adminNotes);
            Contains(m, code) &&
            (Truthy(adminNotes) ==> EndsWith(m, " Reason: " + adminNotes.value)) &&
            (!Truthy(adminNotes) ==> EndsWith(m, " Please contact support for assistance."))
  {
    var head := "Your " + typeLabel + " pickup (";
    var body := ") could not be processed.";
    var tail := if Truthy(adminNotes) then " Reason: " + adminNotes.value else " Please contact support for assistance.";
    var m := DeclinedMessage(typeLabel, code, adminNotes);
    assert m == head + code + (body + tail);
    ContainsWithin(head, code, body + tail);
    assert m == (head + code + body) + tail;
    EndsWithConcat(head + code + body, tail);
  }

  lemma UpdatedMessageFacts(code: string, status: string)
    ensures Contains(UpdatedMessage(code, status), code) && Contains(UpdatedMessage(code, status), status)
  {
    var m := UpdatedMessage(code, status);
    assert m == "Your pickup (" + code + (") status has been updated to " + status + ".");
    assert m == ("Your pickup (" + code + ") status has been updated to ") + status + ".";
    ContainsWithin("Your pickup (", code, ") status has been updated to " + status + ".");
    ContainsWithin("Your pickup (" + code + ") status has been updated to ", status, ".");
  }

  lemma EndsWithConcat(a: string, b: string)
    ensures EndsWith(a + b, b)
  {
    assert (a + b)[|a + b| - |b|..] == b;
  }

  /**
   * The notification for a saved pickup: written when, and only when, a status was requested
   * and differs from the status the pickup had before the request.
   */
  function AdminNotification(q: Pickup, id: ObjectId, previous: Status, req: PickupUpdate, now: int): Option<Notification> {
    if req.status != "" && req.status != StatusName(previous) then
      var t := NotificationFor(req.status, Capitalize(WasteTypeName(q.wasteType)), q.pickupId,
                               q.ecoPointsEarned, req.adminNotes);
      Some(Notification(q.owner, t.title, t.message, t.kind, false, "/dashboard/history", Some(id), now))
    else None
  }

  function OptionToSeq<T>(o: Option<T>): (s: seq<T>)
    ensures |s| == if o.Some? then 1 else 0
    ensures o.Some? ==> s[0] == o.value
  {
    if o.Some? then [o.value] else []
  }

  /**
   * The handler as a whole. A missing pickup changes nothing. Otherwise the request is applied
   * to the pickup, the owner is credited on completion (that save comes first), the pickup is
   * saved, and the status-change notification is appended.
   */
  function AdminUpdateSpec(db: Db, id: ObjectId, req: PickupUpdate, clock: Clock): Outcome<Pickup> {
    if id !in db.pickups then Outcome(db, Failure(NotFound))
    else
      var before := db.pickups[id];
      var patched := PatchStatusAndNotes(before, req);
      var awarding := Completes(req, before.status);
      var p := if awarding then AdminAward(patched, clock.now) else patched;
      var users := if awarding then CreditOwner(db.users, p.owner, p.ecoPointsEarned, p.actualWeight) else db.users;
      var credited := db.(users := users);
      if !StatusAccepted(req.status) then Outcome(credited, Failure(ValidationFailed))
      else
        match SavePickup(credited, id, p, clock.year)
        case Failure(e) => Outcome(credited, Failure(e))
        case Success(saved) =>
          var q := saved.pickups[id];
          var n := AdminNotification(q, id, before.status, req, clock.now);
          Outcome(saved.(notifications := saved.notifications + OptionToSeq(n)), Success(q))
  }

  /** PUT /pickups/:id, field write by field write. */
  method AdminUpdatePickup(db: Db, id: ObjectId, req: PickupUpdate, clock: Clock) returns (r: Outcome<Pickup>)
    ensures id !in db.pickups ==> r == Outcome(db, Failure(NotFound))
    ensures r == AdminUpdateSpec(db, id, req, clock)
  {
    if id !in db.pickups {
      return Outcome(db, Failure(NotFound));
    }
    var pickup := db.pickups[id];
    var previousStatus := pickup.status;
    var statusValid := true;
    if req.status != "" {
      match ParseStatus(req.status)
      case Some(s) => pickup := pickup.(status := s);
      case None => statusValid := false;
    }
    if req.adminNotes.Some? {
      pickup := pickup.(adminNotes := req.adminNotes.value);
    }
    var patched := pickup;
    assert patched == PatchStatusAndNotes(db.pickups[id], req);
    var users := db.users;
    if req.status == "completed" && previousStatus != Completed {
      pickup, users := AwardAndCredit(db.users, patched, clock.now);
    }
    var credited := db.(users := users);
    if !statusValid {
      return Outcome(credited, Failure(ValidationFailed));
    }
    assert StatusAccepted(req.status);
    var saved := SavePickup(credited, id, pickup, clock.year);
    if saved.Failure? {
      return Outcome(credited, Failure(saved.error));
    }
    var after := saved.value;
    var q := after.pickups[id];
    var notifications := AppendNotification(after.notifications, q, id, previousStatus, req, clock.now);
    r := Outcome(after.(notifications := notifications), Success(q));
  }

  /** The award written onto the pickup, then the owner's ledger, field by field. */
  method AwardAndCredit(users0: map<ObjectId, User>, patched: Pickup, now: int)
    returns (pickup: Pickup, users: map<ObjectId, User>)
    ensures pickup == AdminAward(patched, now)
    ensures users == CreditOwner(users0, pickup.owner, pickup.ecoPointsEarned, pickup.actualWeight)
  {
    pickup := patched;
    var weight := pickup.estimatedWeight;
    var points := Points(pickup.wasteType, weight);
    pickup := pickup.(ecoPointsEarned := points);
    pickup := pickup.(actualWeight := weight);
    pickup := pickup.(completedAt := Some(now));
    users := users0;
    if pickup.owner in users {
      var user := users[pickup.owner];
      user := user.(ecoPoints := user.ecoPoints + points);
      user := user.(totalRecycled := user.totalRecycled + weight);
      user := user.(carbonOffset := user.carbonOffset + weight * 2.5);
      user := user.(level := user.ecoPoints / 1000 + 1);
      users := users[pickup.owner := user];
    }
  }

  /** The status-change notification, appended when a different status was requested. */
  method AppendNotification(notifications0: seq<Notification>, q: Pickup, id: ObjectId, previousStatus: Status,
                            req: PickupUpdate, now: int) returns (notifications: seq<Notification>)
    ensures notifications == notifications0 + OptionToSeq(AdminNotification(q, id, previousStatus, req, now))
  {
    notifications := notifications0;
    if req.status != "" && req.status != StatusName(previousStatus) {
      var t := NotificationFor(req.status, Capitalize(WasteTypeName(q.wasteType)), q.pickupId,
                               q.ecoPointsEarned, req.adminNotes);
      notifications := notifications +
        [Notification(q.owner, t.title, t.message, t.kind, false, "/dashboard/history", Some(id), now)];
    }
  }

  /** On a store that holds its invariant, a request with an accepted status always succeeds. */
  lemma AdminUpdateSucceeds(db: Db, id: ObjectId, req: PickupUpdate, clock: Clock)
    requires PickupsValid(db.pickups) && id in db.pickups
    ensures AdminUpdateSpec(db, id, req, clock).reply.Success? <==> StatusAccepted(req.status)
    ensures !StatusAccepted(req.status) ==> AdminUpdateSpec(db, id, req, clock) == Outcome(db, Failure(ValidationFailed))
  {
    var before := db.pickups[id];
    var patched := PatchStatusAndNotes(before, req);
    var p := if Completes(req, before.status) then AdminAward(patched, clock.now) else patched;
    var users := if Completes(req, before.status) then CreditOwner(db.users, p.owner, p.ecoPointsEarned, p.actualWeight) else db.users;
    ResaveStored(db.(users := users), id, p, clock.year);
  }

  /**
   * The award and the ledger: on completion from any other status the pickup records the
   * estimated weight and its points, and the owner (when present) is credited with exactly
   * those; otherwise no ledger changes, and the pickup's award fields keep their values.
   */
  lemma AdminAwardOnCompletion(db: Db, id: ObjectId, req: PickupUpdate, clock: Clock)
    requires PickupsValid(db.pickups) && id in db.pickups && StatusAccepted(req.status)
    ensures var before := db.pickups[id];
            var r := AdminUpdateSpec(db, id, req, clock);
            var pts := Points(before.wasteType, before.estimatedWeight);
            r.reply.Success? &&
            (Completes(req, before.status) ==>
               r.reply.value.status == Completed &&
               r.reply.value.ecoPointsEarned == pts &&
               r.reply.value.actualWeight == before.estimatedWeight &&
               r.reply.value.completedAt == Some(clock.now) &&
               r.db.users == CreditOwner(db.users, before.owner, pts, before.estimatedWeight)) &&
            (!Completes(req, before.status) ==>
               r.db.users == db.users &&
               r.reply.value.ecoPointsEarned == before.ecoPointsEarned &&
               r.reply.value.actualWeight == before.actualWeight &&
               r.reply.value.completedAt == before.completedAt)
  {
    AdminUpdateSucceeds(db, id, req, clock);
  }

  /** Re-completing a completed pickup awards nothing and leaves every ledger as it was. */
  lemma AdminNoDoubleAward(db: Db, id: ObjectId, req: PickupUpdate, clock: Clock)
    requires PickupsValid(db.pickups) && id in db.pickups && db.pickups[id].status == Completed
    ensures var r := AdminUpdateSpec(db, id, req, clock);
            r.db.users == db.users &&
            (r.reply.Success? ==>
               r.reply.value.ecoPointsEarned == db.pickups[id].ecoPointsEarned &&
               r.reply.value.actualWeight == db.pickups[id].actualWeight &&
               r.reply.value.completedAt == db.pickups[id].completedAt)
  {
    AdminUpdateSucceeds(db, id, req, clock);
  }

  /**
   * Any accepted status overwrites the stored one, with no check that the pickup has already
   * reached a final state.
   */
  lemma AdminStatusOverwrite(db: Db, id: ObjectId, req: PickupUpdate, clock: Clock, s: Status)
    requires PickupsValid(db.pickups) && id in db.pickups && req.status == StatusName(s)
    ensures AdminUpdateSpec(db, id, req, clock).reply == Success(AdminUpdateSpec(db, id, req, clock).reply.value)
    ensures AdminUpdateSpec(db, id, req, clock).reply.value.status == s
  {
    AdminUpdateSucceeds(db, id, req, clock);
  }

  /** A notes-only request rewrites `adminNotes` when present and nothing else anywhere. */
  lemma AdminNotesOnly(db: Db, id: ObjectId, notes: Option<string>, clock: Clock)
    requires PickupsValid(db.pickups) && id in db.pickups
    ensures var q := db.pickups[id].(adminNotes := notes.GetOr(db.pickups[id].adminNotes));
            AdminUpdateSpec(db, id, PickupUpdate("", notes), clock) ==
            Outcome(db.(pickups := db.pickups[id := q]), Success(q))
  {
    var req := PickupUpdate("", notes);
    AdminUpdateSucceeds(db, id, req, clock);
    ResaveStored(db, id, PatchStatusAndNotes(db.pickups[id], req), clock.year);
  }

  /**
   * Exactly one notification is appended, addressed to the owner and linked to the pickup,
   * when the request succeeds with a status different from the previous one; none otherwise.
   * Earlier notifications are kept as they were.
   */
  lemma AdminNotificationIff(db: Db, id: ObjectId, req: PickupUpdate, clock: Clock)
    requires id in db.pickups
    ensures var r := AdminUpdateSpec(db, id, req, clock);
            var changed := r.reply.Success? && req.status != "" && req.status != StatusName(db.pickups[id].status);
            |r.db.notifications| == |db.notifications| + (if changed then 1 else 0) &&
            r.db.notifications[..|db.notifications|] == db.notifications &&
            (changed ==>
               var n := r.db.notifications[|db.notifications|];
               n.recipient == db.pickups[id].owner && n.relatedPickup == Some(id) &&
               n.link == "/dashboard/history" && !n.read && n.createdAt == clock.now)
  {
  }

  /**
   * A completion notification tells the owner the points that this very request awarded
   * and names the pickup's code.
   */
  lemma AdminCompletedNotice(db: Db, id: ObjectId, req: PickupUpdate, clock: Clock)
    requires PickupsValid(db.pickups) && id in db.pickups
    requires req.status == "completed" && db.pickups[id].status != Completed
    ensures var r := AdminUpdateSpec(db, id, req, clock);
            var before := db.pickups[id];
            |r.db.notifications| == |db.notifications| + 1 &&
            var n := r.db.notifications[|db.notifications|];
            n.kind == PickupCompleted &&
            Contains(n.message, IntToString(Points(before.wasteType, before.estimatedWeight))) &&
            Contains(n.message, before.pickupId)
  {
    AdminUpdateSucceeds(db, id, req, clock);
  }

  /** Sending the same request twice leaves the store as sending it once. */
  lemma AdminIdempotent(db: Db, id: ObjectId, req: PickupUpdate, c1: Clock, c2: Clock)
    requires PickupsValid(db.pickups) && id in db.pickups
    ensures var r1 := AdminUpdateSpec(db, id, req, c1);
            AdminUpdateSpec(r1.db, id, req, c2) == r1
  {
    var r1 := AdminUpdateSpec(db, id, req, c1);
    AdminUpdateSucceeds(db, id, req, c1);
    if StatusAccepted(req.status) {
      AdminKeepsValid(db, id, req, c1);
      var q := r1.reply.value;
      assert r1.db.pickups[id] == q;
      AdminFixedPoint(r1.db, id, req, c2);
    }
  }

  /** A request that the stored pickup already reflects is answered with it and changes nothing. */
  lemma AdminFixedPoint(db: Db, id: ObjectId, req: PickupUpdate, clock: Clock)
    requires PickupsValid(db.pickups) && id in db.pickups && StatusAccepted(req.status)
    requires PatchStatusAndNotes(db.pickups[id], req) == db.pickups[id]
    requires req.status == "" || req.status == StatusName(db.pickups[id].status)
    ensures AdminUpdateSpec(db, id, req, clock) == Outcome(db, Success(db.pickups[id]))
  {
    var q := db.pickups[id];
    assert !Completes(req, q.status);
    ResaveStored(db, id, q, clock.year);
    assert db.pickups[id := q] == db.pickups;
  }

  /** The store invariant survives every request. */
  lemma AdminKeepsValid(db: Db, id: ObjectId, req: PickupUpdate, clock: Clock)
    requires PickupsValid(db.pickups)
    ensures PickupsValid(AdminUpdateSpec(db, id, req, clock).db.pickups)
  {
    if id in db.pickups && StatusAccepted(req.status) {
      AdminUpdateSucceeds(db, id, req, clock);
      var before := db.pickups[id];
      var patched := PatchStatusAndNotes(before, req);
      var p := if Completes(req, before.status) then AdminAward(patched, clock.now) else patched;
      var users := if Completes(req, before.status) then CreditOwner(db.users, p.owner, p.ecoPointsEarned, p.actualWeight) else db.users;
      SaveKeepsValid(db.(users := users), id, p, clock.year);
    }
  }

  /** Every user whose level matched their points still does after any request. */
  lemma AdminKeepsLevels(db: Db, id: ObjectId, req: PickupUpdate, clock: Clock)
    requires AllLevelsConsistent(db.users)
    ensures AllLevelsConsistent(AdminUpdateSpec(db, id, req, clock).db.users)
  {
  }

  /** No other pickup and no user other than the owner is touched. */
  lemma AdminOthersUnchanged(db: Db, id: ObjectId, req: PickupUpdate, clock: Clock)
    requires id in db.pickups
    ensures var r := AdminUpdateSpec(db, id, req, clock);
            r.db.pickups.Keys == db.pickups.Keys && r.db.users.Keys == db.users.Keys &&
            (forall k :: k in db.pickups && k != id ==> r.db.pickups[k] == db.pickups[k]) &&
            (forall u :: u in db.users && u != db.pickups[id].owner ==> r.db.users[u] == db.users[u])
  {
  }

  // ---------------------------------------------------------------------------------------
  // PUT /users/:id and DELETE /users/:id
  // ---------------------------------------------------------------------------------------

  /**
   * The request body: `name`, `email` and `role` ("" when absent or falsy), and `phone`,
   * `location`, `ecoPoints` and `level` when present.
   */
  datatype UserPatch = UserPatch(
    name: string, email: string, phone: Option<string>, location: Option<string>,
    role: string, ecoPoints: Option<int>, level: Option<int>)

  /**
   * The truthy fields replace and the present fields replace; the password, avatar and
   * recycling totals are out of reach, and a name, e-mail or role can never be cleared.
   */
  function PatchUser(u: User, b: UserPatch): (r: User)
    ensures r.password == u.password && r.avatar == u.avatar
    ensures r.totalRecycled == u.totalRecycled && r.carbonOffset == u.carbonOffset
    ensures r.name == (if b.name != "" then b.name else u.name)
    ensures r.email == (if b.email != "" then b.email else u.email)
    ensures r.role == (if b.role != "" then b.role else u.role)
    ensures (u.name != "" ==> r.name != "") && (u.email != "" ==> r.email != "") && (u.role != "" ==> r.role != "")
    ensures r.phone == b.phone.GetOr(u.phone) && r.location == b.location.GetOr(u.location)
    ensures r.ecoPoints == b.ecoPoints.GetOr(u.ecoPoints) && r.level == b.level.GetOr(u.level)
  {
    u.(name := if b.name != "" then b.name else u.name,
       email := if b.email != "" then b.email else u.email,
       phone := b.phone.GetOr(u.phone),
       location := b.location.GetOr(u.location),
       role := if b.role != "" then b.role else u.role,
       ecoPoints := b.ecoPoints.GetOr(u.ecoPoints),
       level := b.level.GetOr(u.level))
  }

  /** PUT /users/:id. */
  method AdminUpdateUser(db: Db, id: ObjectId, body: UserPatch) returns (r: Outcome<User>)
    ensures id !in db.users ==> r == Outcome(db, Failure(NotFound))
    ensures id in db.users ==>
      r.reply == Success(PatchUser(db.users[id], body)) &&
      r.db == db.(users := db.users[id := PatchUser(db.users[id], body)])
  {
    if id !in db.users {
      return Outcome(db, Failure(NotFound));
    }
    var user := db.users[id];
    if body.name != "" { user := user.(name := body.name); }
    if body.email != "" { user := user.(email := body.email); }
    if body.phone.Some? { user := user.(phone := body.phone.value); }
    if body.location.Some? { user := user.(location := body.location.value); }
    if body.role != "" { user := user.(role := body.role); }
    if body.ecoPoints.Some? { user := user.(ecoPoints := body.ecoPoints.value); }
    if body.level.Some? { user := user.(level := body.level.value); }
    r := Outcome(db.(users := db.users[id := user]), Success(user));
  }

  /** The patch writes `level` and `ecoPoints` independently, so it can break the level rule. */
  lemma AdminPatchCanBreakLevel()
    ensures var u := User("A", "a@x", "h", "", "", "", "user", 1500, 0.0, 0.0, 2);
            LevelConsistent(u) &&
            !LevelConsistent(PatchUser(u, UserPatch("", "", None, None, "", None, Some(7))))
  {
  }

  /** The pickups a deletion leaves: every one not owned by the deleted user. */
  function PickupsWithoutOwner(pickups: map<ObjectId, Pickup>, owner: ObjectId): (r: map<ObjectId, Pickup>)
    ensures forall k :: k in r <==> k in pickups && pickups[k].owner != owner
    ensures forall k :: k in r ==> r[k] == pickups[k]
  {
    map k | k in pickups && pickups[k].owner != owner :: pickups[k]
  }

  /**
   * DELETE /users/:id by the administrator `actor`: a missing user is not found, deleting
   * oneself is refused, and otherwise the user and all of their pickups are removed.
   */
  function AdminDeleteUser(db: Db, id: ObjectId, actor: ObjectId): (r: Outcome<()>)
    ensures id !in db.users ==> r == Outcome(db, Failure(NotFound))
    ensures id in db.users && id == actor ==> r == Outcome(db, Failure(CannotDeleteSelf))
    ensures r.reply.Success? <==> id in db.users && id != actor
    ensures r.reply.Success? ==>
      r.db.users == db.users - {id} && r.db.notifications == db.notifications &&
      (forall k :: k in r.db.pickups ==> k in db.pickups && r.db.pickups[k] == db.pickups[k] && r.db.pickups[k].owner != id) &&
      (forall k :: k in db.pickups && db.pickups[k].owner != id ==> k in r.db.pickups && r.db.pickups[k] == db.pickups[k])
  {
    if id !in db.users then Outcome(db, Failure(NotFound))
    else if id == actor then Outcome(db, Failure(CannotDeleteSelf))
    else Outcome(db.(pickups := PickupsWithoutOwner(db.pickups, id), users := db.users - {id}), Success(()))
  }

  /**
   * The pre-save hook numbers new pickups by the current document count, so once a deletion
   * lowers the count the next code can be one already in use, and the next save is refused
   * by the unique index.
   */
  lemma DeletionCanRepeatCode(year: nat)
    ensures var p1 := Pickup(1, Recyclable, 0, "9:00", "A", 1.0, 0.0, "", "", Pending, FormatPickupId(year, 0), 0, 0, None);
            var p2 := Pickup(2, Organic, 0, "9:00", "B", 1.0, 0.0, "", "", Pending, FormatPickupId(year, 1), 0, 0, None);
            var u := User("U", "u@x", "h", "", "", "", "user", 0, 0.0, 0.0, 1);
            var db := Db(map[10 := p1, 11 := p2], map[1 := u, 2 := u, 3 := u], []);
            var r := AdminDeleteUser(db, 1, 3);
            var newPickup := NewPickup(2, Organic, 0, "9:00", "B", 1.0, None, 0);
            PickupsValid(db.pickups) && r.reply.Success? &&
            SavePickup(r.db, 12, newPickup, year) == Failure(DuplicateKey)
  {
    var c0 := FormatPickupId(year, 0);
    var c1 := FormatPickupId(year, 1);
    PickupIdRoundTrip(year, 0);
    PickupIdRoundTrip(year, 1);
    var p1 := Pickup(1, Recyclable, 0, "9:00", "A", 1.0, 0.0, "", "", Pending, c0, 0, 0, None);
    var p2 := Pickup(2, Organic, 0, "9:00", "B", 1.0, 0.0, "", "", Pending, c1, 0, 0, None);
    var u := User("U", "u@x", "h", "", "", "", "user", 0, 0.0, 0.0, 1);
    var db := Db(map[10 := p1, 11 := p2], map[1 := u, 2 := u, 3 := u], []);
    TwoPickupsValid(p1, p2);
    DeleteFirstOwner(db, p1, p2);
    var newPickup := NewPickup(2, Organic, 0, "9:00", "B", 1.0, None, 0);
    SaveRepeatsCode(AdminDeleteUser(db, 1, 3).db, p2, newPickup, year);
  }

  lemma TwoPickupsValid(p1: Pickup, p2: Pickup)
    requires SchemaValid(p1) && SchemaValid(p2) && p1.pickupId != "" && p2.pickupId != ""
    requires p1.pickupId != p2.pickupId
    ensures PickupsValid(map[10 := p1, 11 := p2])
  {
  }

  lemma DeleteFirstOwner(db: Db, p1: Pickup, p2: Pickup)
    requires db.pickups == map[10 := p1, 11 := p2] && p1.owner == 1 && p2.owner == 2
    requires 1 in db.users
    ensures AdminDeleteUser(db, 1, 3).reply.Success?
    ensures AdminDeleteUser(db, 1, 3).db.pickups == map[11 := p2]
  {
    var left := PickupsWithoutOwner(db.pickups, 1);
    assert left.Keys == {11};
  }

  lemma SaveRepeatsCode(db: Db, p2: Pickup, p: Pickup, year: nat)
    requires db.pickups == map[11 := p2] && p2.pickupId == FormatPickupId(year, 1)
    requires SchemaValid(p) && p.pickupId == ""
    ensures SavePickup(db, 12, p, year) == Failure(DuplicateKey)
  {
    assert |db.pickups| == 1;
    assert CodeTaken(db.pickups, 12, FormatPickupId(year, 1)) by {
      assert 11 in db.pickups && db.pickups[11].pickupId == FormatPickupId(year, 1);
    }
  }

  // ---------------------------------------------------------------------------------------
  // Pagination of GET /users and GET /pickups
  // ---------------------------------------------------------------------------------------

  /** `parseInt(q) || d`: a missing, unparsable (`None`) or zero parameter takes the default. */
  function ParamOr(q: Option<int>, d: int): (r: int)
    ensures d != 0 ==> r != 0
    ensures q.Some? && q.value != 0 ==> r == q.value
  {
    if q.Some? && q.value != 0 then q.value else d
  }

  /** `(page - 1) * limit` documents are skipped. */
  function Skip(page: int, limit: int): int {
    (page - 1) * limit
  }

  /** `Math.ceil(total / limit)`. */
  function PageCount(total: nat, limit: int): (pages: int)
    requires limit != 0
  {
    Ceil(total as real / limit as real)
  }

  /** For a positive limit, the page count is the integer quotient rounded up. */
  lemma PageCountIsQuotient(total: nat, limit: int)
    requires limit > 0
    ensures PageCount(total, limit) == (total + limit - 1) / limit
  {
    var n := (total + limit - 1) / limit;
    var x := total as real / limit as real;
    assert (n - 1) * limit < total <= n * limit;
    RealQuotientBounds(total, limit, n);
    assert (-x).Floor == -n;
  }

  lemma RealQuotientBounds(total: nat, limit: int, n: int)
    requires limit > 0 && (n - 1) * limit < total <= n * limit
    ensures (n - 1) as real < total as real / limit as real <= n as real
  {
    var l := limit as real;
    var x := total as real / l;
    assert x * l == total as real;
    assert (n - 1) as real * l < x * l <= n as real * l;
  }

  /** For a positive limit, the pages are the fewest that hold every document. */
  lemma PageCountBounds(total: nat, limit: int)
    requires limit > 0
    ensures PageCount(total, limit) >= 0
    ensures total == 0 <==> PageCount(total, limit) == 0
    ensures (PageCount(total, limit) - 1) * limit < total <= PageCount(total, limit) * limit || total == 0
  {
    PageCountIsQuotient(total, limit);
  }

  /** Each document lies in the window of exactly one page between 1 and the page count. */
  lemma PagesCoverDocuments(total: nat, limit: int, i: nat)
    requires limit > 0 && i < total
    ensures var page := i / limit + 1;
            1 <= page <= PageCount(total, limit) &&
            Skip(page, limit) <= i < Skip(page, limit) + limit
    ensures forall p :: Skip(p, limit) <= i < Skip(p, limit) + limit ==> p == i / limit + 1
  {
    PageCountBounds(total, limit);
    var page := i / limit + 1;
    assert (page - 1) * limit <= i;
    forall p | Skip(p, limit) <= i < Skip(p, limit) + limit
      ensures p == i / limit + 1
    {
      DivWindow(p - 1, limit, i);
    }
  }

  /** A positive multiple of a positive number is at least that number. */
  lemma MulAtLeast(d: int, c: int)
    requires d >= 1 && c > 0
    ensures d * c >= c && (-d) * c <= -c
  {
    assert d * c == (d - 1) * c + c;
    assert (-d) * c == -(d * c);
  }

  /** The window `[a * c, a * c + c)` is exactly the set of numbers whose quotient by `c` is `a`. */
  lemma DivWindow(a: int, c: int, i: int)
    requires c > 0 && a * c <= i < a * c + c
    ensures i / c == a
  {
    var q := i / c;
    var d := a - q;
    assert d * c == a * c - q * c;
    if d >= 1 {
      MulAtLeast(d, c);
    } else if d <= -1 {
      MulAtLeast(-d, c);
    }
  }
}
