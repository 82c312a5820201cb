/**
 * The owner's handlers: creating a pickup, updating it (which can complete it and credit the
 * owner's ledger), cancelling it, and the month-over-month recycling trend of the stats page.
 */
module PickupRoutes {
  import opened Wrappers
  import opened Numbers
  import opened Pickups
  import opened Store

  // ---------------------------------------------------------------------------------------
  // POST /
  // ---------------------------------------------------------------------------------------

  /**
   * The creation body. Strings are "" when absent; `date` is `None` when it does not make a
   * valid date; `estimatedWeight` is `parseFloat`'s result, `None` for NaN.
   */
  datatype CreateRequest = CreateRequest(
    wasteType: string, date: Option<int>, time: string, address: string,
    estimatedWeight: Option<real>, notes: Option<string>)

  /**
   * `Pickup.create`: the document `newId` (a key no document has) with the request's fields
   * and the schema defaults, `parseFloat(estimatedWeight) || 0` as its estimate, then saved.
   */
  function CreateSpec(db: Db, newId: ObjectId, owner: ObjectId, req: CreateRequest, clock: Clock): Outcome<Pickup>
    requires newId !in db.pickups
  {
    if req.date.None? then Outcome(db, Failure(ValidationFailed))
    else
      var weight := if req.estimatedWeight.Some? then req.estimatedWeight.value else 0.0;
      var p := NewPickup(owner, ParseWasteType(req.wasteType), req.date.value, req.time, req.address,
                         weight, req.notes, clock.now);
      match SavePickup(db, newId, p, clock.year)
      case Failure(e) => Outcome(db, Failure(e))
      case Success(saved) => Outcome(saved, Success(saved.pickups[newId]))
  }

  /** The request names a category of the enumeration, a valid date, a time and an address. */
  predicate CreateRequestValid(req: CreateRequest) {
    req.date.Some? && !ParseWasteType(req.wasteType).Other? && req.time != "" && req.address != ""
  }

  /**
   * Every stored code parses, and its ordinal is at most the number of stored pickups: what
   * numbering by document count gives while nothing is deleted.
   */
  predicate OrdinalsWithinCount(pickups: map<ObjectId, Pickup>) {
    forall k :: k in pickups ==>
      ParsePickupId(pickups[k].pickupId).Some? && ParsePickupId(pickups[k].pickupId).value.1 <= |pickups|
  }

  /**
   * A pickup without a code, saved under a new key while ordinals stay within the count, gets
   * the next code, which no stored pickup holds, and the ordinals stay within the new count.
   */
  lemma FreshCodeSaves(db: Db, newId: ObjectId, p: Pickup, year: nat)
    requires newId !in db.pickups && OrdinalsWithinCount(db.pickups)
    requires SchemaValid(p) && p.pickupId == ""
    ensures var code := FormatPickupId(year, |db.pickups|);
            SavePickup(db, newId, p, year) == Success(db.(pickups := db.pickups[newId := p.(pickupId := code)])) &&
            OrdinalsWithinCount(db.pickups[newId := p.(pickupId := code)])
  {
    var code := FormatPickupId(year, |db.pickups|);
    PickupIdRoundTrip(year, |db.pickups|);
    forall k | k in db.pickups
      ensures db.pickups[k].pickupId != code
    {
      assert ParsePickupId(db.pickups[k].pickupId).value.1 <= |db.pickups|;
    }
    var m := db.pickups[newId := p.(pickupId := code)];
    assert |m| == |db.pickups| + 1;
    forall k | k in m
      ensures ParsePickupId(m[k].pickupId).Some? && ParsePickupId(m[k].pickupId).value.1 <= |m|
    {
      if k != newId {
        assert m[k] == db.pickups[k];
      }
    }
  }

  /**
   * While ordinals stay within the count, a valid request always creates a new pending pickup
   * with the next code and the defaults, writes nothing else, and keeps the ordinals in bounds.
   * An invalid request changes nothing.
   */
  lemma {:induction false} CreateNeverCollides(db: Db, newId: ObjectId, owner: ObjectId, req: CreateRequest, clock: Clock)
    requires newId !in db.pickups && OrdinalsWithinCount(db.pickups)
    ensures var r := CreateSpec(db, newId, owner, req, clock);
            (r.reply.Success? <==> CreateRequestValid(req)) &&
            (r.reply.Failure? ==> r.db == db && r.reply.error == ValidationFailed) &&
            (r.reply.Success? ==>
               var p := r.reply.value;
               r.db == db.(pickups := db.pickups[newId := p]) &&
               p.owner == owner && p.status == Pending && p.ecoPointsEarned == 0 &&
               p.actualWeight == 0.0 && p.completedAt == None && p.createdAt == clock.now &&
               p.pickupId == FormatPickupId(clock.year, |db.pickups|) &&
               OrdinalsWithinCount(r.db.pickups))
  {
    if CreateRequestValid(req) {
      var weight := if req.estimatedWeight.Some? then req.estimatedWeight.value else 0.0;
      var p := NewPickup(owner, ParseWasteType(req.wasteType), req.date.value, req.time, req.address,
                         weight, req.notes, clock.now);
      FreshCodeSaves(db, newId, p, clock.year);
    }
  }

  /** POST /. */
  method CreatePickup(db: Db, newId: ObjectId, owner: ObjectId, req: CreateRequest, clock: Clock) returns (r: Outcome<Pickup>)
    requires newId !in db.pickups
    ensures r == CreateSpec(db, newId, owner, req, clock)
  {
    if req.date.None? {
      return Outcome(db, Failure(ValidationFailed));
    }
    var weight := 0.0;
    if req.estimatedWeight.Some? {
      weight := req.estimatedWeight.value;
    }
    var pickup := NewPickup(owner, ParseWasteType(req.wasteType), req.date.value, req.time, req.address,
                            weight, req.notes, clock.now);
    var saved := SavePickup(db, newId, pickup, clock.year);
    if saved.Failure? {
      return Outcome(db, Failure(saved.error));
    }
    r := Outcome(saved.value, Success(saved.value.pickups[newId]));
  }

  // ---------------------------------------------------------------------------------------
  // PUT /:id
  // ---------------------------------------------------------------------------------------

  /**
   * A date or a number of the update body as the handler assigns it: `Absent` when the
   * handler keeps (or falls back from) the stored value, `Given` when the value casts, and
   * `Unparsable` when the schema's cast refuses it.
   */
  datatype Input<T> = Absent | Given(value: T) | Unparsable

  /** The value a path holds after the assignment: the cast value, else the previous one. */
  function Assign<T>(input: Input<T>, previous: T): (r: T)
    ensures input.Given? ==> r == input.value
    ensures !input.Given? ==> r == previous
  {
    if input.Given? then input.value else previous
  }

  /**
   * The update body. Strings are "" when absent or falsy. `date` is `Absent` when falsy and
   * `Unparsable` when `new Date(date)` is an Invalid Date; `estimatedWeight` is `Absent` when
   * undefined and `Unparsable` when `parseFloat` gives NaN (for "", null or "abc"); `notes` is
   * present or not; `actualWeight` is `Absent` when falsy (missing or 0) and `Unparsable` for
   * a truthy value the Number cast refuses.
   */
  datatype OwnerRequest = OwnerRequest(
    wasteType: string, date: Input<int>, time: string, address: string,
    estimatedWeight: Input<real>, notes: Option<string>, status: string, actualWeight: Input<real>)

  /**
   * The field patch: a falsy waste type, date, time or address keeps the stored value, a
   * present estimate or note replaces it, and an unparsable date or estimate keeps the stored
   * value and records a cast error. Nothing else is touched, and the document still satisfies
   * the validators unless the request names a waste type outside the enumeration.
   */
  function OwnerPatch(p: Pickup, req: OwnerRequest): (d: Draft)
    ensures d.doc.wasteType == (if req.wasteType != "" then ParseWasteType(req.wasteType) else p.wasteType)
    ensures d.doc.date == Assign(req.date, p.date)
    ensures d.doc.time == (if req.time != "" then req.time else p.time)
    ensures d.doc.address == (if req.address != "" then req.address else p.address)
    ensures d.doc.estimatedWeight == Assign(req.estimatedWeight, p.estimatedWeight)
    ensures d.doc.notes == req.notes.GetOr(p.notes)
    ensures d.doc == p.(wasteType := d.doc.wasteType, date := d.doc.date, time := d.doc.time,
                        address := d.doc.address, estimatedWeight := d.doc.estimatedWeight, notes := d.doc.notes)
    ensures d.castError <==> req.date.Unparsable? || req.estimatedWeight.Unparsable?
    ensures SchemaValid(p) ==> (SchemaValid(d.doc) <==> !d.doc.wasteType.Other?)
  {
    Draft(p.(wasteType := if req.wasteType != "" then ParseWasteType(req.wasteType) else p.wasteType,
             date := Assign(req.date, p.date),
             time := if req.time != "" then req.time else p.time,
             address := if req.address != "" then req.address else p.address,
             estimatedWeight := Assign(req.estimatedWeight, p.estimatedWeight),
             notes := req.notes.GetOr(p.notes)),
          req.date.Unparsable? || req.estimatedWeight.Unparsable?)
  }

  /**
   * `actualWeight || pickup.estimatedWeight` as the document ends up holding it: a falsy
   * weight falls back to the estimate, and one the cast refuses leaves the previous weight.
   */
  function CollectedWeight(req: OwnerRequest, p: Pickup): real {
    match req.actualWeight
    case Given(w) => w
    case Absent => p.estimatedWeight
    case Unparsable => p.actualWeight
  }

  /**
   * The owner's completion: the status, the time and the collected weight, then the points
   * `calculateEcoPoints` gives for the document's waste type and weight. NaN points leave the
   * previous value and record a cast error.
   */
  function OwnerAward(d: Draft, req: OwnerRequest, now: int): (r: Draft)
    ensures r.doc.status == Completed && r.doc.completedAt == Some(now)
    ensures r.doc.actualWeight == CollectedWeight(req, d.doc)
    ensures r.doc.ecoPointsEarned ==
              EcoPoints(d.doc.wasteType, CollectedWeight(req, d.doc)).GetOr(d.doc.ecoPointsEarned)
    ensures r.doc == d.doc.(status := Completed, completedAt := Some(now),
                            actualWeight := r.doc.actualWeight, ecoPointsEarned := r.doc.ecoPointsEarned)
    ensures r.castError <==> d.castError || req.actualWeight.Unparsable? ||
                             (d.doc.wasteType.Other? && InheritedKey(d.doc.wasteType.name))
    ensures !r.castError ==> r.doc.ecoPointsEarned == Points(d.doc.wasteType, r.doc.actualWeight)
  {
    var weight := CollectedWeight(req, d.doc);
    var points := EcoPoints(d.doc.wasteType, weight);
    Draft(d.doc.(status := Completed, completedAt := Some(now), actualWeight := weight,
                 ecoPointsEarned := points.GetOr(d.doc.ecoPointsEarned)),
          d.castError || req.actualWeight.Unparsable? || points.None?)
  }

  /** The ledger after an owner completion: 0.7 kg of CO2 per kg, rounded to a whole number. */
  function OwnerCredit(u: User, points: int, weight: real): (r: User)
    ensures r.ecoPoints == u.ecoPoints + points
    ensures r.totalRecycled == u.totalRecycled + weight
    ensures r.carbonOffset == u.carbonOffset + Round(weight * 0.7) as real
    ensures LevelConsistent(r)
    ensures r == u.(ecoPoints := r.ecoPoints, totalRecycled := r.totalRecycled,
                    carbonOffset := r.carbonOffset, level := r.level)
  {
    var points' := u.ecoPoints + points;
    u.(totalRecycled := u.totalRecycled + weight,
       carbonOffset := u.carbonOffset + Round(weight * 0.7) as real,
       ecoPoints := points', level := LevelFor(points'))
  }

  /** The completion condition of the owner route. */
  predicate OwnerCompletes(req: OwnerRequest, current: Status) {
    req.status == "completed" && current != Completed
  }

  /** The status written when the request does not complete the pickup. */
  function OtherStatus(p: Pickup, req: OwnerRequest): Pickup {
    match ParseStatus(req.status) case Some(s) => p.(status := s) case None => p
  }

  /** Saves and answers with the saved document; a refused save changes nothing. */
  function SaveReply(db: Db, id: ObjectId, d: Draft, year: nat): Outcome<Pickup> {
    match SaveDraft(db, id, d, year)
    case Failure(e) => Outcome(db, Failure(e))
    case Success(saved) => Outcome(saved, Success(saved.pickups[id]))
  }

  /**
   * The completion branch as the source writes it: the owner's ledger is saved before the
   * pickup, with the points and weight the document holds, so when the pickup's save is
   * refused the credit stays and the pickup does not complete. An owner missing from the
   * users fails before either save.
   */
  function OwnerCompletionAsWritten(db: Db, id: ObjectId, actor: ObjectId, patched: Draft, req: OwnerRequest, clock: Clock): Outcome<Pickup> {
    if actor !in db.users then Outcome(db, Failure(ServerError))
    else
      var a := OwnerAward(patched, req, clock.now);
      var credited := db.(users := db.users[actor := OwnerCredit(db.users[actor], a.doc.ecoPointsEarned, a.doc.actualWeight)]);
      SaveReply(credited, id, a, clock.year)
  }

  /** The completion branch with the credit tied to the completion: the ledger is written only once the completed pickup is saved. */
  function OwnerCompletion(db: Db, id: ObjectId, actor: ObjectId, patched: Draft, req: OwnerRequest, clock: Clock): Outcome<Pickup> {
    if actor !in db.users then Outcome(db, Failure(ServerError))
    else
      var a := OwnerAward(patched, req, clock.now);
      match SaveDraft(db, id, a, clock.year)
      case Failure(e) => Outcome(db, Failure(e))
      case Success(saved) =>
        var credit := OwnerCredit(db.users[actor], a.doc.ecoPointsEarned, a.doc.actualWeight);
        Outcome(saved.(users := saved.users[actor := credit]), Success(saved.pickups[id]))
  }

  /** Without a completion: a truthy status is written as named; one outside the enumeration is refused on save. */
  function OwnerOtherStatus(db: Db, id: ObjectId, patched: Draft, req: OwnerRequest, clock: Clock): Outcome<Pickup> {
    if req.status != "" && ParseStatus(req.status).None? then Outcome(db, Failure(ValidationFailed))
    else SaveReply(db, id, patched.(doc := OtherStatus(patched.doc, req)), clock.year)
  }

  /** The handler as the source writes it. */
  function OwnerUpdateAsWritten(db: Db, id: ObjectId, actor: ObjectId, req: OwnerRequest, clock: Clock): Outcome<Pickup> {
    if id !in db.pickups then Outcome(db, Failure(NotFound))
    else if db.pickups[id].owner != actor then Outcome(db, Failure(NotAuthorized))
    else
      var patched := OwnerPatch(db.pickups[id], req);
      if OwnerCompletes(req, patched.doc.status) then OwnerCompletionAsWritten(db, id, actor, patched, req, clock)
      else OwnerOtherStatus(db, id, patched, req, clock)
  }

  /** The handler with the credit tied to the completion, so a refused save changes nothing. */
  function OwnerUpdateSpec(db: Db, id: ObjectId, actor: ObjectId, req: OwnerRequest, clock: Clock): Outcome<Pickup> {
    if id !in db.pickups then Outcome(db, Failure(NotFound))
    else if db.pickups[id].owner != actor then Outcome(db, Failure(NotAuthorized))
    else
      var patched := OwnerPatch(db.pickups[id], req);
      if OwnerCompletes(req, patched.doc.status) then OwnerCompletion(db, id, actor, patched, req, clock)
      else OwnerOtherStatus(db, id, patched, req, clock)
  }

  /** PUT /:id by `actor`, field write by field write, in the source's order. */
  method OwnerUpdatePickup(db: Db, id: ObjectId, actor: ObjectId, req: OwnerRequest, clock: Clock) returns (r: Outcome<Pickup>)
    ensures r == OwnerUpdateAsWritten(db, id, actor, req, clock)
  {
    if id !in db.pickups {
      return Outcome(db, Failure(NotFound));
    }
    var pickup := db.pickups[id];
    if pickup.owner != actor {
      return Outcome(db, Failure(NotAuthorized));
    }
    var patched := AssignFields(pickup, req);
    if req.status == "completed" && patched.doc.status != Completed {
      r := CompleteForOwner(db, id, actor, patched, req, clock);
    } else {
      r := WriteRequestedStatus(db, id, patched, req, clock);
    }
  }

  /** The six field assignments of PUT /:id, each recording a cast error where its cast fails. */
  method AssignFields(stored: Pickup, req: OwnerRequest) returns (d: Draft)
    ensures d == OwnerPatch(stored, req)
  {
    var pickup := stored;
    var castError := false;
    if req.wasteType != "" { pickup := pickup.(wasteType := ParseWasteType(req.wasteType)); }
    if req.date.Given? { pickup := pickup.(date := req.date.value); }
    else if req.date.Unparsable? { castError := true; }
    if req.time != "" { pickup := pickup.(time := req.time); }
    if req.address != "" { pickup := pickup.(address := req.address); }
    if req.estimatedWeight.Given? { pickup := pickup.(estimatedWeight := req.estimatedWeight.value); }
    else if req.estimatedWeight.Unparsable? { castError := true; }
    if req.notes.Some? { pickup := pickup.(notes := req.notes.value); }
    d := Draft(pickup, castError);
  }

  /** The completion branch of PUT /:id, in the source's order: award, credit and save the owner, save the pickup. */
  method CompleteForOwner(db: Db, id: ObjectId, actor: ObjectId, patched: Draft, req: OwnerRequest, clock: Clock) returns (r: Outcome<Pickup>)
    ensures r == OwnerCompletionAsWritten(db, id, actor, patched, req, clock)
  {
    var pickup := patched.doc;
    var castError := patched.castError;
    pickup := pickup.(status := Completed);
    pickup := pickup.(completedAt := Some(clock.now));
    if req.actualWeight.Given? {
      pickup := pickup.(actualWeight := req.actualWeight.value);
    } else if req.actualWeight.Absent? {
      pickup := pickup.(actualWeight := pickup.estimatedWeight);
    } else {
      castError := true;
    }
    match EcoPoints(pickup.wasteType, pickup.actualWeight) {
      case Some(n) => pickup := pickup.(ecoPointsEarned := n);
      case None => castError := true;
    }
    var award := Draft(pickup, castError);
    assert award == OwnerAward(patched, req, clock.now);
    if actor !in db.users {
      return Outcome(db, Failure(ServerError));
    }
    var weight := pickup.actualWeight;
    var points := pickup.ecoPointsEarned;
    var user := db.users[actor];
    user := user.(totalRecycled := user.totalRecycled + weight);
    user := user.(carbonOffset := user.carbonOffset + Round(weight * 0.7) as real);
    user := user.(ecoPoints := user.ecoPoints + points);
    user := user.(level := user.ecoPoints / 1000 + 1);
    assert user == OwnerCredit(db.users[actor], points, weight);
    var credited := db.(users := db.users[actor := user]);
    var saved := SaveDraft(credited, id, award, clock.year);
    if saved.Failure? {
      return Outcome(credited, Failure(saved.error));
    }
    r := Outcome(saved.value, Success(saved.value.pickups[id]));
  }

  /** The other branch of PUT /:id: a truthy status is written verbatim, then the pickup is saved. */
  method WriteRequestedStatus(db: Db, id: ObjectId, patched: Draft, req: OwnerRequest, clock: Clock) returns (r: Outcome<Pickup>)
    ensures r == OwnerOtherStatus(db, id, patched, req, clock)
  {
    var pickup := patched.doc;
    if req.status != "" {
      match ParseStatus(req.status)
      case Some(s) => pickup := pickup.(status := s);
      case None => return Outcome(db, Failure(ValidationFailed));
    }
    var saved := SaveDraft(db, id, Draft(pickup, patched.castError), clock.year);
    if saved.Failure? {
      return Outcome(db, Failure(saved.error));
    }
    r := Outcome(saved.value, Success(saved.value.pickups[id]));
  }

  /** A missing pickup, or one the actor does not own, is refused before anything is written. */
  lemma OwnerGuards(db: Db, id: ObjectId, actor: ObjectId, req: OwnerRequest, clock: Clock)
    requires id !in db.pickups || db.pickups[id].owner != actor
    ensures OwnerUpdateSpec(db, id, actor, req, clock).db == db
    ensures OwnerUpdateAsWritten(db, id, actor, req, clock).db == db
    ensures OwnerUpdateSpec(db, id, actor, req, clock).reply ==
            Failure(if id !in db.pickups then NotFound else NotAuthorized)
  {
  }

  /**
   * What the completing save needs besides a valid store: the patched waste type is in the
   * enumeration, and every date and number of the request casts.
   */
  predicate CompletionValid(p: Pickup, req: OwnerRequest) {
    !OwnerPatch(p, req).doc.wasteType.Other? &&
    !req.date.Unparsable? && !req.estimatedWeight.Unparsable? && !req.actualWeight.Unparsable?
  }

  /** The completed document passes validation exactly when `CompletionValid` holds. */
  lemma CompletionValidIff(p: Pickup, req: OwnerRequest, now: int)
    requires SchemaValid(p)
    ensures var a := OwnerAward(OwnerPatch(p, req), req, now);
            CompletionValid(p, req) <==> SchemaValid(a.doc) && !a.castError
  {
    var d := OwnerPatch(p, req);
    var a := OwnerAward(d, req, now);
    assert SchemaValid(a.doc) <==> SchemaValid(d.doc);
  }

  /** The two forms agree on every request except a completion whose save is refused. */
  lemma OwnerAgreesWhenValid(db: Db, id: ObjectId, actor: ObjectId, req: OwnerRequest, clock: Clock)
    requires PickupsValid(db.pickups)
    requires (id in db.pickups && db.pickups[id].owner == actor && actor in db.users &&
              OwnerCompletes(req, db.pickups[id].status)) ==> CompletionValid(db.pickups[id], req)
    ensures OwnerUpdateAsWritten(db, id, actor, req, clock) == OwnerUpdateSpec(db, id, actor, req, clock)
  {
    if id in db.pickups && db.pickups[id].owner == actor {
      var patched := OwnerPatch(db.pickups[id], req);
      if OwnerCompletes(req, patched.doc.status) && actor in db.users {
        var a := OwnerAward(patched, req, clock.now);
        CompletionValidIff(db.pickups[id], req, clock.now);
        var credited := db.(users := db.users[actor := OwnerCredit(db.users[actor], a.doc.ecoPointsEarned, a.doc.actualWeight)]);
        ResaveStored(db, id, a.doc, clock.year);
        ResaveStored(credited, id, a.doc, clock.year);
      }
    }
  }

  /**
   * As written, a completion whose save is refused (a waste type outside the enumeration, or
   * a date or number the schema cannot cast) credits the owner and then fails: the pickup
   * stays uncompleted, so the same request credits them again. The points credited are those
   * the document holds: the computed ones, or the stored ones when the computation is NaN.
   */
  lemma OwnerCreditWithoutCompletion(db: Db, id: ObjectId, actor: ObjectId, req: OwnerRequest, clock: Clock)
    requires PickupsValid(db.pickups) && id in db.pickups && db.pickups[id].owner == actor && actor in db.users
    requires db.pickups[id].status != Completed && req.status == "completed"
    requires !CompletionValid(db.pickups[id], req)
    ensures var r1 := OwnerUpdateAsWritten(db, id, actor, req, clock);
            var r2 := OwnerUpdateAsWritten(r1.db, id, actor, req, clock);
            var patched := OwnerPatch(db.pickups[id], req).doc;
            var pts := EcoPoints(patched.wasteType, CollectedWeight(req, patched)).GetOr(db.pickups[id].ecoPointsEarned);
            r1.reply == Failure(ValidationFailed) && r2.reply == Failure(ValidationFailed) &&
            r1.db.pickups == db.pickups && r2.db.pickups == db.pickups &&
            r1.db.users[actor].ecoPoints == db.users[actor].ecoPoints + pts &&
            r2.db.users[actor].ecoPoints == db.users[actor].ecoPoints + 2 * pts
  {
    var patched := OwnerPatch(db.pickups[id], req);
    var a := OwnerAward(patched, req, clock.now);
    CompletionValidIff(db.pickups[id], req, clock.now);
    assert SaveDraft(db, id, a, clock.year) == Failure(ValidationFailed);
    var credit1 := OwnerCredit(db.users[actor], a.doc.ecoPointsEarned, a.doc.actualWeight);
    var r1 := OwnerUpdateAsWritten(db, id, actor, req, clock);
    assert r1 == Outcome(db.(users := db.users[actor := credit1]), Failure(ValidationFailed));
    var credit2 := OwnerCredit(credit1, a.doc.ecoPointsEarned, a.doc.actualWeight);
    assert OwnerUpdateAsWritten(r1.db, id, actor, req, clock) ==
           Outcome(r1.db.(users := r1.db.users[actor := credit2]), Failure(ValidationFailed));
  }

  /** In the corrected form a refused request changes nothing, and a credit means the completion was stored. */
  lemma OwnerCreditOnlyWithCompletion(db: Db, id: ObjectId, actor: ObjectId, req: OwnerRequest, clock: Clock)
    ensures var r := OwnerUpdateSpec(db, id, actor, req, clock);
            (r.reply.Failure? ==> r.db == db) &&
            (r.db.users != db.users ==>
               r.reply.Success? && r.reply.value.status == Completed &&
               id in r.db.pickups && r.db.pickups[id] == r.reply.value)
  {
  }

  /**
   * Completion from any other status stores the collected weight and its points, with the
   * rate of the patched waste type, and credits exactly those to the owner.
   */
  lemma OwnerAwardOnCompletion(db: Db, id: ObjectId, actor: ObjectId, req: OwnerRequest, clock: Clock)
    requires PickupsValid(db.pickups) && id in db.pickups && db.pickups[id].owner == actor && actor in db.users
    requires db.pickups[id].status != Completed && req.status == "completed"
    requires CompletionValid(db.pickups[id], req)
    ensures var r := OwnerUpdateSpec(db, id, actor, req, clock);
            var patched := OwnerPatch(db.pickups[id], req).doc;
            var w := CollectedWeight(req, patched);
            var pts := Points(patched.wasteType, w);
            r.reply.Success? && r.reply.value == OwnerAward(OwnerPatch(db.pickups[id], req), req, clock.now).doc &&
            r.reply.value.ecoPointsEarned == pts && r.reply.value.actualWeight == w &&
            r.db.pickups == db.pickups[id := r.reply.value] &&
            r.db.users == db.users[actor := OwnerCredit(db.users[actor], pts, w)] &&
            r.db.notifications == db.notifications
  {
    var a := OwnerAward(OwnerPatch(db.pickups[id], req), req, clock.now);
    CompletionValidIff(db.pickups[id], req, clock.now);
    ResaveStored(db, id, a.doc, clock.year);
  }

  /**
   * Without a completion no ledger changes: any other accepted status, including a way out of
   * `completed` or `cancelled` and `completed` again on a completed pickup, is stored as named,
   * unless a date or estimate of the request fails its cast or the patched waste type is
   * outside the enumeration, either of which refuses the save.
   */
  lemma OwnerStatusOverwrite(db: Db, id: ObjectId, actor: ObjectId, req: OwnerRequest, clock: Clock, s: Status)
    requires PickupsValid(db.pickups) && id in db.pickups && db.pickups[id].owner == actor
    requires req.status == StatusName(s) && !OwnerCompletes(req, db.pickups[id].status)
    ensures var r := OwnerUpdateSpec(db, id, actor, req, clock);
            var d := OwnerPatch(db.pickups[id], req);
            var q := d.doc.(status := s);
            r == if d.castError || d.doc.wasteType.Other? then Outcome(db, Failure(ValidationFailed))
                 else Outcome(db.(pickups := db.pickups[id := q]), Success(q))
  {
    var d := OwnerPatch(db.pickups[id], req);
    if !d.doc.wasteType.Other? {
      ResaveStored(db, id, d.doc.(status := s), clock.year);
    }
  }

  /**
   * A truthy status outside the enumeration (`"done"`, say) is refused on save in both forms,
   * with nothing written: it cannot be `completed`, so no ledger is credited first.
   */
  lemma OwnerUnknownStatusRefused(db: Db, id: ObjectId, actor: ObjectId, req: OwnerRequest, clock: Clock)
    requires id in db.pickups && db.pickups[id].owner == actor
    requires req.status != "" && ParseStatus(req.status).None?
    ensures OwnerUpdateSpec(db, id, actor, req, clock) == Outcome(db, Failure(ValidationFailed))
    ensures OwnerUpdateAsWritten(db, id, actor, req, clock) == Outcome(db, Failure(ValidationFailed))
  {
  }

  /**
   * A request without a status is the plain field patch: it is stored, with no ledger change,
   * unless a date or estimate fails its cast or the waste type is outside the enumeration.
   */
  lemma OwnerFieldPatch(db: Db, id: ObjectId, actor: ObjectId, req: OwnerRequest, clock: Clock)
    requires PickupsValid(db.pickups) && id in db.pickups && db.pickups[id].owner == actor
    requires req.status == ""
    ensures var r := OwnerUpdateSpec(db, id, actor, req, clock);
            var d := OwnerPatch(db.pickups[id], req);
            r == if d.castError || d.doc.wasteType.Other? then Outcome(db, Failure(ValidationFailed))
                 else Outcome(db.(pickups := db.pickups[id := d.doc]), Success(d.doc))
    ensures OwnerUpdateAsWritten(db, id, actor, req, clock) == OwnerUpdateSpec(db, id, actor, req, clock)
  {
    var d := OwnerPatch(db.pickups[id], req);
    if !d.doc.wasteType.Other? {
      ResaveStored(db, id, d.doc, clock.year);
    }
  }

  /** Re-completing a completed pickup credits nothing. */
  lemma OwnerNoDoubleAward(db: Db, id: ObjectId, actor: ObjectId, req: OwnerRequest, clock: Clock)
    requires id in db.pickups && db.pickups[id].status == Completed
    ensures OwnerUpdateSpec(db, id, actor, req, clock).db.users == db.users
    ensures OwnerUpdateAsWritten(db, id, actor, req, clock).db.users == db.users
  {
  }

  /** Every user whose level matched their points still does after an owner update. */
  lemma OwnerKeepsLevels(db: Db, id: ObjectId, actor: ObjectId, req: OwnerRequest, clock: Clock)
    requires AllLevelsConsistent(db.users)
    ensures AllLevelsConsistent(OwnerUpdateSpec(db, id, actor, req, clock).db.users)
    ensures AllLevelsConsistent(OwnerUpdateAsWritten(db, id, actor, req, clock).db.users)
  {
    if id in db.pickups && db.pickups[id].owner == actor {
      var patched := OwnerPatch(db.pickups[id], req);
      if OwnerCompletes(req, patched.doc.status) {
        CompletionKeepsLevels(db, id, actor, patched, req, clock);
      }
    }
  }

  /** Both completion branches credit at most the actor, with a recomputed level. */
  lemma CompletionKeepsLevels(db: Db, id: ObjectId, actor: ObjectId, patched: Draft, req: OwnerRequest, clock: Clock)
    requires AllLevelsConsistent(db.users)
    ensures AllLevelsConsistent(OwnerCompletion(db, id, actor, patched, req, clock).db.users)
    ensures AllLevelsConsistent(OwnerCompletionAsWritten(db, id, actor, patched, req, clock).db.users)
  {
  }

  // ---------------------------------------------------------------------------------------
  // DELETE /:id
  // ---------------------------------------------------------------------------------------

  /** DELETE /:id by `actor`: the soft delete, which only marks the pickup cancelled. */
  method CancelPickup(db: Db, id: ObjectId, actor: ObjectId, clock: Clock) returns (r: Outcome<()>)
    ensures id !in db.pickups ==> r == Outcome(db, Failure(NotFound))
    ensures id in db.pickups && db.pickups[id].owner != actor ==> r == Outcome(db, Failure(NotAuthorized))
    ensures PickupsValid(db.pickups) && id in db.pickups && db.pickups[id].owner == actor ==>
      r == Outcome(db.(pickups := db.pickups[id := db.pickups[id].(status := Cancelled)]), Success(()))
  {
    if id !in db.pickups {
      return Outcome(db, Failure(NotFound));
    }
    var pickup := db.pickups[id];
    if pickup.owner != actor {
      return Outcome(db, Failure(NotAuthorized));
    }
    pickup := pickup.(status := Cancelled);
    var saved := SavePickup(db, id, pickup, clock.year);
    if saved.Failure? {
      return Outcome(db, Failure(saved.error));
    }
    r := Outcome(saved.value, Success(()));
    if PickupsValid(db.pickups) {
      ResaveStored(db, id, pickup, clock.year);
    }
  }

  // ---------------------------------------------------------------------------------------
  // GET /stats: the recycling trend
  // ---------------------------------------------------------------------------------------

  /** The weight collected over a month's completed pickups (`p.actualWeight || 0`, summed). */
  function Recycled(ps: seq<Pickup>): real {
    if ps == [] then 0.0 else Recycled(ps[..|ps| - 1]) + ps[|ps| - 1].actualWeight
  }

  /** The total over two runs of pickups is the sum of their totals. */
  lemma {:induction false} RecycledAppend(a: seq<Pickup>, b: seq<Pickup>)
    ensures Recycled(a + b) == Recycled(a) + Recycled(b)
    decreases |b|
  {
    if b == [] {
      assert a + b == a;
    } else {
      assert (a + b)[..|a + b| - 1] == a + b[..|b| - 1];
      RecycledAppend(a, b[..|b| - 1]);
    }
  }

  lemma {:induction false} RecycledNonNegative(ps: seq<Pickup>)
    requires forall i :: 0 <= i < |ps| ==> ps[i].actualWeight >= 0.0
    ensures Recycled(ps) >= 0.0
    decreases |ps|
  {
    if ps != [] {
      RecycledNonNegative(ps[..|ps| - 1]);
    }
  }

  /**
   * The percentage change from last month to this month, rounded; 100 when only this month
   * recycled anything, 0 when neither did.
   */
  function RecycledTrend(thisMonth: real, lastMonth: real): (t: int)
    ensures lastMonth <= 0.0 ==> t == (if thisMonth > 0.0 then 100 else 0)
  {
    if lastMonth > 0.0 then Round((thisMonth - lastMonth) / lastMonth * 100.0)
    else if thisMonth > 0.0 then 100 else 0
  }

  /**
   * The trend's sign follows the change: up means more was recycled, down means less,
   * equal months give 0, and with nothing negative it never falls below -100.
   */
  lemma TrendFollowsChange(thisMonth: real, lastMonth: real)
    requires lastMonth > 0.0
    ensures RecycledTrend(thisMonth, lastMonth) > 0 ==> thisMonth > lastMonth
    ensures RecycledTrend(thisMonth, lastMonth) < 0 ==> thisMonth < lastMonth
    ensures thisMonth == lastMonth ==> RecycledTrend(thisMonth, lastMonth) == 0
    ensures thisMonth >= 0.0 ==> RecycledTrend(thisMonth, lastMonth) >= -100
  {
    var x := (thisMonth - lastMonth) / lastMonth;
    assert x * lastMonth == thisMonth - lastMonth;
    assert (x + 1.0) * lastMonth == thisMonth;
    SignOfFactor(x + 1.0, lastMonth);
    SignOfFactor(x, lastMonth);
  }

  /** With a positive second factor, the product has the first factor's sign. */
  lemma SignOfFactor(a: real, b: real)
    requires b > 0.0
    ensures a * b >= 0.0 <==> a >= 0.0
    ensures a * b > 0.0 <==> a > 0.0
  {
  }

  /** `${t >= 0 ? '+' : ''}${t}%`. */
  function TrendText(t: int): (s: string)
    ensures |s| >= 2 && s[|s| - 1] == '%'
    ensures (s[0] == '+') <==> t >= 0
    ensures (s[0] == '-') <==> t < 0
  {
    (if t >= 0 then "+" else "") + IntToString(t) + "%"
  }

  /** Reads a trend text back; the partner of TrendText. */
  function ParseTrendText(s: string): Option<int> {
    if |s| < 3 || s[|s| - 1] != '%' || (s[0] != '+' && s[0] != '-') then None
    else
      var digits := s[1..|s| - 1];
      if !AllDigits(digits) then None
      else
        var n: int := ParseDigits(digits);
        if s[0] == '+' then Some(n) else Some(-n)
  }

  lemma TrendTextRoundTrip(t: int)
    ensures ParseTrendText(TrendText(t)) == Some(t)
  {
    var s := TrendText(t);
    if t >= 0 {
      assert s == "+" + NatToString(t) + "%";
      assert s[1..|s| - 1] == NatToString(t);
      ParseNatToString(t);
    } else {
      assert s == "-" + NatToString(-t) + "%";
      assert s[1..|s| - 1] == NatToString(-t);
      ParseNatToString(-t);
    }
  }
}
