/**
 * The pickup lifecycle across the interface and the server: the administrator's buttons
 * offer a small forward-only state machine, while the server routes accept any named status
 * from any status, so a transition the buttons never offer still earns points.
 */
module Lifecycle {
  import opened Wrappers
  import opened Numbers
  import opened Pickups
  import opened Store
  import opened AdminRoutes
  import opened PickupRoutes
  import opened PickupManagement

  /** Reopening a pickup as `pending` rewrites its status and nothing else. */
  lemma AdminReopen(db: Db, id: ObjectId, clock: Clock)
    requires PickupsValid(db.pickups) && id in db.pickups
    ensures var r := AdminUpdateSpec(db, id, PickupUpdate("pending", None), clock);
            r.reply.Success? && r.db.users == db.users &&
            r.db.pickups == db.pickups[id := db.pickups[id].(status := Pending)] &&
            PickupsValid(r.db.pickups)
  {
    var req := PickupUpdate("pending", None);
    AdminUpdateSucceeds(db, id, req, clock);
    ResaveStored(db, id, db.pickups[id].(status := Pending), clock.year);
    AdminKeepsValid(db, id, req, clock);
  }

  /**
   * No button leads out of `cancelled`, yet the administrator route completes a cancelled
   * pickup and credits its owner with the points.
   */
  lemma CancelledCanBeCompleted(db: Db, id: ObjectId, clock: Clock)
    requires PickupsValid(db.pickups) && id in db.pickups && db.pickups[id].status == Cancelled
    requires db.pickups[id].owner in db.users
    ensures DetailActions(Cancelled) == {} && QuickActions(Cancelled) == {}
    ensures var p := db.pickups[id];
            var r := AdminUpdateSpec(db, id, PickupUpdate("completed", None), clock);
            r.reply.Success? && r.reply.value.status == Completed &&
            r.reply.value.ecoPointsEarned == Points(p.wasteType, p.estimatedWeight) &&
            r.db.users[p.owner].ecoPoints == db.users[p.owner].ecoPoints + Points(p.wasteType, p.estimatedWeight)
  {
    AdminAwardOnCompletion(db, id, PickupUpdate("completed", None), clock);
  }

  /**
   * The buttons enter `completed` at most once, but the administrator route can reopen a
   * completed pickup and complete it again, and the owner is credited a second time.
   */
  lemma ReopenAwardsTwice(db: Db, id: ObjectId, c1: Clock, c2: Clock)
    requires PickupsValid(db.pickups) && id in db.pickups && db.pickups[id].status == Completed
    requires db.pickups[id].owner in db.users
    ensures !OfferedPath([Completed, Pending, Completed])
    ensures var p := db.pickups[id];
            var r1 := AdminUpdateSpec(db, id, PickupUpdate("pending", None), c1);
            var r2 := AdminUpdateSpec(r1.db, id, PickupUpdate("completed", None), c2);
            r2.reply.Success? && r2.reply.value.status == Completed &&
            r2.db.users[p.owner].ecoPoints == db.users[p.owner].ecoPoints + Points(p.wasteType, p.estimatedWeight)
  {
    assert [Completed, Pending, Completed][1] !in DetailActions([Completed, Pending, Completed][0]);
    var r1 := AdminUpdateSpec(db, id, PickupUpdate("pending", None), c1);
    AdminReopen(db, id, c1);
    assert r1.db.pickups[id] == db.pickups[id].(status := Pending);
    AdminAwardOnCompletion(r1.db, id, PickupUpdate("completed", None), c2);
  }

  /** The owner route, too, completes a cancelled pickup and credits it. */
  lemma OwnerCompletesCancelled(db: Db, id: ObjectId, actor: ObjectId, req: OwnerRequest, clock: Clock)
    requires PickupsValid(db.pickups) && id in db.pickups && db.pickups[id].owner == actor && actor in db.users
    requires db.pickups[id].status == Cancelled && req.status == "completed"
    requires CompletionValid(db.pickups[id], req)
    ensures var r := OwnerUpdateSpec(db, id, actor, req, clock);
            var patched := OwnerPatch(db.pickups[id], req).doc;
            r.reply.Success? && r.reply.value.status == Completed &&
            r.db.users[actor].ecoPoints ==
              db.users[actor].ecoPoints + Points(patched.wasteType, CollectedWeight(req, patched))
  {
    OwnerAwardOnCompletion(db, id, actor, req, clock);
  }

  /**
   * The two completion paths credit the same points and weight for the same collected weight,
   * but the administrator's carbon estimate (2.5 per kg) is always larger than the owner's
   * (0.7 per kg, rounded).
   */
  lemma AdminCreditsMoreCarbon(u: User, points: int, weight: real)
    requires weight > 0.0
    ensures AdminCredit(u, points, weight).ecoPoints == OwnerCredit(u, points, weight).ecoPoints
    ensures AdminCredit(u, points, weight).totalRecycled == OwnerCredit(u, points, weight).totalRecycled
    ensures AdminCredit(u, points, weight).level == OwnerCredit(u, points, weight).level
    ensures AdminCredit(u, points, weight).carbonOffset > OwnerCredit(u, points, weight).carbonOffset
  {
    var k := Round(weight * 0.7);
    if weight < 5.0 / 7.0 {
      assert weight * 0.7 + 0.5 < 1.0;
      assert k == 0;
    } else {
      assert (k as real) <= weight * 0.7 + 0.5 < weight * 2.5;
    }
  }
}
