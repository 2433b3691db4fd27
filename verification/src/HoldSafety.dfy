/** What the calendar worker and the owner keep together. */
module HoldSafety {
  import opened Prelude
  import opened Rows
  import opened WorkspaceTheorems
  import opened HoldProtocol
  import opened HoldMappings

  /** A held mapping is due to one deletion, and held until that deletion's receipt expires. */
  predicate CauseFits(mappings: Mappings, deletes: DeleteReceipts, m: Id, cause: (Id, int)) {
    && IsHeld(mappings, m)
    && mappings[m].hold.until == Some(cause.1) && mappings[m].canonical.None? && mappings[m].flags.deleted
    && (cause.0 in deletes ==>
          Names(deletes[cause.0], m) && deletes[cause.0].expires == cause.1 && deletes[cause.0].snapshot.core.event.Some?)
  }

  ghost predicate Causes(mappings: Mappings, deletes: DeleteReceipts, cause: map<Id, (Id, int)>) {
    && (forall m :: m in cause ==> CauseFits(mappings, deletes, m, cause[m]))
    && (forall m :: IsHeld(mappings, m) ==> m in cause)
  }

  /** A deletion that is past undoing: not undone, and its receipt gone or expired. */
  predicate Past(db: Db, restored: set<Id>, r: Id) {
    r < db.clock.next && r !in restored && (r in db.undo.deletes ==> db.undo.deletes[r].expires <= db.clock.now)
  }

  ghost predicate Logged(db: Db, log: Log) {
    && (forall m :: m in log.cause ==> log.cause[m].0 < db.clock.next && log.cause[m].0 !in log.restored)
    && (forall r :: r in log.sent ==> Past(db, log.restored, r))
    && (forall r :: r in log.restored ==> r < db.clock.next && r !in db.undo.deletes)
  }

  /** A hold on a mapping that is about to be pushed has ended. */
  predicate HoldEnded(db: Db, m: Id) {
    IsHeld(db.cal.mappings, m) ==> db.cal.mappings[m].hold.until.Some? && db.cal.mappings[m].hold.until.value <= db.clock.now
  }

  predicate ItemFits(db: Db, log: Log, m: Id, item: Item) {
    && (item.cause.Some? ==> Past(db, log.restored, item.cause.value))
    && HoldEnded(db, m) && (IsHeld(db.cal.mappings, m) ==> item.row.flags.deleted)
  }

  ghost predicate ActFits(db: Db, log: Log, act: Act) {
    match act
    case Free => true
    case Applying(m, read, seen) => m in db.cal.mappings ==> db.cal.mappings[m].hold == read.hold
    case Warned(m, flagged) => true
    case Pushing(items) => forall m :: m in items ==> ItemFits(db, log, m, items[m])
    case Answered(items, m, written) =>
      && (forall k :: k in items ==> ItemFits(db, log, k, items[k]))
      && HoldEnded(db, m) && (IsHeld(db.cal.mappings, m) ==> written.None?)
  }

  ghost predicate HoldInv(w: World) {
    && Inv(w.db)
    && Causes(w.db.cal.mappings, w.db.undo.deletes, w.log.cause)
    && Logged(w.db, w.log)
    && (w.worker.Busy? ==> ActFits(w.db, w.log, w.worker.act))
  }

  // ---- what a change of the database must respect ----

  /** Receipts only go, unless written anew; time and ids only grow. */
  ghost predicate Onward(db: Db, after: Db) {
    && db.clock.now <= after.clock.now && db.clock.next <= after.clock.next
    && (forall r :: r in after.undo.deletes && r < db.clock.next ==> r in db.undo.deletes && after.undo.deletes[r] == db.undo.deletes[r])
  }

  lemma CausesByKeeping(before: Mappings, after: Mappings, deletes: DeleteReceipts, fewer: DeleteReceipts, cause: map<Id, (Id, int)>)
    requires Causes(before, deletes, cause) && MappingsKeep(before, after)
    requires forall m :: m in cause && cause[m].0 in fewer ==> cause[m].0 in deletes && fewer[cause[m].0] == deletes[cause[m].0]
    ensures Causes(after, fewer, Settled(cause, after))
  {
    forall m | m in Settled(cause, after)
      ensures CauseFits(after, fewer, m, cause[m])
    {
      assert CauseFits(before, deletes, m, cause[m]);
      assert RowKept(before[m], after[m]);
    }
    forall m | IsHeld(after, m)
      ensures m in Settled(cause, after)
    {
      assert RowKept(before[m], after[m]);
      assert IsHeld(before, m);
    }
  }

  lemma LoggedOnward(db: Db, after: Db, log: Log)
    requires Logged(db, log) && Onward(db, after)
    ensures Logged(after, log.(cause := Settled(log.cause, after.cal.mappings)))
  {
  }

  lemma ActOnward(db: Db, after: Db, log: Log, act: Act)
    requires ActFits(db, log, act) && Onward(db, after) && MappingsKeep(db.cal.mappings, after.cal.mappings)
    ensures ActFits(after, log, act)
    ensures ActFits(after, log.(cause := Settled(log.cause, after.cal.mappings)), act)
  {
    match act
    case Applying(m, read, seen) =>
      if m in after.cal.mappings {
        assert RowKept(db.cal.mappings[m], after.cal.mappings[m]);
      }
    case Pushing(items) =>
      forall m | m in items
        ensures ItemFits(after, log, m, items[m])
      {
        ItemOnward(db, after, log, m, items[m]);
      }
    case Answered(items, k, written) =>
      forall m | m in items
        ensures ItemFits(after, log, m, items[m])
      {
        ItemOnward(db, after, log, m, items[m]);
      }
      if IsHeld(after.cal.mappings, k) {
        assert RowKept(db.cal.mappings[k], after.cal.mappings[k]);
      }
    case _ =>
  }

  lemma ItemOnward(db: Db, after: Db, log: Log, m: Id, item: Item)
    requires ItemFits(db, log, m, item) && Onward(db, after) && MappingsKeep(db.cal.mappings, after.cal.mappings)
    ensures ItemFits(after, log, m, item)
  {
    if IsHeld(after.cal.mappings, m) {
      assert RowKept(db.cal.mappings[m], after.cal.mappings[m]);
    }
  }
}
