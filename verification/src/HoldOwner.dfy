/** The owner's transactions keep what the calendar worker relies on. */
module HoldOwner {
  import opened Prelude
  import opened Rows
  import opened RecurrenceLineage
  import opened Transactions
  import opened DeleteUndo
  import opened DeleteRoundTrip
  import opened Moves
  import opened Workspace
  import opened GraphSteps
  import opened WorkspaceTheorems
  import opened HoldProtocol
  import opened HoldMappings
  import opened HoldSafety

  ghost predicate Fewer(deletes: DeleteReceipts, after: DeleteReceipts) {
    forall r :: r in after ==> r in deletes && after[r] == deletes[r]
  }

  /** A transaction that writes no receipt and keeps the mappings. */
  lemma HoldByKeeping(w: World, after: Db)
    requires HoldInv(w) && Inv(after) && Fewer(w.db.undo.deletes, after.undo.deletes)
    requires w.db.clock.now <= after.clock.now && w.db.clock.next <= after.clock.next
    requires MappingsKeep(w.db.cal.mappings, after.cal.mappings)
    ensures NewCause(w.log.cause, w.db, after) == w.log.cause
    ensures HoldInv(World(after, w.worker, w.log.(cause := Settled(w.log.cause, after.cal.mappings))))
  {
    CausesByKeeping(w.db.cal.mappings, after.cal.mappings, w.db.undo.deletes, after.undo.deletes, w.log.cause);
    LoggedOnward(w.db, after, w.log);
    if w.worker.Busy? {
      ActOnward(w.db, after, w.log, w.worker.act);
    }
  }

  lemma TaskOnward(db: Db, step: TaskStep)
    requires Inv(db)
    ensures var after := NextTask(db, step);
            && Fewer(db.undo.deletes, after.undo.deletes) && db.clock.now <= after.clock.now && db.clock.next <= after.clock.next
            && MappingsKeep(db.cal.mappings, after.cal.mappings)
  {
    TaskStepLeaves(db, step);
    KeepByTask(db, step);
    TaskKeepsTime(db, step);
  }

  lemma TaskKeepsTime(db: Db, step: TaskStep)
    requires Lines(db.tasks)
    ensures NextTask(db, step).clock.now == db.clock.now
  {
    match step
    case EditTask(t, request, scope, block) =>
      if UpdateTask(db, t, request, scope, block).Ok? {
        var task := db.tasks[t];
        if task.Done() && !request.status.Completed? {
          assert t !in SuccessorsOf(db.tasks, t) by {
            assert t in SuccessorsOf(db.tasks, t) ==> SourceDone(db.tasks, t, t);
          }
        }
      }
    case _ =>
  }

  lemma EventOnward(db: Db, step: EventStep)
    ensures var after := NextEvent(db, step);
            && Fewer(db.undo.deletes, after.undo.deletes) && db.clock.now <= after.clock.now && db.clock.next <= after.clock.next
            && MappingsKeep(db.cal.mappings, after.cal.mappings)
  {
    EventStepLeaves(db, step);
    KeepByEvent(db, step);
    EventKeepsTime(db, step);
  }

  lemma EventKeepsTime(db: Db, step: EventStep)
    ensures NextEvent(db, step).clock.now == db.clock.now
  {
  }

  /** Undo steps other than a reversible deletion and its undo. */
  lemma MoveOnward(db: Db, step: UndoStep)
    requires step.MoveItemTo? || step.UndoMoveOf? || step.Forget?
    ensures var after := NextUndo(db, step);
            && Fewer(db.undo.deletes, after.undo.deletes) && db.clock.now <= after.clock.now && db.clock.next <= after.clock.next
            && MappingsKeep(db.cal.mappings, after.cal.mappings)
  {
    match step
    case MoveItemTo(item, isTask, request, swept) =>
      if MoveItem(db, item, isTask, request, swept).Ok? {
        MovesLeave(db, item, isTask, request, swept);
        KeepByMove(db, item, isTask, request, swept);
      }
    case UndoMoveOf(r, swept) =>
      if UndoMove(db, r, swept).Ok? {
        UndoMoveLeaves(db, r, swept);
        KeepByUndoMove(db, r, swept);
      }
    case Forget(deletes, moves) =>
  }

  ghost predicate Plain(step: Step) {
    !(step.OnUndo? && (step.u.DeleteTaskReversibly? || step.u.UndoDeletion?))
  }

  lemma OtherOnward(db: Db, step: OtherStep)
    requires step.Elsewhere? ==> step.mappings == db.cal.mappings
    ensures var after := NextOther(db, step);
            && Fewer(db.undo.deletes, after.undo.deletes) && db.clock.now <= after.clock.now && db.clock.next <= after.clock.next
            && MappingsKeep(db.cal.mappings, after.cal.mappings)
  {
  }

  lemma PlainOnward(db: Db, step: Step)
    requires Inv(db) && Plain(step)
    ensures var after := Next(db, Tame(db, step));
            && Inv(after)
            && Fewer(db.undo.deletes, after.undo.deletes) && db.clock.now <= after.clock.now && db.clock.next <= after.clock.next
            && MappingsKeep(db.cal.mappings, after.cal.mappings)
  {
    var tame := Tame(db, step);
    InvKept(db, tame);
    match tame
    case OnTasks(t) => TaskOnward(db, t);
    case OnEvents(e) => EventOnward(db, e);
    case OnUndo(u) => MoveOnward(db, u);
    case Other(o) => OtherOnward(db, o);
  }

  lemma OwnerIs(w: World, step: Step, after: Db)
    requires Plain(step) && !(NeedsLock(step) && w.worker.Busy?) && after == Next(w.db, Tame(w.db, step))
    requires NewCause(w.log.cause, w.db, after) == w.log.cause
    ensures NextOwner(w, step) == World(after, w.worker, w.log.(cause := Settled(w.log.cause, after.cal.mappings)))
  {
    assert NewlyRestored(step, w.db, after) == {};
  }

  lemma HoldByPlain(w: World, step: Step)
    requires HoldInv(w) && Plain(step)
    ensures HoldInv(NextOwner(w, step))
  {
    if !(NeedsLock(step) && w.worker.Busy?) {
      var after := Next(w.db, Tame(w.db, step));
      assert NewCause(w.log.cause, w.db, after) == w.log.cause
          && HoldInv(World(after, w.worker, w.log.(cause := Settled(w.log.cause, after.cal.mappings)))) by {
        PlainOnward(w.db, step);
        HoldByKeeping(w, after);
      }
      OwnerIs(w, step, after);
    }
  }

  // ---- a reversible deletion ----

  /** The mappings a deletion leaves: one is held, the others are kept. */
  ghost predicate HeldNow(before: Mappings, after: Mappings, m: Option<Id>, expires: int) {
    && (forall k :: k in after && m != Some(k) ==> k in before && RowKept(before[k], after[k]))
    && (m.Some? ==>
          && m.value in before && m.value in after && !IsHeld(before, m.value)
          && after[m.value].hold == Hold(Some(expires), true) && after[m.value].canonical.None? && after[m.value].flags.deleted)
  }

  lemma BaseMappings(before: Db, t: Id, base: Db, s: Snapshot, k: Id)
    requires t in before.tasks && Base(before, base, t, s) && MappingId(before, t) != Some(k)
    ensures k in base.cal.mappings ==> k in before.cal.mappings && base.cal.mappings[k] == before.cal.mappings[k]
  {
    if MappingId(before, t).Some? {
      TakenMapping(before, t);
      RepairedMapping(Taken(before, t));
    }
  }

  lemma HeldByTables(before: Mappings, base: Mappings, m: Option<Id>, expires: int, gone: set<Id>)
    requires forall k :: k in base && m != Some(k) ==> k in before && base[k] == before[k]
    requires m.Some? ==> m.value in base && m.value in before && !IsHeld(before, m.value)
    ensures HeldNow(before, CutMappings(HoldMapping(base, m, expires), gone), m, expires)
  {
    var held := HoldMapping(base, m, expires);
    var after := CutMappings(held, gone);
    if m.Some? {
      var h := m.value;
      assert held[h] == Held(base[h], expires);
      assert after[h] == held[h].(canonical := Cut(held[h].canonical, gone));
    }
  }

  lemma BaseDiffersInOne(before: Db, t: Id, base: Db, s: Snapshot)
    requires t in before.tasks && Base(before, base, t, s) && WasClean(before, t)
    ensures var m := MappingId(before, t);
            && (forall k :: k in base.cal.mappings && m != Some(k) ==> k in before.cal.mappings && base.cal.mappings[k] == before.cal.mappings[k])
            && (m.Some? ==> m.value in base.cal.mappings && m.value in before.cal.mappings && !IsHeld(before.cal.mappings, m.value))
  {
    var m := MappingId(before, t);
    if m.Some? {
      CleanBrief(before, t);
      BaseHas(before, t, base, s);
    }
    forall k | k in base.cal.mappings && m != Some(k)
      ensures k in before.cal.mappings && base.cal.mappings[k] == before.cal.mappings[k]
    {
      BaseMappings(before, t, base, s, k);
    }
  }

  lemma MappingsAfterDelete(before: Db, t: Id, base: Db, s: Snapshot, after: Db)
    requires Happened(before, t, base, s, after)
    ensures HeldNow(before.cal.mappings, after.cal.mappings, MappingId(before, t), before.clock.now + UNDO_WINDOW)
  {
    var m := MappingId(before, t);
    var gone := EventsOf(base.cal.events, {s.core.id});
    var expires := base.clock.now + UNDO_WINDOW;
    BaseDiffersInOne(before, t, base, s);
    HeldByTables(before.cal.mappings, base.cal.mappings, m, expires, gone);
    assert after.cal.mappings == CutMappings(HoldMapping(base.cal.mappings, m, expires), gone) by {
      DeletedTables(base, s, m);
    }
    assert expires == before.clock.now + UNDO_WINDOW by {
      BaseTables(before, t, base, s);
    }
  }

  lemma CleanBrief(db: Db, t: Id)
    requires WasClean(db, t) && MappingId(db, t).Some?
    ensures MappingId(db, t).value in db.cal.mappings && !IsHeld(db.cal.mappings, MappingId(db, t).value)
  {
  }

  lemma BaseHas(before: Db, t: Id, base: Db, s: Snapshot)
    requires t in before.tasks && Base(before, base, t, s) && MappingId(before, t).Some?
    ensures MappingId(before, t).value in base.cal.mappings
  {
    TakenMapping(before, t);
    RepairedMapping(Taken(before, t));
  }

  /** The receipt names the mapping that is held. */
  lemma ReceiptNames(before: Db, t: Id, base: Db, s: Snapshot, after: Db)
    requires Happened(before, t, base, s, after)
    ensures before.clock.next in after.undo.deletes
    ensures var core := after.undo.deletes[before.clock.next].snapshot.core;
            if MappingId(before, t).Some?
            then core.mapping.Some? && core.mapping.value.0 == MappingId(before, t).value && core.event.Some?
            else core.mapping.None?
  {
    ReceiptOf(before, t, base, s, after);
    if MappingId(before, t).Some? {
      CleanBrief(before, t);
      TakenMapping(before, t);
      RepairedIs(Taken(before, t));
    } else {
      NoMapping(before, t, base, s);
    }
  }

  lemma NoMapping(before: Db, t: Id, base: Db, s: Snapshot)
    requires t in before.tasks && Base(before, base, t, s) && MappingId(before, t).None?
    ensures s.core.mapping.None?
  {
  }

  lemma CausesByHolding(before: Mappings, after: Mappings, deletes: DeleteReceipts, more: DeleteReceipts,
                        cause: map<Id, (Id, int)>, m: Option<Id>, r: Id, expires: int)
    requires Causes(before, deletes, cause) && HeldNow(before, after, m, expires)
    requires r in more && more[r].expires == expires && (m.Some? ==> Names(more[r], m.value) && more[r].snapshot.core.event.Some?)
    requires forall k :: k in cause ==> cause[k].0 != r && (cause[k].0 in more ==> cause[k].0 in deletes && more[cause[k].0] == deletes[cause[k].0])
    ensures Causes(after, more, Settled(if m.Some? then cause[m.value := (r, expires)] else cause, after))
  {
    var grown := if m.Some? then cause[m.value := (r, expires)] else cause;
    forall k | k in Settled(grown, after)
      ensures CauseFits(after, more, k, grown[k])
    {
      if m != Some(k) {
        assert CauseFits(before, deletes, k, cause[k]);
        assert RowKept(before[k], after[k]);
      }
    }
    forall k | IsHeld(after, k)
      ensures k in Settled(grown, after)
    {
      if m != Some(k) {
        assert RowKept(before[k], after[k]);
        assert IsHeld(before, k);
      }
    }
  }

  /** What a deletion does, as far as holds are concerned. */
  ghost predicate DeletionHolds(db: Db, after: Db, m: Option<Id>) {
    var r := db.clock.next;
    && after.clock.next == r + 1 && after.clock.now == db.clock.now
    && r in after.undo.deletes && after.undo.deletes == db.undo.deletes[r := after.undo.deletes[r]]
    && after.undo.deletes[r].expires == db.clock.now + UNDO_WINDOW
    && (if m.Some? then Names(after.undo.deletes[r], m.value) && after.undo.deletes[r].snapshot.core.event.Some?
        else after.undo.deletes[r].snapshot.core.mapping.None?)
    && HeldNow(db.cal.mappings, after.cal.mappings, m, db.clock.now + UNDO_WINDOW)
  }

  lemma DeletionIsHold(db: Db, t: Id, expected: int, validated: Option<Snapshot>, after: Db)
    requires Deletes(db, t, expected, validated, after)
    ensures DeletionHolds(db, after, MappingId(db, t))
  {
    var base, s := DeletionIs(db, t, expected, validated, after);
    TablesAfter(db, t, base, s, after);
    BaseTables(db, t, base, s);
    ReceiptOf(db, t, base, s, after);
    ReceiptNames(db, t, base, s, after);
    MappingsAfterDelete(db, t, base, s, after);
  }

  lemma LoggedByDeletion(db: Db, after: Db, m: Option<Id>, log: Log)
    requires Logged(db, log) && DeletionHolds(db, after, m) && db.clock.next !in db.undo.deletes
    ensures Logged(after, log.(cause := Settled(NewCause(log.cause, db, after), after.cal.mappings)))
  {
  }

  lemma HoldByDeletion(w: World, after: Db, m: Option<Id>)
    requires HoldInv(w) && w.worker.Idle? && Inv(after) && DeletionHolds(w.db, after, m)
    ensures HoldInv(World(after, w.worker, w.log.(cause := Settled(NewCause(w.log.cause, w.db, after), after.cal.mappings))))
  {
    var r := w.db.clock.next;
    assert r !in w.db.undo.deletes by {
      assert GraphOf(w.db);
    }
    LoggedByDeletion(w.db, after, m, w.log);
    CausesByHolding(w.db.cal.mappings, after.cal.mappings, w.db.undo.deletes, after.undo.deletes, w.log.cause, m, r,
                    w.db.clock.now + UNDO_WINDOW);
  }

  // ---- its undo ----

  /** What an undo does, as far as holds are concerned. */
  ghost predicate UndoReleases(db: Db, r: Id, after: Db) {
    && r in db.undo.deletes && Active(db.undo.deletes[r].expires, db.clock.now)
    && after.undo.deletes == db.undo.deletes - {r} && after.clock == db.clock
    && (forall k :: k in after.cal.mappings ==>
          k in db.cal.mappings && (after.cal.mappings[k] == db.cal.mappings[k] || Names(db.undo.deletes[r], k)))
    && (forall k :: Names(db.undo.deletes[r], k) && db.undo.deletes[r].snapshot.core.event.Some? ==> !IsHeld(after.cal.mappings, k))
    && (forall k :: Names(db.undo.deletes[r], k) && k in after.cal.mappings ==>
          after.cal.mappings[k] == db.cal.mappings[k] || !IsHeld(after.cal.mappings, k))
  }

  lemma UndoIsRelease(db: Db, r: Id, provider: Option<AppError>)
    requires UndoDelete(db, r, provider).Ok?
    ensures UndoReleases(db, r, UndoDelete(db, r, provider).value)
  {
    UndoLeaves(db, r, provider);
  }

  lemma CausesByRelease(db: Db, r: Id, after: Db, cause: map<Id, (Id, int)>)
    requires Causes(db.cal.mappings, db.undo.deletes, cause) && UndoReleases(db, r, after)
    ensures Causes(after.cal.mappings, after.undo.deletes, Settled(cause, after.cal.mappings))
    ensures forall m :: m in Settled(cause, after.cal.mappings) ==> cause[m].0 != r
  {
    var mappings := after.cal.mappings;
    forall m | m in Settled(cause, mappings)
      ensures CauseFits(mappings, after.undo.deletes, m, cause[m]) && cause[m].0 != r
    {
      assert CauseFits(db.cal.mappings, db.undo.deletes, m, cause[m]);
    }
    forall m | IsHeld(mappings, m)
      ensures m in cause
    {
      assert IsHeld(db.cal.mappings, m);
    }
  }

  lemma LoggedByRelease(db: Db, r: Id, after: Db, log: Log)
    requires Logged(db, log) && UndoReleases(db, r, after) && r < db.clock.next
    requires forall m :: m in Settled(log.cause, after.cal.mappings) ==> log.cause[m].0 != r
    ensures Logged(after, log.(cause := Settled(log.cause, after.cal.mappings), restored := log.restored + {r}))
  {
  }

  lemma HoldByRelease(w: World, r: Id, after: Db)
    requires HoldInv(w) && w.worker.Idle? && Inv(after) && UndoReleases(w.db, r, after)
    ensures HoldInv(World(after, w.worker, w.log.(cause := Settled(w.log.cause, after.cal.mappings), restored := w.log.restored + {r})))
  {
    CausesByRelease(w.db, r, after, w.log.cause);
    assert r < w.db.clock.next by {
      assert GraphOf(w.db);
    }
    LoggedByRelease(w.db, r, after, w.log);
  }

  // ---- any transaction ----

  lemma DeleteTransactionIs(db: Db, t: Id, expected: int, validated: Option<Snapshot>)
    ensures var outcome := DeleteReversibly(db, t, expected, validated);
            NextUndo(db, DeleteTaskReversibly(t, expected, validated)) ==
              if outcome.Ok? && outcome.value.Done? then outcome.value.db else db
  {
  }

  ghost function CommittedBy(w: World, after: Db): World {
    World(after, w.worker, w.log.(cause := Settled(NewCause(w.log.cause, w.db, after), after.cal.mappings)))
  }

  /** A step that is not an undo restores nothing. */
  lemma NothingRestored(w: World, step: UndoStep)
    requires w.worker.Idle? && !step.UndoDeletion?
    ensures Next(w.db, OnUndo(step)) == NextUndo(w.db, step)
    ensures NextOwner(w, OnUndo(step)) == CommittedBy(w, NextUndo(w.db, step))
  {
    assert w.log.restored + {} == w.log.restored;
    assert Tame(w.db, OnUndo(step)) == OnUndo(step);
  }

  lemma UndoStepIs(w: World, r: Id, provider: Option<AppError>)
    requires w.worker.Idle?
    ensures var step := OnUndo(UndoDeletion(r, provider));
            var after := Commit(w.db, UndoDelete(w.db, r, provider));
            && Next(w.db, step) == after
            && NextOwner(w, step) == World(after, w.worker, w.log.(
                 cause := Settled(NewCause(w.log.cause, w.db, after), after.cal.mappings),
                 restored := w.log.restored + NewlyRestored(step, w.db, after)))
  {
    assert Tame(w.db, OnUndo(UndoDeletion(r, provider))) == OnUndo(UndoDeletion(r, provider));
  }
}
