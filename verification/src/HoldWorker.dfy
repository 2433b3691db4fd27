/** The calendar worker's statements, and the resolution of conflicts, keep what the owner's
    undo relies on. */
module HoldWorker {
  import opened Prelude
  import opened Rows
  import opened RecurrenceLineage
  import opened DeleteUndo
  import opened DeleteRoundTrip
  import opened Workspace
  import opened WorkspaceTheorems
  import opened HoldProtocol
  import opened HoldSafety
  import opened HoldOwner

  // ---- reversible deletion and its undo, as steps ----

  lemma HoldByDeleteOutcome(w: World, t: Id, expected: int, validated: Option<Snapshot>)
    requires HoldInv(w) && w.worker.Idle? && Inv(NextUndo(w.db, DeleteTaskReversibly(t, expected, validated)))
    ensures HoldInv(CommittedBy(w, NextUndo(w.db, DeleteTaskReversibly(t, expected, validated))))
  {
    DeleteTransactionIs(w.db, t, expected, validated);
    var outcome := DeleteReversibly(w.db, t, expected, validated);
    if outcome.Ok? && outcome.value.Done? {
      var after := outcome.value.db;
      DeletionIsHold(w.db, t, expected, validated, after);
      HoldByDeletion(w, after, MappingId(w.db, t));
    } else {
      HoldByKeeping(w, w.db);
    }
  }

  lemma HoldByDeleteStep(w: World, t: Id, expected: int, validated: Option<Snapshot>)
    requires HoldInv(w) && w.worker.Idle?
    ensures HoldInv(NextOwner(w, OnUndo(DeleteTaskReversibly(t, expected, validated))))
  {
    var step := DeleteTaskReversibly(t, expected, validated);
    NothingRestored(w, step);
    InvKept(w.db, OnUndo(step));
    HoldByDeleteOutcome(w, t, expected, validated);
  }

  lemma HoldByUndoStep(w: World, r: Id, provider: Option<AppError>)
    requires HoldInv(w) && w.worker.Idle?
    ensures HoldInv(NextOwner(w, OnUndo(UndoDeletion(r, provider))))
  {
    var step := OnUndo(UndoDeletion(r, provider));
    UndoStepIs(w, r, provider);
    if UndoDelete(w.db, r, provider).Ok? {
      var after := UndoDelete(w.db, r, provider).value;
      InvKept(w.db, step);
      UndoIsRelease(w.db, r, provider);
      HoldByRelease(w, r, after);
      assert NewCause(w.log.cause, w.db, after) == w.log.cause;
    } else {
      HoldByKeeping(w, w.db);
      assert w.log.restored + {} == w.log.restored;
    }
  }

  lemma HoldByOwner(w: World, step: Step)
    requires HoldInv(w)
    ensures HoldInv(NextOwner(w, step))
  {
    if Plain(step) {
      HoldByPlain(w, step);
    } else if w.worker.Idle? {
      match step.u
      case DeleteTaskReversibly(t, expected, validated) => HoldByDeleteStep(w, t, expected, validated);
      case UndoDeletion(r, provider) => HoldByUndoStep(w, r, provider);
    }
  }

  // ---- the worker ----

  /** A held mapping stays held as it is, apart from its conflict flag, or is not held any more. */
  ghost predicate HoldsKept(before: Mappings, after: Mappings) {
    forall m :: IsHeld(after, m) ==>
      && m in before && before[m].hold == after[m].hold
      && before[m].canonical == after[m].canonical && before[m].flags.deleted == after[m].flags.deleted
  }

  lemma InvByFewer(db: Db, deletes: DeleteReceipts)
    requires Inv(db) && Fewer(db.undo.deletes, deletes)
    ensures Inv(db.(undo := db.undo.(deletes := deletes)))
  {
    FewerReceiptsKeepLineage(db.tasks, db.undo.deletes, deletes);
  }

  lemma CausesByHoldsKept(before: Mappings, after: Mappings, deletes: DeleteReceipts, fewer: DeleteReceipts, cause: map<Id, (Id, int)>)
    requires Causes(before, deletes, cause) && HoldsKept(before, after) && Fewer(deletes, fewer)
    ensures Causes(after, fewer, Settled(cause, after))
  {
    forall m | m in Settled(cause, after)
      ensures CauseFits(after, fewer, m, cause[m])
    {
      assert CauseFits(before, deletes, m, cause[m]) && IsHeld(after, m);
      var r := cause[m].0;
      assert r in fewer ==> r in deletes && fewer[r] == deletes[r];
    }
    forall m | IsHeld(after, m)
      ensures m in Settled(cause, after)
    {
      assert IsHeld(before, m);
    }
  }

  /** The world after a statement of the worker that writes mappings and drops receipts. */
  function Worked(w: World, mappings: Mappings, deletes: DeleteReceipts, worker: Worker): World {
    World(w.db.(cal := w.db.cal.(mappings := mappings), undo := w.db.undo.(deletes := deletes)), worker,
          w.log.(cause := Settled(w.log.cause, mappings)))
  }

  lemma HoldByWorked(w: World, mappings: Mappings, deletes: DeleteReceipts, worker: Worker)
    requires HoldInv(w) && HoldsKept(w.db.cal.mappings, mappings) && Fewer(w.db.undo.deletes, deletes)
    requires worker.Busy? ==> ActFits(Worked(w, mappings, deletes, worker).db, w.log, worker.act)
    ensures HoldInv(Worked(w, mappings, deletes, worker))
  {
    var w' := Worked(w, mappings, deletes, worker);
    InvByFewer(w.db, deletes);
    CausesByHoldsKept(w.db.cal.mappings, mappings, w.db.undo.deletes, deletes, w.log.cause);
    LoggedOnward(w.db, w'.db, w.log);
    ActIgnoresCause(w'.db, w.log, w'.log.cause, worker);
  }

  lemma ActIgnoresCause(db: Db, log: Log, cause: map<Id, (Id, int)>, worker: Worker)
    requires worker.Busy? ==> ActFits(db, log, worker.act)
    ensures worker.Busy? ==> ActFits(db, log.(cause := cause), worker.act)
  {
  }

  lemma WithoutReceiptsAreFewer(deletes: DeleteReceipts, m: Id)
    ensures Fewer(deletes, WithoutReceiptsOf(deletes, m))
  {
  }

  lemma HoldByDropPulled(w: World)
    requires HoldInv(w)
    ensures HoldInv(StepDropPulled(w))
  {
    if AppliesTo(w) && w.worker.act.seen.cancelled {
      var m := w.worker.act.mapping;
      var deletes := if w.worker.act.read.hold.tombstone then WithoutReceiptsOf(w.db.undo.deletes, m) else w.db.undo.deletes;
      WithoutReceiptsAreFewer(w.db.undo.deletes, m);
      HoldByWorked(w, w.db.cal.mappings - {m}, deletes, Busy(Free));
    }
  }

  lemma HoldByWarn(w: World)
    requires HoldInv(w)
    ensures HoldInv(StepWarn(w))
  {
  }

  lemma HoldByFlag(w: World)
    requires HoldInv(w)
    ensures HoldInv(StepFlag(w))
  {
    if w.worker.Busy? && w.worker.act.Warned? && !w.worker.act.flagged && w.worker.act.mapping in w.db.cal.mappings {
      var m := w.worker.act.mapping;
      var row := w.db.cal.mappings[m];
      HoldByWorked(w, w.db.cal.mappings[m := row.(flags := row.flags.(conflict := true))], w.db.undo.deletes, Busy(Warned(m, true)));
    }
  }

  lemma HoldByDropReceipts(w: World)
    requires HoldInv(w)
    ensures HoldInv(StepDropReceipts(w))
  {
    if w.worker.Busy? && w.worker.act.Warned? && w.worker.act.flagged {
      var m := w.worker.act.mapping;
      var deletes := if IsHeld(w.db.cal.mappings, m) then WithoutReceiptsOf(w.db.undo.deletes, m) else w.db.undo.deletes;
      WithoutReceiptsAreFewer(w.db.undo.deletes, m);
      HoldByWorked(w, w.db.cal.mappings, deletes, Busy(Free));
      SettledIsAll(w);
    }
  }

  lemma SettledIsAll(w: World)
    requires HoldInv(w)
    ensures Settled(w.log.cause, w.db.cal.mappings) == w.log.cause
  {
    SameTable(Settled(w.log.cause, w.db.cal.mappings), w.log.cause);
  }

  lemma HoldByApplying(w: World, e: Id)
    requires HoldInv(w)
    ensures HoldInv(StepClearPending(w))
    ensures HoldInv(StepLinkCanonical(w, e))
  {
    if AppliesFreely(w) {
      var m := w.worker.act.mapping;
      var row := w.db.cal.mappings[m];
      assert !IsHeld(w.db.cal.mappings, m);
      HoldByWorked(w, w.db.cal.mappings[m := row.(flags := row.flags.(pending := None))], w.db.undo.deletes, Busy(Free));
      HoldByWorked(w, w.db.cal.mappings[m := row.(canonical := Some(e))], w.db.undo.deletes, w.worker);
    }
  }

  lemma HoldByBaseline(w: World, etag: Option<string>, base: Fingerprint)
    requires HoldInv(w)
    ensures HoldInv(StepSetBaseline(w, etag, base))
  {
    if AppliesFreely(w) {
      var m := w.worker.act.mapping;
      var row := w.db.cal.mappings[m];
      assert !IsHeld(w.db.cal.mappings, m);
      HoldByWorked(w, w.db.cal.mappings[m := row.(
        remote := row.remote.(etag := etag, base := Some(base), synced := w.db.clock.now),
        flags := row.flags.(dirty := false, deleted := false, pending := None, settling := false))], w.db.undo.deletes, Busy(Free));
    }
  }

  lemma HoldBySettleMissing(w: World, m: Id)
    requires HoldInv(w)
    ensures HoldInv(StepSettleMissing(w, m))
  {
    if w.worker == Busy(Free) {
      HoldByWorked(w, w.db.cal.mappings - {m}, w.db.undo.deletes, Busy(Free));
    }
  }

  lemma HoldByLater(w: World)
    requires HoldInv(w)
    ensures HoldInv(w.(db := w.db.(clock := w.db.clock.(next := w.db.clock.next + 1))))
  {
  }

  lemma HoldByAdopt(w: World, row: Mapping)
    requires HoldInv(w)
    ensures HoldInv(StepAdopt(w, row))
  {
    var later := w.(db := w.db.(clock := w.db.clock.(next := w.db.clock.next + 1)));
    HoldByLater(w);
    if w.worker == Busy(Free) && row.hold == Hold(None, false) {
      HoldByWorked(later, w.db.cal.mappings[w.db.clock.next := row], w.db.undo.deletes, w.worker);
    }
  }

  /** Only a hold that has ended is listed, and the deletion it is due to is past undoing. */
  lemma ListedFits(w: World, calendar: Id, m: Id)
    requires HoldInv(w) && m in Listed(w, calendar)
    ensures ItemFits(w.db, w.log, m, Listed(w, calendar)[m])
  {
    var item := Listed(w, calendar)[m];
    if m in w.log.cause {
      assert CauseFits(w.db.cal.mappings, w.db.undo.deletes, m, w.log.cause[m]);
    }
  }

  lemma HoldByList(w: World, calendar: Id)
    requires HoldInv(w)
    ensures HoldInv(StepList(w, calendar))
  {
    forall m | m in Listed(w, calendar)
      ensures ItemFits(w.db, w.log, m, Listed(w, calendar)[m])
    {
      ListedFits(w, calendar, m);
    }
  }

  lemma HoldBySend(w: World, m: Id)
    requires HoldInv(w)
    ensures HoldInv(StepSend(w, m))
  {
    if w.worker.Busy? && w.worker.act.Pushing? && m in w.worker.act.items {
      assert ItemFits(w.db, w.log, m, w.worker.act.items[m]);
    }
  }

  lemma HoldByRecord(w: World, etag: Option<string>)
    requires HoldInv(w)
    ensures HoldInv(StepRecord(w, etag))
  {
    if w.worker.Busy? && w.worker.act.Answered? {
      var m, mappings := w.worker.act.mapping, w.db.cal.mappings;
      if w.worker.act.written.None? {
        HoldByWorked(w, mappings - {m}, w.db.undo.deletes, Busy(Pushing(w.worker.act.items)));
      } else if m in mappings {
        HoldByWorked(w, mappings[m := Recorded(mappings[m], etag, w.worker.act.written.value, w.db.clock.now)], w.db.undo.deletes,
                     Busy(Pushing(w.worker.act.items)));
      } else {
        HoldByWorked(w, mappings, w.db.undo.deletes, Busy(Pushing(w.worker.act.items)));
      }
    }
  }

  lemma HoldByWork(w: World, step: WorkerStep)
    requires HoldInv(w)
    ensures HoldInv(NextWork(w, step))
  {
    match step
    case Begin =>
    case Finish =>
    case Read(m, seen) =>
    case DropPulled => HoldByDropPulled(w);
    case Warn => HoldByWarn(w);
    case Flag => HoldByFlag(w);
    case DropReceipts => HoldByDropReceipts(w);
    case ClearPending => HoldByApplying(w, 0);
    case LinkCanonical(e) => HoldByApplying(w, e);
    case SetBaseline(etag, base) => HoldByBaseline(w, etag, base);
    case Adopt(row) => HoldByAdopt(w, row);
    case SettleMissing(m) => HoldBySettleMissing(w, m);
    case List(calendar) => HoldByList(w, calendar);
    case Send(m) => HoldBySend(w, m);
    case Record(etag) => HoldByRecord(w, etag);
  }

  // ---- resolving a conflict ----

  lemma HoldByConflicts(w: World, conflicts: set<Id>)
    requires HoldInv(w)
    ensures HoldInv(w.(db := w.db.(cal := w.db.cal.(conflicts := conflicts))))
  {
  }

  /** A choice about an event that is not held, which the owner may make at any time. */
  lemma HoldByPlainChoice(w: World, m: Id, row: Mapping)
    requires HoldInv(w) && m in w.db.cal.mappings && !IsHeld(w.db.cal.mappings, m) && row.hold == w.db.cal.mappings[m].hold
    ensures HoldInv(Worked(w, w.db.cal.mappings[m := row], w.db.undo.deletes, w.worker))
  {
    var mappings := w.db.cal.mappings[m := row];
    var after := Worked(w, mappings, w.db.undo.deletes, w.worker);
    assert forall k :: IsHeld(mappings, k) <==> IsHeld(w.db.cal.mappings, k);
    HoldByWorked(w, mappings, w.db.undo.deletes, w.worker);
  }

  lemma HoldByKeepGoogle(w: World, m: Id, row: Mapping)
    requires HoldInv(w) && w.worker.Idle? && m in w.db.cal.mappings && !row.hold.tombstone
    ensures HoldInv(Worked(w, w.db.cal.mappings[m := row], WithoutReceiptsOf(w.db.undo.deletes, m), w.worker))
  {
    WithoutReceiptsAreFewer(w.db.undo.deletes, m);
    HoldByWorked(w, w.db.cal.mappings[m := row], WithoutReceiptsOf(w.db.undo.deletes, m), w.worker);
  }

  lemma HoldByResolve(w: World, m: Id, choice: Resolution)
    requires HoldInv(w)
    ensures HoldInv(NextResolve(w, m, choice))
  {
    var mappings := w.db.cal.mappings;
    if m in mappings && m in w.db.cal.conflicts {
      var row := ResolvedRow(mappings[m], choice);
      if !IsHeld(mappings, m) {
        HoldByPlainChoice(w, m, row);
        HoldByConflicts(Worked(w, mappings[m := row], w.db.undo.deletes, w.worker), w.db.cal.conflicts - {m});
      } else if choice.KeepGoogle? && w.worker.Idle? {
        HoldByKeepGoogle(w, m, row);
        HoldByConflicts(Worked(w, mappings[m := row], WithoutReceiptsOf(w.db.undo.deletes, m), w.worker), w.db.cal.conflicts - {m});
      }
    }
  }
}
