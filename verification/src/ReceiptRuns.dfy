/** Deletion receipts over every run: a receipt is never rewritten, so the round trip of a deletion
    and its undo holds whatever happens in between, and a receipt that is worthless when it is
    written stays so (apps/api/src/task_delete_store.rs:141-518). */
module ReceiptRuns {
  import opened Prelude
  import opened Rows
  import opened RecurrenceLineage
  import opened DeleteUndo
  import opened DeleteRoundTrip
  import opened ImmediateUndo
  import opened Workspace
  import opened WorkspaceTheorems
  import opened MoveTheorems

  /** The receipt is as it was, or gone for ever. */
  ghost predicate WatchReceipt(db: Db, r: Id, receipt: DeleteReceipt) {
    r < db.clock.next && (r in db.undo.deletes ==> db.undo.deletes[r] == receipt)
  }

  ghost predicate DeletesOnlyAdded(db: Db, after: Db) {
    && db.clock.next <= after.clock.next
    && forall r :: r in after.undo.deletes && r < db.clock.next ==> r in db.undo.deletes && after.undo.deletes[r] == db.undo.deletes[r]
  }

  lemma AddedByDelete(db: Db, t: Id, expected: int, validated: Option<Snapshot>, after: Db)
    requires Deletes(db, t, expected, validated, after)
    ensures DeletesOnlyAdded(db, after)
  {
    var base, s := DeletionIs(db, t, expected, validated, after);
    TablesAfter(db, t, base, s, after);
  }

  lemma AddedByUndoStep(db: Db, step: UndoStep)
    ensures DeletesOnlyAdded(db, NextUndo(db, step))
  {
    match step
    case DeleteTaskReversibly(t, expected, validated) =>
      var outcome := DeleteReversibly(db, t, expected, validated);
      if outcome.Ok? && outcome.value.Done? { AddedByDelete(db, t, expected, validated, outcome.value.db); }
    case UndoDeletion(r, provider) => if UndoDelete(db, r, provider).Ok? { UndoLeaves(db, r, provider); }
    case MoveItemTo(item, isTask, request, swept) => MovesLeave(db, item, isTask, request, swept);
    case UndoMoveOf(r, swept) => UndoMoveLeaves(db, r, swept);
    case Forget(deletes, moves) =>
  }

  lemma AddedByStep(db: Db, step: Step)
    requires All(db)
    ensures DeletesOnlyAdded(db, Next(db, step))
  {
    match step
    case OnTasks(t) => TaskStepMovesOn(db, t);
    case OnEvents(e) => EventStepMovesOn(db, e);
    case OnUndo(u) => AddedByUndoStep(db, u);
    case Other(o) =>
  }

  lemma {:induction false} ReceiptWatchedByRun(db: Db, steps: seq<Step>, r: Id, receipt: DeleteReceipt)
    requires All(db) && WatchReceipt(db, r, receipt)
    ensures WatchReceipt(Run(db, steps), r, receipt)
    decreases |steps|
  {
    if steps != [] {
      AddedByStep(db, steps[0]);
      AllKept(db, steps[0]);
      ReceiptWatchedByRun(Next(db, steps[0]), steps[1..], r, receipt);
    }
  }

  lemma AllAfterUndoStep(db: Db, step: UndoStep)
    requires All(db)
    ensures All(NextUndo(db, step))
  {
    AllKept(db, OnUndo(step));
  }

  lemma DeletionIsStep(db: Db, t: Id, expected: int, validated: Option<Snapshot>, after: Db)
    requires Deletes(db, t, expected, validated, after)
    ensures NextUndo(db, DeleteTaskReversibly(t, expected, validated)) == after
  {
  }

  lemma AllAfterDelete(db: Db, t: Id, expected: int, validated: Option<Snapshot>, after: Db)
    requires All(db) && Deletes(db, t, expected, validated, after)
    ensures All(after)
  {
    DeletionIsStep(db, t, expected, validated, after);
    AllAfterUndoStep(db, DeleteTaskReversibly(t, expected, validated));
  }

  /** An undo that succeeds after some run is an undo of the receipt the deletion wrote. */
  lemma RunUndoes(before: Db, t: Id, expected: int, validated: Option<Snapshot>, deleted: Db,
                  steps: seq<Step>, provider: Option<AppError>, after: Db)
    requires Reachable(before) && Deletes(before, t, expected, validated, deleted)
    requires UndoDelete(Run(deleted, steps), before.clock.next, provider) == Ok(after)
    ensures All(deleted) && Undoes(deleted, before.clock.next, Run(deleted, steps), provider, after)
  {
    AllOfReachable(before);
    AllAfterDelete(before, t, expected, validated, deleted);
    var base, s := DeletionIs(before, t, expected, validated, deleted);
    TablesAfter(before, t, base, s, deleted);
    ReceiptWatchedByRun(deleted, steps, before.clock.next, deleted.undo.deletes[before.clock.next]);
  }

  /** Deletion in a reachable workspace, any run, and an undo that succeeds: every row is back,
      and nothing the undo depends on was touched meanwhile. */
  lemma UndoneDeletionIsRoundTrip(before: Db, t: Id, expected: int, validated: Option<Snapshot>, deleted: Db,
                                  steps: seq<Step>, provider: Option<AppError>, after: Db)
    requires Reachable(before) && Deletes(before, t, expected, validated, deleted)
    requires UndoDelete(Run(deleted, steps), before.clock.next, provider) == Ok(after)
    ensures var now := Run(deleted, steps).clock.now;
            && TasksBack(before, t, after, now) && EventBack(before, t, after, now) && MappingBack(before, t, after)
            && NotesBack(before, t, after, now) && FilesBack(before, t, after) && FocusBack(before, t, after)
    ensures t in before.tasks && RelativesUntouched(before, t, deleted, Run(deleted, steps))
    ensures FilesUntouched(before, t, Run(deleted, steps)) && RevisionsUntouched(before, t, deleted, Run(deleted, steps))
    ensures CalendarUntouched(before, t, deleted, Run(deleted, steps))
  {
    RunUndoes(before, t, expected, validated, deleted, steps, provider, after);
    DeleteThenUndo(before, t, expected, validated, deleted, Run(deleted, steps), provider, after);
    MappingRestored(before, t, expected, validated, deleted, Run(deleted, steps), provider, after);
    UndoSeesNoChange(before, t, expected, validated, deleted, Run(deleted, steps), provider, after);
  }

  /** The deletion of a task takes the source of the successor it hangs under, and no version. */
  lemma ParentLosesSource(before: Db, t: Id, expected: int, validated: Option<Snapshot>, deleted: Db, p: Id)
    requires Deletes(before, t, expected, validated, deleted) && Lines(before.tasks)
    requires t in before.tasks && p in before.tasks && before.tasks[p].place.source == Some(t)
    ensures p in deleted.tasks && deleted.tasks[p] == WithoutSource(before.tasks[p])
  {
    var base, s := DeletionIs(before, t, expected, validated, deleted);
    TablesAfter(before, t, base, s, deleted);
    assert SourceDone(before.tasks, p, t);
  }

  /** The receipt of a task that hangs under its own successor is worthless for ever: whatever
      happens after the deletion, the undo fails. */
  lemma WorthlessForEver(before: Db, t: Id, expected: int, validated: Option<Snapshot>, deleted: Db,
                         steps: seq<Step>, provider: Option<AppError>)
    requires Reachable(before) && Deletes(before, t, expected, validated, deleted)
    requires t in before.tasks && UnderSuccessor(before, t)
    ensures UndoDelete(Run(deleted, steps), before.clock.next, provider).Err?
  {
    var undone := UndoDelete(Run(deleted, steps), before.clock.next, provider);
    if undone.Ok? {
      RunUndoes(before, t, expected, validated, deleted, steps, provider, undone.value);
      UndoSeesNoChange(before, t, expected, validated, deleted, Run(deleted, steps), provider, undone.value);
      InvOfReachable(before);
      var p := before.tasks[t].place.parent.value;
      assert p in Ids(before.tasks[t].place.parent, before.tasks[t].place.source);
      ParentLosesSource(before, t, expected, validated, deleted, p);
      StaysWithoutSource(deleted, steps, p);
    }
  }

  lemma StaysWithoutSource(db: Db, steps: seq<Step>, p: Id)
    requires All(db) && p in db.tasks && db.tasks[p].place.source.None?
    ensures p in Run(db, steps).tasks && Run(db, steps).tasks[p].stamp.version == db.tasks[p].stamp.version ==>
              Run(db, steps).tasks[p].place.source.None?
  {
    WatchStored(db, 0, p);
    var any: Event := *;
    WatchedByRun(db, steps, 0, any, p, db.tasks[p]);
  }
}
