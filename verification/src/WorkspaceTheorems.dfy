/** What holds in every state the workspace can reach. */
module WorkspaceTheorems {
  import opened Prelude
  import opened Rows
  import opened SubtaskForest
  import opened RecurrenceLineage
  import opened Recurrence
  import opened Transactions
  import opened ScheduleMirror
  import opened DeleteUndo
  import opened DeleteRoundTrip
  import opened Moves
  import opened TaskGraph
  import opened Workspace
  import opened GraphSteps
  import opened MirrorSteps

  ghost predicate Inv(db: Db) {
    GraphOf(db) && MirrorOf(db) && EventsBelow(db.undo.deletes, db.clock.next)
  }

  /** The receipts of deletions are as before, and ids only grow. */
  ghost predicate DeletesLeft(db: Db, after: Db) {
    after.undo.deletes == db.undo.deletes && db.clock.next <= after.clock.next
  }

  lemma WriteLeaves(db: Db, t: Id, row: Task, wasDone: bool, block: Block)
    requires t in db.tasks
    ensures WriteTask(db, t, row, wasDone, block).Ok? ==> DeletesLeft(db, WriteTask(db, t, row, wasDone, block).value)
  {
    var put := db.(tasks := db.tasks[t := row]);
    SyncLeaves(put, t, block);
    var written := SyncTaskEvent(put, t, block);
    var next := NextOccurrence(t, written.tasks[t], block.position, written.clock.now);
    if next.Ok? {
      InsertLeaves(written, next.value, block);
    }
  }

  lemma EditLeaves(db: Db, t: Id, request: TaskRequest, scope: Option<EditScope>, block: Block)
    requires Lines(db.tasks)
    ensures UpdateTask(db, t, request, scope, block).Ok? ==> DeletesLeft(db, UpdateTask(db, t, request, scope, block).value)
  {
    if t in db.tasks && Prepared(db.tasks[t], request, scope).Ok? {
      var task := db.tasks[t];
      var row := UpdatedRow(task, request, Prepared(task, request, scope).value, db.clock.now);
      if task.Done() && !row.Done() {
        var next := SuccessorsOf(db.tasks, t);
        DropLeaves(db, next);
        assert t !in next by {
          assert t in next ==> SourceDone(db.tasks, t, t);
        }
        WriteLeaves(DropTasks(db, next), t, row, true, block);
      } else {
        WriteLeaves(db, t, row, task.Done(), block);
      }
    }
  }

  lemma TaskStepLeaves(db: Db, step: TaskStep)
    requires Lines(db.tasks)
    ensures DeletesLeft(db, NextTask(db, step))
  {
    match step
    case NewTask(request, block) =>
      var completed := if request.status.Completed? then Some(db.clock.now) else None;
      InsertLeaves(db, Task(Place(request.project, request.parent, None), request.content, Template(None, None),
                            Progress(request.status, completed, block.position), Stamp(1, db.clock.now)), block);
    case EditTask(task, request, scope, block) => EditLeaves(db, task, request, scope, block);
    case RemoveTask(task, expected) =>
      RemoveEventsLeave(db, {task});
      DropLeaves(RemoveTaskEvents(db, {task}), {task});
    case RemoveProject(p, expected) =>
      RemoveEventsLeave(db, TasksOfProject(db.tasks, p));
      DropLeaves(RemoveTaskEvents(db, TasksOfProject(db.tasks, p)), TasksOfProject(db.tasks, p));
    case SortTasks(positions) =>
    case Review(deadlines, side) =>
    case PlaceEvent(task, block) => if task in db.tasks { SyncLeaves(db, task, block); }
  }

  lemma RecordedEventBelow(db: Db, t: Id, s: Snapshot)
    requires MirrorOf(db) && t in db.tasks && Records(db, t, s)
    ensures s.core.event.Some? ==> s.core.event.value.0 < db.clock.next
  {
    var e := EventId(db, t);
    if e.Some? {
      var id := e.value;
      assert id in EventsOf(db.cal.events, {t});
    }
  }

  lemma MoreReceipts(deletes: DeleteReceipts, next: Id, r: DeleteReceipt)
    requires EventsBelow(deletes, next)
    requires r.snapshot.core.event.Some? ==> r.snapshot.core.event.value.0 < next
    ensures EventsBelow(deletes[next := r], next + 1)
  {
  }

  lemma EventsBelowByDelete(db: Db, t: Id, expected: int, validated: Option<Snapshot>, after: Db)
    requires MirrorOf(db) && EventsBelow(db.undo.deletes, db.clock.next) && Deletes(db, t, expected, validated, after)
    ensures EventsBelow(after.undo.deletes, after.clock.next)
  {
    var base, s := DeletionIs(db, t, expected, validated, after);
    TablesAfter(db, t, base, s, after);
    ReceiptOf(db, t, base, s, after);
    RecordedEventBelow(db, t, after.undo.deletes[db.clock.next].snapshot);
    MoreReceipts(db.undo.deletes, db.clock.next, after.undo.deletes[db.clock.next]);
  }

  lemma MovesLeave(db: Db, item: Id, isTask: bool, request: MoveRequest, swept: set<Id>)
    ensures MoveItem(db, item, isTask, request, swept).Ok? ==> DeletesLeft(db, MoveItem(db, item, isTask, request, swept).value)
  {
  }

  lemma UndoMoveLeaves(db: Db, r: Id, swept: set<Id>)
    ensures UndoMove(db, r, swept).Ok? ==> DeletesLeft(db, UndoMove(db, r, swept).value)
  {
  }

  lemma UndoLeaves(db: Db, r: Id, provider: Option<AppError>)
    requires UndoDelete(db, r, provider).Ok?
    ensures var after := UndoDelete(db, r, provider).value;
            after.undo.deletes == db.undo.deletes - {r} && after.clock == db.clock
  {
  }

  lemma EventsBelowByUndo(db: Db, step: UndoStep)
    requires MirrorOf(db) && EventsBelow(db.undo.deletes, db.clock.next)
    ensures EventsBelow(NextUndo(db, step).undo.deletes, NextUndo(db, step).clock.next)
  {
    match step
    case DeleteTaskReversibly(t, expected, validated) =>
      var outcome := DeleteReversibly(db, t, expected, validated);
      if outcome.Ok? && outcome.value.Done? { EventsBelowByDelete(db, t, expected, validated, outcome.value.db); }
    case UndoDeletion(r, provider) => if UndoDelete(db, r, provider).Ok? { UndoLeaves(db, r, provider); }
    case MoveItemTo(item, isTask, request, swept) => MovesLeave(db, item, isTask, request, swept);
    case UndoMoveOf(r, swept) => UndoMoveLeaves(db, r, swept);
    case Forget(deletes, moves) =>
  }

  lemma EventStepLeaves(db: Db, step: EventStep)
    ensures DeletesLeft(db, NextEvent(db, step))
  {
  }

  lemma EventsBelowKept(db: Db, step: Step)
    requires Inv(db)
    ensures EventsBelow(Next(db, step).undo.deletes, Next(db, step).clock.next)
  {
    match step
    case OnTasks(t) => TaskStepLeaves(db, t);
    case OnEvents(e) => EventStepLeaves(db, e);
    case OnUndo(u) => EventsBelowByUndo(db, u);
    case Other(o) =>
  }

  lemma MirrorKept(db: Db, step: Step)
    requires Inv(db)
    ensures MirrorOf(Next(db, step))
  {
    match step
    case OnTasks(t) => MirrorByTask(db, t);
    case OnEvents(e) => MirrorByEvent(db, e);
    case OnUndo(u) => MirrorByUndoStep(db, u);
    case Other(o) =>
  }

  lemma InvKept(db: Db, step: Step)
    requires Inv(db)
    ensures Inv(Next(db, step))
  {
    GraphKept(db, step);
    MirrorKept(db, step);
    EventsBelowKept(db, step);
  }

  lemma {:induction false} InvOfRun(db: Db, steps: seq<Step>)
    requires Inv(db)
    ensures Inv(Run(db, steps))
    decreases |steps|
  {
    if steps != [] {
      InvKept(db, steps[0]);
      InvOfRun(Next(db, steps[0]), steps[1..]);
    }
  }

  lemma InvAtStart(now: int)
    ensures Inv(Start(now))
  {
    assert forall t, n: nat :: Up(Start(now).tasks, t, n).None?;
  }

  lemma InvOfReachable(db: Db)
    requires Reachable(db)
    ensures Inv(db)
  {
    var now, steps :| Run(Start(now), steps) == db;
    InvAtStart(now);
    InvOfRun(Start(now), steps);
  }

  lemma {:induction false} RunOneMore(db: Db, steps: seq<Step>, step: Step)
    ensures Run(db, steps + [step]) == Next(Run(db, steps), step)
    decreases |steps|
  {
    if steps == [] {
      assert steps + [step] == [step];
      assert Run(Next(db, step), []) == Next(db, step);
    } else {
      assert (steps + [step])[1..] == steps[1..] + [step];
      RunOneMore(Next(db, steps[0]), steps[1..], step);
    }
  }

  lemma ReachableNext(db: Db, step: Step)
    requires Reachable(db)
    ensures Reachable(Next(db, step))
  {
    var now, steps :| Run(Start(now), steps) == db;
    RunOneMore(Start(now), steps, step);
  }

  // ---- the theorems ----

  /** Subtasks form an acyclic forest with parent and child in one project, and no recurring
      task has a parent or a child. */
  lemma ForestOfReachable(db: Db)
    requires Reachable(db)
    ensures Related(db.tasks) && Acyclic(db.tasks)
  {
    InvOfReachable(db);
  }

  /** Lineage is injective and acyclic, and an unfinished task has no successor. */
  lemma LineageOfReachable(db: Db, t: Id, u: Id)
    requires Reachable(db) && t in db.tasks && u in db.tasks
    ensures db.tasks[t].place.source.Some? && db.tasks[t].place.source == db.tasks[u].place.source ==> t == u
    ensures db.tasks[u].place.source == Some(t) ==> t < u && db.tasks[t].Done()
    ensures !db.tasks[t].Done() ==> NoSuccessor(db.tasks, t)
  {
    InvOfReachable(db);
    assert db.tasks[u].place.source == Some(t) ==> SourceDone(db.tasks, u, t);
    if !db.tasks[t].Done() {
      UnfinishedHasNone(db.tasks, t);
    }
  }

  /** No edit of a reachable workspace, completing a task included, is ever stopped by the
      unique index on the successor's source. */
  lemma CompletionNeverViolatesIndex(db: Db, t: Id, request: TaskRequest, scope: Option<EditScope>, block: Block)
    requires Reachable(db)
    ensures UpdateTask(db, t, request, scope, block) != Err(Integrity)
  {
    InvOfReachable(db);
    GraphByEdit(db, t, request, scope, block);
  }

  /** Nor is an undo whose guards hold: the task's id is free and so is its place after its
      source. */
  lemma UndoNeverViolatesIndex(db: Db, r: Id)
    requires Reachable(db) && r in db.undo.deletes
    requires GuardsHold(db, db.undo.deletes[r].snapshot, db.undo.deletes[r].expires)
    ensures var s := db.undo.deletes[r].snapshot;
            && s.core.id !in db.tasks
            && (s.core.task.place.source.Some? ==> NoSuccessor(db.tasks, s.core.task.place.source.value))
  {
    InvOfReachable(db);
    UndoIsFree(db.tasks, db.undo.deletes, r);
  }

  /** Reopening a task deletes its next occurrence only if nothing hangs under that. */
  lemma ReopenSparesParents(db: Db, t: Id, k: Id)
    requires Reachable(db) && RemoveNext(db, t).Ok?
    requires k in db.tasks && k !in RemoveNext(db, t).value.tasks
    ensures db.tasks[k].place.source == Some(t) && !HasChildren(db.tasks, k)
  {
    InvOfReachable(db);
    UntouchedIsChildless(db.tasks, t, SuccessorsOf(db.tasks, t));
  }

  /** At most one event is linked to a task, and it has the task's schedule. */
  lemma MirrorOfReachable(db: Db, e: Id)
    requires Reachable(db) && e in db.cal.events && db.cal.events[e].task.Some?
    ensures var t := db.cal.events[e].task.value;
            && t in db.tasks
            && db.tasks[t].content.timing.start == Some(db.cal.events[e].body.span.start)
            && db.tasks[t].content.timing.end == Some(db.cal.events[e].body.span.end)
            && forall f :: f in db.cal.events && db.cal.events[f].task == Some(t) ==> f == e
  {
    InvOfReachable(db);
    assert Faithful(db.tasks, db.cal.events[e]);
  }
}
