/** Each step of the workspace keeps the task graph. */
module GraphSteps {
  import opened Prelude
  import opened CivilTime
  import opened EventShape
  import opened Rows
  import opened SubtaskForest
  import opened RecurrenceLineage
  import opened Recurrence
  import opened Transactions
  import opened DeleteUndo
  import opened DeleteRoundTrip
  import opened Moves
  import opened TaskGraph
  import opened Workspace

  ghost predicate GraphOf(db: Db) {
    Graph(db.tasks, db.undo.deletes, db.clock.next)
  }

  /** What synchronizing a task's event leaves alone. */
  lemma SyncLeaves(db: Db, t: Id, block: Block)
    requires t in db.tasks
    ensures var after := SyncTaskEvent(db, t, block);
            after.tasks == db.tasks && after.undo.deletes == db.undo.deletes
            && db.clock.next <= after.clock.next && after.clock.now == db.clock.now
  {
  }

  lemma InsertLeaves(db: Db, row: Task, block: Block)
    ensures var after := InsertTask(db, row, block);
            after.tasks == db.tasks[db.clock.next := row] && after.undo.deletes == db.undo.deletes
            && db.clock.next < after.clock.next
  {
    SyncLeaves(WithNew(db, row), db.clock.next, block);
  }

  lemma GraphByNew(db: Db, request: TaskRequest, block: Block)
    requires GraphOf(db) && CreateTask(db, request, block).Ok?
    ensures GraphOf(CreateTask(db, request, block).value)
  {
    var completed := if request.status.Completed? then Some(db.clock.now) else None;
    var row := Task(Place(request.project, request.parent, None), request.content, Template(None, None),
                    Progress(request.status, completed, block.position), Stamp(1, db.clock.now));
    InsertLeaves(db, row, block);
    CreateKeeps(db.tasks, db.undo.deletes, db.clock.next, row);
    NextGrows(db.tasks[db.clock.next := row], db.undo.deletes, db.clock.next + 1, InsertTask(db, row, block).clock.next);
  }

  // ---- editing ----

  lemma EditIsAdmissible(db: Db, t: Id, request: TaskRequest, template: Template)
    requires GraphOf(db) && t in db.tasks
    requires ValidFields(request.content, request.parent) && request.parent != Some(t)
    requires ValidRelations(db, request.project, request.parent) && ValidUpdate(db.tasks, t, request)
    ensures Admissible(db.tasks, t, UpdatedRow(db.tasks[t], request, template, db.clock.now))
  {
  }

  /** Completing a task never meets the unique index: it had no successor. */
  lemma CompletionIsFree(db: Db, t: Id, block: Block)
    requires t in db.tasks && NoSuccessor(db.tasks, t)
    ensures SuccessorsOf(db.tasks, t) == {} && CreateNext(db, t, block) != Err(Integrity)
  {
    if SuccessorsOf(db.tasks, t) != {} {
      var k := Member(SuccessorsOf(db.tasks, t));
      assert false;
    }
  }

  lemma GraphByCreateNext(db: Db, t: Id, block: Block)
    requires GraphOf(db) && t in db.tasks && db.tasks[t].Done() && NoSuccessor(db.tasks, t)
    requires forall r :: r in db.undo.deletes && From(db.undo.deletes[r], t) ==>
               Kept(db.undo.deletes[r])[t].stamp.version < db.tasks[t].stamp.version
    ensures CreateNext(db, t, block).Ok? ==> GraphOf(CreateNext(db, t, block).value)
  {
    var next := NextOccurrence(t, db.tasks[t], block.position, db.clock.now);
    if next.Ok? {
      NextOccurrenceIsFresh(t, db.tasks[t], block.position, db.clock.now);
      InsertLeaves(db, next.value, block);
      NextKeeps(db.tasks, db.undo.deletes, db.clock.next, t, next.value);
      NextGrows(db.tasks[db.clock.next := next.value], db.undo.deletes, db.clock.next + 1, InsertTask(db, next.value, block).clock.next);
    }
  }

  lemma GraphByWrite(db: Db, t: Id, row: Task, wasDone: bool, block: Block)
    requires GraphOf(db) && Admissible(db.tasks, t, row)
    requires !row.Done() || !wasDone ==> NoSuccessor(db.tasks, t)
    ensures WriteTask(db, t, row, wasDone, block).Ok? ==> GraphOf(WriteTask(db, t, row, wasDone, block).value)
    ensures WriteTask(db, t, row, wasDone, block) != Err(Integrity)
  {
    var put := db.(tasks := db.tasks[t := row]);
    WriteKeeps(db.tasks, db.undo.deletes, db.clock.next, t, row);
    SyncLeaves(put, t, block);
    var written := SyncTaskEvent(put, t, block);
    NextGrows(put.tasks, put.undo.deletes, put.clock.next, written.clock.next);
    if !wasDone && row.Done() && row.Recurring() {
      assert NoSuccessor(written.tasks, t);
      CompletionIsFree(written, t, block);
      GraphByCreateNext(written, t, block);
    }
  }

  /** A way up that remains was there before. */
  lemma ReachesLess(tasks: Tasks, gone: set<Id>, from: Id, to: Id)
    requires Reaches(RemoveTasks(tasks, gone), from, to)
    ensures Reaches(tasks, from, to)
  {
    var n: nat :| Up(RemoveTasks(tasks, gone), from, n) == Some(to);
    UpOfRemaining(tasks, gone, from, n);
  }

  lemma StillAdmissible(tasks: Tasks, t: Id, row: Task)
    requires Forest(tasks) && Lines(tasks) && Admissible(tasks, t, row)
    requires forall k :: k in SuccessorsOf(tasks, t) ==> tasks[k].stamp.version == 1
    ensures Admissible(RemoveTasks(tasks, SuccessorsOf(tasks, t)), t, row)
    ensures NoSuccessor(RemoveTasks(tasks, SuccessorsOf(tasks, t)), t)
  {
    var next := SuccessorsOf(tasks, t);
    var after := RemoveTasks(tasks, next);
    forall k | k in next
      ensures t < k && tasks[k].Recurring()
    {
      assert SourceDone(tasks, k, t);
    }
    if tasks[t].place.source.Some? {
      assert SourceDone(tasks, t, tasks[t].place.source.value);
    }
    assert t in after && after[t] == tasks[t];
    if row.place.parent.Some? {
      var p := row.place.parent.value;
      assert p !in next && after[p].content == tasks[p].content && after[p].place.project == tasks[p].place.project;
      if Reaches(after, p, t) {
        ReachesLess(tasks, next, p, t);
      }
    }
    assert HasChildren(after, t) ==> HasChildren(tasks, t);
  }

  lemma GraphByReopen(db: Db, t: Id, row: Task, block: Block)
    requires GraphOf(db) && Admissible(db.tasks, t, row) && !row.Done() && RemoveNext(db, t).Ok?
    ensures var outcome := WriteTask(RemoveNext(db, t).value, t, row, true, block);
            outcome.Ok? ==> GraphOf(outcome.value)
    ensures WriteTask(RemoveNext(db, t).value, t, row, true, block) != Err(Integrity)
  {
    var next := SuccessorsOf(db.tasks, t);
    UntouchedIsChildless(db.tasks, t, next);
    RemoveKeeps(db.tasks, db.undo.deletes, db.clock.next, next);
    StillAdmissible(db.tasks, t, row);
    GraphByWrite(RemoveNext(db, t).value, t, row, true, block);
  }

  lemma GraphByEdit(db: Db, t: Id, request: TaskRequest, scope: Option<EditScope>, block: Block)
    requires GraphOf(db)
    ensures UpdateTask(db, t, request, scope, block).Ok? ==> GraphOf(UpdateTask(db, t, request, scope, block).value)
    ensures UpdateTask(db, t, request, scope, block) != Err(Integrity)
  {
    if t in db.tasks && ValidFields(request.content, request.parent) && request.parent != Some(t)
       && ValidRelations(db, request.project, request.parent) && ValidUpdate(db.tasks, t, request)
       && Prepared(db.tasks[t], request, scope).Ok? {
      var task := db.tasks[t];
      var template := Prepared(task, request, scope).value;
      var row := UpdatedRow(task, request, template, db.clock.now);
      EditIsAdmissible(db, t, request, template);
      if task.Done() && !row.Done() {
        if RemoveNext(db, t).Ok? {
          GraphByReopen(db, t, row, block);
        }
      } else {
        if !task.Done() {
          UnfinishedHasNone(db.tasks, t);
        }
        GraphByWrite(db, t, row, task.Done(), block);
      }
    }
  }

  // ---- removing ----

  lemma DropLeaves(db: Db, gone: set<Id>)
    ensures var after := DropTasks(db, gone);
            after.tasks == RemoveTasks(db.tasks, gone) && after.undo.deletes == db.undo.deletes && after.clock == db.clock
  {
  }

  lemma RemoveEventsLeave(db: Db, of: set<Id>)
    ensures var after := RemoveTaskEvents(db, of);
            after.tasks == db.tasks && after.undo.deletes == db.undo.deletes && after.clock == db.clock
  {
  }

  lemma GraphByRemove(db: Db, t: Id, expected: int)
    requires GraphOf(db) && DeleteTask(db, t, expected).Ok?
    ensures GraphOf(DeleteTask(db, t, expected).value)
  {
    RemoveEventsLeave(db, {t});
    DropLeaves(RemoveTaskEvents(db, {t}), {t});
    ChildlessIsClosed(db.tasks, t);
    RemoveKeeps(db.tasks, db.undo.deletes, db.clock.next, {t});
  }

  function WithoutTemplates(tasks: Tasks, p: Id, now: int): Tasks {
    map t | t in tasks :: WithoutTemplateProject(tasks[t], p, now)
  }

  lemma GraphByRemoveProject(db: Db, p: Id, expected: int)
    requires GraphOf(db) && DeleteProject(db, p, expected).Ok?
    ensures GraphOf(DeleteProject(db, p, expected).value)
  {
    var gone := TasksOfProject(db.tasks, p);
    RemoveEventsLeave(db, gone);
    DropLeaves(RemoveTaskEvents(db, gone), gone);
    ProjectIsClosed(db.tasks, p);
    RemoveKeeps(db.tasks, db.undo.deletes, db.clock.next, gone);
    var left := RemoveTasks(db.tasks, gone);
    RowsKeep(left, WithoutTemplates(left, p, db.clock.now), db.undo.deletes, db.clock.next);
  }

  lemma GraphBySort(db: Db, positions: map<Id, int>)
    requires GraphOf(db)
    ensures GraphOf(Reorder(db, positions))
  {
    RowsKeep(db.tasks, Reorder(db, positions).tasks, db.undo.deletes, db.clock.next);
  }

  lemma GraphByReview(db: Db, deadlines: map<Id, Moment>, side: SideTables)
    requires GraphOf(db)
    ensures GraphOf(Reviewed(db, deadlines, side))
  {
    RowsKeep(db.tasks, Reviewed(db, deadlines, side).tasks, db.undo.deletes, db.clock.next);
  }

  lemma GraphByTask(db: Db, step: TaskStep)
    requires GraphOf(db)
    ensures GraphOf(NextTask(db, step))
  {
    match step
    case NewTask(request, block) => if CreateTask(db, request, block).Ok? { GraphByNew(db, request, block); }
    case EditTask(task, request, scope, block) => GraphByEdit(db, task, request, scope, block);
    case RemoveTask(task, expected) => if DeleteTask(db, task, expected).Ok? { GraphByRemove(db, task, expected); }
    case RemoveProject(project, expected) => if DeleteProject(db, project, expected).Ok? { GraphByRemoveProject(db, project, expected); }
    case SortTasks(positions) => GraphBySort(db, positions);
    case Review(deadlines, side) => GraphByReview(db, deadlines, side);
    case PlaceEvent(task, block) =>
      if task in db.tasks {
        SyncLeaves(db, task, block);
        NextGrows(db.tasks, db.undo.deletes, db.clock.next, SyncTaskEvent(db, task, block).clock.next);
      }
  }

  // ---- events and moves touch one task ----

  lemma RescheduleKeeps(tasks: Tasks, deletes: DeleteReceipts, next: Id, t: Option<Id>, start: Option<int>, end: Option<int>, now: int)
    requires Graph(tasks, deletes, next)
    ensures Graph(Reschedule(tasks, t, start, end, now), deletes, next)
  {
    if t.Some? && t.value in tasks {
      TouchKeeps(tasks, deletes, next, t.value, Scheduled(tasks[t.value], start, end, now));
    }
  }

  lemma RetitleKeeps(tasks: Tasks, deletes: DeleteReceipts, next: Id, t: Option<Id>, text: EventText)
    requires Graph(tasks, deletes, next)
    ensures Graph(Retitled(tasks, t, text), deletes, next)
  {
    RowsKeep(tasks, Retitled(tasks, t, text), deletes, next);
  }

  lemma GraphByEvent(db: Db, step: EventStep)
    requires GraphOf(db)
    ensures GraphOf(NextEvent(db, step))
  {
    var tasks, deletes, next, now := db.tasks, db.undo.deletes, db.clock.next, db.clock.now;
    NextGrows(tasks, deletes, next, next + 1);
    match step
    case NewEvent(calendar, body) =>
    case EditEvent(e, calendar, body, expected) =>
      if e in db.cal.events {
        RescheduleKeeps(tasks, deletes, next, db.cal.events[e].task, Some(body.span.start), Some(body.span.end), now);
      }
    case RemoveEvent(e, expected) =>
      if e in db.cal.events {
        RescheduleKeeps(tasks, deletes, next, db.cal.events[e].task, None, None, now);
      }
    case PulledEvent(e, calendar, body) =>
      if e in db.cal.events {
        var t := db.cal.events[e].task;
        RetitleKeeps(tasks, deletes, next, t, body.text);
        RescheduleKeeps(Retitled(tasks, t, body.text), deletes, next, t, Some(body.span.start), Some(body.span.end), now);
      }
    case PulledNew(calendar, body) =>
    case PulledGone(e) =>
      if e in db.cal.events {
        RescheduleKeeps(tasks, deletes, next, db.cal.events[e].task, None, None, now);
      }
    case RemoveCalendar(calendar) =>
  }

  // ---- deletion and undo ----

  lemma RecordIsWritten(db: Db, t: Id, s: Snapshot)
    requires t in db.tasks && Records(db, t, s) && DependenciesExist(db, t)
    ensures var r := DeleteReceipt(s, 0);
            && Written(db.tasks, t, r)
            && (forall k :: k in Kept(r) ==> k in db.tasks && Kept(r)[k] == db.tasks[k])
            && (db.tasks[t].place.parent.Some? ==> db.tasks[t].place.parent.value in Kept(r))
  {
  }

  lemma GraphByDelete(db: Db, t: Id, expected: int, validated: Option<Snapshot>, after: Db)
    requires GraphOf(db) && Deletes(db, t, expected, validated, after)
    ensures GraphOf(after)
  {
    var base, s := DeletionIs(db, t, expected, validated, after);
    TablesAfter(db, t, base, s, after);
    ReceiptOf(db, t, base, s, after);
    GraphByReceipt(db, t, after, after.undo.deletes[db.clock.next]);
  }

  lemma GraphByReceipt(db: Db, t: Id, after: Db, r: DeleteReceipt)
    requires GraphOf(db) && t in db.tasks && Records(db, t, r.snapshot) && DependenciesExist(db, t) && !HasChildren(db.tasks, t)
    requires after.tasks == RemoveTasks(db.tasks, {t}) && after.clock.next == db.clock.next + 1
    requires after.undo.deletes == db.undo.deletes[db.clock.next := r]
    ensures GraphOf(after)
  {
    RecordIsWritten(db, t, r.snapshot);
    DeleteKeeps(db.tasks, db.undo.deletes, db.clock.next, t, r);
  }

  lemma GraphByUndo(db: Db, r: Id, provider: Option<AppError>)
    requires GraphOf(db) && UndoDelete(db, r, provider).Ok?
    ensures GraphOf(UndoDelete(db, r, provider).value)
  {
    UndoKeeps(db.tasks, db.undo.deletes, db.clock.next, r, db.clock.now);
  }

  lemma GraphByUndoStep(db: Db, step: UndoStep)
    requires GraphOf(db)
    ensures GraphOf(NextUndo(db, step))
  {
    match step
    case DeleteTaskReversibly(t, expected, validated) =>
      var outcome := DeleteReversibly(db, t, expected, validated);
      if outcome.Ok? && outcome.value.Done? { GraphByDelete(db, t, expected, validated, outcome.value.db); }
    case UndoDeletion(r, provider) => if UndoDelete(db, r, provider).Ok? { GraphByUndo(db, r, provider); }
    case MoveItemTo(item, isTask, request, swept) => GraphByMove(db, item, isTask, request, swept);
    case UndoMoveOf(r, swept) => GraphByUndoMove(db, r, swept);
    case Forget(deletes, moves) =>
      FewerReceiptsKeep(db.tasks, db.undo.deletes, Forgotten(db, deletes, moves).undo.deletes, db.clock.next);
  }

  lemma GraphByMove(db: Db, item: Id, isTask: bool, request: MoveRequest, swept: set<Id>)
    requires GraphOf(db)
    ensures MoveItem(db, item, isTask, request, swept).Ok? ==> GraphOf(MoveItem(db, item, isTask, request, swept).value)
  {
    var e := if isTask then LinkedEvent(db.cal.events, item) else Some(item);
    if e.Some? && e.value in db.cal.events {
      RescheduleKeeps(db.tasks, db.undo.deletes, db.clock.next, db.cal.events[e.value].task, Some(request.start), Some(request.end), db.clock.now);
      NextGrows(Reschedule(db.tasks, db.cal.events[e.value].task, Some(request.start), Some(request.end), db.clock.now),
                db.undo.deletes, db.clock.next, db.clock.next + 1);
    }
  }

  lemma GraphByUndoMove(db: Db, r: Id, swept: set<Id>)
    requires GraphOf(db)
    ensures UndoMove(db, r, swept).Ok? ==> GraphOf(UndoMove(db, r, swept).value)
  {
    if r in db.undo.moves && db.undo.moves[r].item.0 in db.cal.events {
      var inverse := db.undo.moves[r];
      RescheduleKeeps(db.tasks, db.undo.deletes, db.clock.next, db.cal.events[inverse.item.0].task,
                      inverse.before.taskStart, inverse.before.taskEnd, db.clock.now);
    }
  }

  /** Every step keeps the graph. */
  lemma GraphKept(db: Db, step: Step)
    requires GraphOf(db)
    ensures GraphOf(Next(db, step))
  {
    match step
    case OnTasks(t) => GraphByTask(db, t);
    case OnEvents(e) => GraphByEvent(db, e);
    case OnUndo(u) => GraphByUndoStep(db, u);
    case Other(o) =>
  }
}
