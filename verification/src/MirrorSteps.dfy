/** Each step of the workspace keeps the mirror between tasks and events. */
module MirrorSteps {
  import opened Prelude
  import opened EventShape
  import opened Rows
  import opened RecurrenceLineage
  import opened Recurrence
  import opened Transactions
  import opened ScheduleMirror
  import opened DeleteUndo
  import opened DeleteRoundTrip
  import opened Moves
  import opened Workspace

  ghost predicate MirrorOf(db: Db) {
    && Mirror(db.tasks, db.cal.events, db.undo)
    && (forall e :: e in db.cal.events ==> e < db.clock.next)
    && (forall t :: t in db.tasks ==> t < db.clock.next)
  }

  /** Everything but the event of one task is mirrored. */
  ghost predicate MirrorBut(db: Db, t: Id) {
    && OneEvent(db.cal.events) && DeletesMirrored(db.undo.deletes) && MovesMirrored(db.undo.moves)
    && (forall e :: e in db.cal.events && db.cal.events[e].task != Some(t) ==> Faithful(db.tasks, db.cal.events[e]))
    && (forall e :: e in db.cal.events ==> e < db.clock.next)
    && (forall k :: k in db.tasks ==> k < db.clock.next)
  }

  lemma FewerMoves(moves: MoveReceipts, tasks: set<Id>, events: set<Id>)
    requires MovesMirrored(moves)
    ensures MovesMirrored(DropMoves(moves, tasks, events))
  {
  }

  lemma MirrorBySync(db: Db, t: Id, block: Block)
    requires MirrorBut(db, t) && t in db.tasks
    ensures MirrorOf(SyncTaskEvent(db, t, block))
  {
    var timing := db.tasks[t].content.timing;
    if timing.start.Some? && timing.end.Some? {
      UpsertMirrors(db.tasks, db.cal.events, t, db.tasks[t], timing.start.value, timing.end.value, block, db.clock);
    } else {
      var gone := EventsOf(db.cal.events, {t});
      FewerEventsMirror(db.tasks, db.cal.events, gone);
      FewerMoves(db.undo.moves, {}, gone);
    }
  }

  lemma MirrorWithNew(db: Db, row: Task)
    requires MirrorOf(db)
    ensures MirrorBut(WithNew(db, row), db.clock.next)
  {
    var tasks := WithNew(db, row).tasks;
    forall e | e in db.cal.events
      ensures Faithful(tasks, db.cal.events[e])
    {
      assert Faithful(db.tasks, db.cal.events[e]);
    }
  }

  lemma MirrorByInsert(db: Db, row: Task, block: Block)
    requires MirrorOf(db)
    ensures MirrorOf(InsertTask(db, row, block))
  {
    MirrorWithNew(db, row);
    MirrorBySync(WithNew(db, row), db.clock.next, block);
  }

  lemma MirrorByPut(db: Db, t: Id, row: Task, block: Block)
    requires MirrorOf(db) && t in db.tasks
    ensures MirrorOf(SyncTaskEvent(db.(tasks := db.tasks[t := row]), t, block))
  {
    var put := db.(tasks := db.tasks[t := row]);
    forall e | e in db.cal.events && db.cal.events[e].task != Some(t)
      ensures Faithful(put.tasks, db.cal.events[e])
    {
      assert Faithful(db.tasks, db.cal.events[e]);
    }
    MirrorBySync(put, t, block);
  }

  lemma MirrorByDrop(db: Db, gone: set<Id>)
    requires MirrorOf(db)
    ensures MirrorOf(DropTasks(db, gone))
  {
    RemoveMirrors(db.tasks, db.cal.events, gone);
    FewerMoves(db.undo.moves, gone, EventsOf(db.cal.events, gone));
  }

  lemma MirrorByDropEvents(db: Db, cal: CalendarTables, gone: set<Id>)
    requires MirrorOf(db) && cal.events == db.cal.events
    ensures MirrorOf(DropEvents(db.(cal := cal), gone))
  {
    FewerEventsMirror(db.tasks, db.cal.events, gone);
    FewerMoves(db.undo.moves, {}, gone);
  }

  lemma MirrorByWrite(db: Db, t: Id, row: Task, wasDone: bool, block: Block)
    requires MirrorOf(db) && t in db.tasks
    ensures WriteTask(db, t, row, wasDone, block).Ok? ==> MirrorOf(WriteTask(db, t, row, wasDone, block).value)
  {
    MirrorByPut(db, t, row, block);
    var written := SyncTaskEvent(db.(tasks := db.tasks[t := row]), t, block);
    var next := NextOccurrence(t, written.tasks[t], block.position, written.clock.now);
    if next.Ok? {
      MirrorByInsert(written, next.value, block);
    }
  }

  lemma MirrorByEdit(db: Db, t: Id, request: TaskRequest, scope: Option<EditScope>, block: Block)
    requires MirrorOf(db) && Lines(db.tasks)
    ensures UpdateTask(db, t, request, scope, block).Ok? ==> MirrorOf(UpdateTask(db, t, request, scope, block).value)
  {
    if t in db.tasks && Prepared(db.tasks[t], request, scope).Ok? {
      var task := db.tasks[t];
      var row := UpdatedRow(task, request, Prepared(task, request, scope).value, db.clock.now);
      if task.Done() && !row.Done() {
        var next := SuccessorsOf(db.tasks, t);
        MirrorByDrop(db, next);
        assert t !in next by {
          assert t in next ==> SourceDone(db.tasks, t, t);
        }
        MirrorByWrite(DropTasks(db, next), t, row, true, block);
      } else {
        MirrorByWrite(db, t, row, task.Done(), block);
      }
    }
  }

  lemma MirrorByRemove(db: Db, gone: set<Id>)
    requires MirrorOf(db)
    ensures MirrorOf(DropTasks(RemoveTaskEvents(db, gone), gone))
  {
    var linked := EventsOf(db.cal.events, gone);
    MirrorByDropEvents(db, Mark(db.cal, linked, true), linked);
    MirrorByDrop(RemoveTaskEvents(db, gone), gone);
  }

  lemma MirrorByRows(db: Db, after: Tasks)
    requires MirrorOf(db) && SameSchedules(db.tasks, after) && (forall t :: t in after ==> t in db.tasks)
    ensures MirrorOf(db.(tasks := after))
  {
    SameSchedulesMirror(db.tasks, after, db.cal.events);
  }

  lemma MirrorByRemoveProject(db: Db, p: Id, expected: int)
    requires MirrorOf(db) && DeleteProject(db, p, expected).Ok?
    ensures MirrorOf(DeleteProject(db, p, expected).value)
  {
    var gone := TasksOfProject(db.tasks, p);
    MirrorByRemove(db, gone);
    var left := DropTasks(RemoveTaskEvents(db, gone), gone);
    MirrorByRows(left, DeleteProject(db, p, expected).value.tasks);
  }

  lemma MirrorByTask(db: Db, step: TaskStep)
    requires MirrorOf(db) && Lines(db.tasks)
    ensures MirrorOf(NextTask(db, step))
  {
    match step
    case NewTask(request, block) =>
      if CreateTask(db, request, block).Ok? {
        var completed := if request.status.Completed? then Some(db.clock.now) else None;
        MirrorByInsert(db, Task(Place(request.project, request.parent, None), request.content, Template(None, None),
                                Progress(request.status, completed, block.position), Stamp(1, db.clock.now)), block);
      }
    case EditTask(task, request, scope, block) => MirrorByEdit(db, task, request, scope, block);
    case RemoveTask(task, expected) => MirrorByRemove(db, {task});
    case RemoveProject(project, expected) => if DeleteProject(db, project, expected).Ok? { MirrorByRemoveProject(db, project, expected); }
    case SortTasks(positions) => MirrorByRows(db, Reorder(db, positions).tasks);
    case Review(deadlines, side) => MirrorByRows(db, Reviewed(db, deadlines, side).tasks);
    case PlaceEvent(task, block) => if task in db.tasks { MirrorBySync(db, task, block); }
  }

  // ---- events ----

  lemma MirrorByUnlinked(db: Db, calendar: Id, body: EventBody)
    requires MirrorOf(db)
    ensures MirrorOf(InsertEvent(db, calendar, body))
  {
  }

  /** An event and its task get one new schedule. */
  lemma MirrorByRetime(db: Db, e: Id, row: Event, cal: CalendarTables)
    requires MirrorOf(db) && e in db.cal.events && row.task == db.cal.events[e].task
    requires cal.events == db.cal.events[e := row]
    ensures MirrorOf(db.(tasks := Reschedule(db.tasks, row.task, Some(row.body.span.start), Some(row.body.span.end), db.clock.now), cal := cal))
  {
    RetimeMirrors(db.tasks, db.cal.events, e, row, db.clock.now);
  }

  lemma MirrorByGone(db: Db, cal: CalendarTables, e: Id)
    requires MirrorOf(db) && e in db.cal.events && cal.events == db.cal.events
    ensures var left := DropEvents(db.(cal := cal), {e});
            MirrorOf(left.(tasks := Reschedule(db.tasks, db.cal.events[e].task, None, None, db.clock.now)))
  {
    UnscheduleMirrors(db.tasks, db.cal.events, e, db.clock.now);
    FewerMoves(db.undo.moves, {}, {e});
  }

  lemma MirrorByEditEvent(db: Db, e: Id, calendar: Id, body: EventBody, expected: int)
    requires MirrorOf(db) && UpdateEvent(db, e, calendar, body, expected).Ok?
    ensures MirrorOf(UpdateEvent(db, e, calendar, body, expected).value)
  {
    var before := db.cal.events[e];
    MirrorByRetime(db, e, Event(calendar, before.task, body, Bump(before.stamp, db.clock.now)),
                   UpdateEvent(db, e, calendar, body, expected).value.cal);
  }

  lemma MirrorByPulled(db: Db, e: Id, calendar: Id, body: EventBody)
    requires MirrorOf(db) && PullUpdate(db, e, calendar, body).Ok?
    ensures MirrorOf(PullUpdate(db, e, calendar, body).value)
  {
    if e in db.cal.events {
      var before := db.cal.events[e];
      var row := Event(calendar, before.task, body, Bump(before.stamp, db.clock.now));
      var retitled := Retitled(db.tasks, before.task, body.text);
      MirrorByRows(db, retitled);
      MirrorByRetime(db.(tasks := retitled), e, row, db.cal.(events := db.cal.events[e := row]));
    }
  }

  lemma MirrorByEvent(db: Db, step: EventStep)
    requires MirrorOf(db)
    ensures MirrorOf(NextEvent(db, step))
  {
    match step
    case NewEvent(calendar, body) => MirrorByUnlinked(db, calendar, body);
    case EditEvent(e, calendar, body, expected) =>
      if UpdateEvent(db, e, calendar, body, expected).Ok? { MirrorByEditEvent(db, e, calendar, body, expected); }
    case RemoveEvent(e, expected) =>
      if DeleteEvent(db, e, expected).Ok? { MirrorByGone(db, Mark(db.cal, {e}, true), e); }
    case PulledEvent(e, calendar, body) =>
      if PullUpdate(db, e, calendar, body).Ok? { MirrorByPulled(db, e, calendar, body); }
    case PulledNew(calendar, body) => MirrorByUnlinked(db, calendar, body);
    case PulledGone(e) => if e in db.cal.events { MirrorByGone(db, db.cal, e); }
    case RemoveCalendar(c) =>
      MirrorByDropEvents(db, db.cal, set e | e in db.cal.events && db.cal.events[e].calendar == c);
  }

  // ---- deletion, moves and their undo ----

  lemma TakenMirrors(db: Db, t: Id, s: Snapshot)
    requires MirrorOf(db) && t in db.tasks && Records(db, t, s)
    ensures CoreMirrored(s.core)
  {
    var e := EventId(db, t);
    if e.Some? {
      var id := e.value;
      assert id in EventsOf(db.cal.events, {t});
      assert Faithful(db.tasks, db.cal.events[id]);
    }
  }

  lemma MirrorByDelete(db: Db, t: Id, expected: int, validated: Option<Snapshot>, after: Db)
    requires MirrorOf(db) && Deletes(db, t, expected, validated, after)
    ensures MirrorOf(after)
  {
    var base, s := DeletionIs(db, t, expected, validated, after);
    TablesAfter(db, t, base, s, after);
    ReceiptOf(db, t, base, s, after);
    TakenMirrors(db, t, after.undo.deletes[db.clock.next].snapshot);
    RemoveMirrors(db.tasks, db.cal.events, {t});
    FewerMoves(db.undo.moves, {t}, EventsOf(db.cal.events, {t}));
    MirrorAfterDelete(db, t, after);
  }

  lemma MirrorAfterDelete(db: Db, t: Id, after: Db)
    requires MirrorOf(db) && db.clock.next in after.undo.deletes && after.clock.next == db.clock.next + 1
    requires after.tasks == RemoveTasks(db.tasks, {t}) && after.cal.events == db.cal.events - EventsOf(db.cal.events, {t})
    requires after.undo.deletes == db.undo.deletes[db.clock.next := after.undo.deletes[db.clock.next]]
    requires CoreMirrored(after.undo.deletes[db.clock.next].snapshot.core) && MovesMirrored(after.undo.moves)
    requires Mirrored(after.tasks, after.cal.events) && OneEvent(after.cal.events)
    ensures MirrorOf(after)
  {
  }

  lemma RestoredTasksMirror(db: Db, s: Snapshot, now: int)
    requires MirrorOf(db) && s.core.id !in db.tasks
    ensures Mirrored(RestoreTasks(db.tasks, s, now), db.cal.events)
  {
    SameSchedulesMirror(db.tasks, RestoreTasks(db.tasks, s, now), db.cal.events);
  }

  lemma RestoredEventMirrors(tasks: Tasks, events: Events, core: SnapshotCore, now: int)
    requires Mirrored(tasks, events) && OneEvent(events) && CoreMirrored(core)
    requires core.id in tasks && tasks[core.id].content == core.task.content
    requires core.event.Some? ==> core.event.value.0 !in events && EventsOf(events, {core.id}) == {}
    ensures Mirrored(tasks, RestoreEvents(events, core, now)) && OneEvent(RestoreEvents(events, core, now))
  {
    if core.event.Some? {
      var after := RestoreEvents(events, core, now);
      forall e | e in events
        ensures events[e].task != Some(core.id)
      {
        assert e !in EventsOf(events, {core.id});
      }
    }
  }

  /** The id of an event that a receipt holds is below the next one. */
  ghost predicate EventsBelow(deletes: DeleteReceipts, next: Id) {
    forall r :: r in deletes && deletes[r].snapshot.core.event.Some? ==> deletes[r].snapshot.core.event.value.0 < next
  }

  lemma MirrorByUndo(db: Db, r: Id, provider: Option<AppError>)
    requires MirrorOf(db) && EventsBelow(db.undo.deletes, db.clock.next) && UndoDelete(db, r, provider).Ok?
    requires r in db.undo.deletes && db.undo.deletes[r].snapshot.core.id < db.clock.next
    ensures MirrorOf(UndoDelete(db, r, provider).value)
  {
    var s := db.undo.deletes[r].snapshot;
    RestoredTasksMirror(db, s, db.clock.now);
    RestoredEventMirrors(RestoreTasks(db.tasks, s, db.clock.now), db.cal.events, s.core, db.clock.now);
  }

  lemma MirrorByMoved(db: Db, e: Id, request: MoveRequest)
    requires MirrorOf(db) && ItemExists(db, e)
    ensures MirrorOf(Moved(db, e, request))
  {
    var row := EventAt(db.cal.events[e], request.start, request.end, db.clock.now);
    MirrorByRetime(db, e, row, Mark(db.cal.(events := db.cal.events[e := row]), {e}, false));
    assert Faithful(db.tasks, db.cal.events[e]);
    assert MoveMirrored(Receipt(db, e));
  }

  lemma MirrorByMove(db: Db, item: Id, isTask: bool, request: MoveRequest, swept: set<Id>)
    requires MirrorOf(db)
    ensures MoveItem(db, item, isTask, request, swept).Ok? ==> MirrorOf(MoveItem(db, item, isTask, request, swept).value)
  {
    var clean := db.(undo := db.undo.(moves := Swept(db.undo.moves, swept, db.clock.now)));
    var e := if isTask then LinkedEvent(db.cal.events, item) else Some(item);
    if e.Some? && ItemExists(clean, e.value) {
      MirrorByMoved(clean, e.value, request);
    }
  }

  lemma MirrorByUndoMove(db: Db, r: Id, swept: set<Id>)
    requires MirrorOf(db) && UndoMove(db, r, swept).Ok?
    ensures MirrorOf(UndoMove(db, r, swept).value)
  {
    var inverse := db.undo.moves[r];
    var e := inverse.item.0;
    var row := EventAt(db.cal.events[e], inverse.before.start, inverse.before.end, db.clock.now);
    assert MoveMirrored(inverse);
    MirrorByRetime(db, e, row, Mark(db.cal.(events := db.cal.events[e := row]), {e}, false));
    assert row.task.Some? ==> inverse.before.taskStart == Some(row.body.span.start) && inverse.before.taskEnd == Some(row.body.span.end);
  }

  lemma MirrorByUndoStep(db: Db, step: UndoStep)
    requires MirrorOf(db) && EventsBelow(db.undo.deletes, db.clock.next)
    requires forall r :: r in db.undo.deletes ==> Gone(db.undo.deletes[r]) < db.clock.next
    ensures MirrorOf(NextUndo(db, step))
  {
    match step
    case DeleteTaskReversibly(t, expected, validated) =>
      var outcome := DeleteReversibly(db, t, expected, validated);
      if outcome.Ok? && outcome.value.Done? { MirrorByDelete(db, t, expected, validated, outcome.value.db); }
    case UndoDeletion(r, provider) => if UndoDelete(db, r, provider).Ok? { MirrorByUndo(db, r, provider); }
    case MoveItemTo(item, isTask, request, swept) => MirrorByMove(db, item, isTask, request, swept);
    case UndoMoveOf(r, swept) => if UndoMove(db, r, swept).Ok? { MirrorByUndoMove(db, r, swept); }
    case Forget(deletes, moves) =>
  }
}
