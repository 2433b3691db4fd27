/** What the owner's transactions do to the mappings: a mapping without an event is not touched,
    and no transaction but a reversible deletion and its undo touches a hold. */
module HoldMappings {
  import opened Prelude
  import opened EventShape
  import opened Rows
  import opened RecurrenceLineage
  import opened Recurrence
  import opened Transactions
  import opened Moves
  import opened Workspace

  predicate RowKept(a: Mapping, b: Mapping) {
    && b.remote == a.remote && b.hold == a.hold && b.calendar == a.calendar
    && b.flags.conflict == a.flags.conflict && b.flags.pending == a.flags.pending && b.flags.settling == a.flags.settling
    && (a.canonical.None? ==> b == a)
  }

  ghost predicate MappingsKeep(before: Mappings, after: Mappings) {
    forall m :: m in after ==> m in before && RowKept(before[m], after[m])
  }

  /** Besides, none is gone. */
  ghost predicate MappingsStay(before: Mappings, after: Mappings) {
    MappingsKeep(before, after) && forall m :: m in before ==> m in after
  }

  lemma KeepTwice(a: Mappings, b: Mappings, c: Mappings)
    requires MappingsStay(a, b) && MappingsStay(b, c)
    ensures MappingsStay(a, c)
  {
  }

  lemma KeepByMark(cal: CalendarTables, marked: set<Id>, deleted: bool)
    ensures MappingsStay(cal.mappings, Mark(cal, marked, deleted).mappings)
  {
  }

  lemma KeepByDetach(cal: CalendarTables, detached: set<Id>)
    ensures MappingsStay(cal.mappings, Detach(cal, detached).mappings)
  {
  }

  lemma KeepByCut(mappings: Mappings, gone: set<Id>)
    ensures MappingsStay(mappings, CutMappings(mappings, gone))
  {
  }

  lemma KeepByRemoveEvents(db: Db, of: set<Id>)
    ensures MappingsStay(db.cal.mappings, RemoveTaskEvents(db, of).cal.mappings)
  {
    var linked := EventsOf(db.cal.events, of);
    KeepByMark(db.cal, linked, true);
    KeepByCut(Mark(db.cal, linked, true).mappings, linked);
    KeepTwice(db.cal.mappings, Mark(db.cal, linked, true).mappings, RemoveTaskEvents(db, of).cal.mappings);
  }

  lemma KeepByDrop(db: Db, gone: set<Id>)
    ensures MappingsStay(db.cal.mappings, DropTasks(db, gone).cal.mappings)
  {
    KeepByCut(db.cal.mappings, EventsOf(db.cal.events, gone));
  }

  lemma KeepByMarks(cal: CalendarTables, moved: set<Id>, events: Events, marked: set<Id>)
    ensures MappingsStay(cal.mappings, Mark(Detach(Mark(cal, moved, true), moved).(events := events), marked, false).mappings)
  {
    var first := Mark(cal, moved, true);
    var second := Detach(first, moved);
    KeepByMark(cal, moved, true);
    KeepByDetach(first, moved);
    KeepTwice(cal.mappings, first.mappings, second.mappings);
    KeepByMark(second.(events := events), marked, false);
    KeepTwice(cal.mappings, second.mappings, Mark(second.(events := events), marked, false).mappings);
  }

  lemma KeepBySync(db: Db, t: Id, block: Block)
    requires t in db.tasks
    ensures MappingsStay(db.cal.mappings, SyncTaskEvent(db, t, block).cal.mappings)
  {
    var timing := db.tasks[t].content.timing;
    if timing.start.Some? && timing.end.Some? {
      var linked := EventsOf(db.cal.events, {t});
      var moved := set e | e in linked && db.cal.events[e].calendar != block.calendar;
      var events := UpsertEvents(db.cal.events, t, db.tasks[t], timing.start.value, timing.end.value, block, db.clock);
      KeepByMarks(db.cal, moved, events, linked);
    } else {
      KeepByRemoveEvents(db, {t});
    }
  }

  lemma KeepByInsert(db: Db, row: Task, block: Block)
    ensures MappingsStay(db.cal.mappings, InsertTask(db, row, block).cal.mappings)
  {
    KeepBySync(WithNew(db, row), db.clock.next, block);
  }

  lemma KeepByWrite(db: Db, t: Id, row: Task, wasDone: bool, block: Block)
    requires t in db.tasks
    ensures WriteTask(db, t, row, wasDone, block).Ok? ==> MappingsStay(db.cal.mappings, WriteTask(db, t, row, wasDone, block).value.cal.mappings)
  {
    var put := db.(tasks := db.tasks[t := row]);
    var written := SyncTaskEvent(put, t, block);
    KeepBySync(put, t, block);
    var next := NextOccurrence(t, written.tasks[t], block.position, written.clock.now);
    if next.Ok? {
      KeepByInsert(written, next.value, block);
      KeepTwice(db.cal.mappings, written.cal.mappings, InsertTask(written, next.value, block).cal.mappings);
    }
  }

  lemma KeepByEdit(db: Db, t: Id, request: TaskRequest, scope: Option<EditScope>, block: Block)
    requires Lines(db.tasks)
    ensures UpdateTask(db, t, request, scope, block).Ok? ==>
              MappingsStay(db.cal.mappings, UpdateTask(db, t, request, scope, block).value.cal.mappings)
  {
    if t in db.tasks && Prepared(db.tasks[t], request, scope).Ok? {
      var task := db.tasks[t];
      var row := UpdatedRow(task, request, Prepared(task, request, scope).value, db.clock.now);
      if task.Done() && !row.Done() {
        var next := SuccessorsOf(db.tasks, t);
        var left := DropTasks(db, next);
        KeepByDrop(db, next);
        assert t !in next by {
          assert t in next ==> SourceDone(db.tasks, t, t);
        }
        KeepByWrite(left, t, row, true, block);
        if WriteTask(left, t, row, true, block).Ok? {
          KeepTwice(db.cal.mappings, left.cal.mappings, WriteTask(left, t, row, true, block).value.cal.mappings);
        }
      } else {
        KeepByWrite(db, t, row, task.Done(), block);
      }
    }
  }

  lemma KeepByRemove(db: Db, gone: set<Id>)
    ensures MappingsStay(db.cal.mappings, DropTasks(RemoveTaskEvents(db, gone), gone).cal.mappings)
  {
    KeepByRemoveEvents(db, gone);
    KeepByDrop(RemoveTaskEvents(db, gone), gone);
    KeepTwice(db.cal.mappings, RemoveTaskEvents(db, gone).cal.mappings, DropTasks(RemoveTaskEvents(db, gone), gone).cal.mappings);
  }

  lemma KeepByTask(db: Db, step: TaskStep)
    requires Lines(db.tasks)
    ensures MappingsStay(db.cal.mappings, NextTask(db, step).cal.mappings)
  {
    match step
    case NewTask(request, block) =>
      if CreateTask(db, request, block).Ok? {
        var completed := if request.status.Completed? then Some(db.clock.now) else None;
        KeepByInsert(db, Task(Place(request.project, request.parent, None), request.content, Template(None, None),
                              Progress(request.status, completed, block.position), Stamp(1, db.clock.now)), block);
      }
    case EditTask(task, request, scope, block) => KeepByEdit(db, task, request, scope, block);
    case RemoveTask(task, expected) => KeepByRemove(db, {task});
    case RemoveProject(p, expected) => KeepByRemove(db, TasksOfProject(db.tasks, p));
    case SortTasks(positions) =>
    case Review(deadlines, side) =>
    case PlaceEvent(task, block) => if task in db.tasks { KeepBySync(db, task, block); }
  }

  lemma KeepByEditEvent(db: Db, e: Id, calendar: Id, body: EventBody, expected: int)
    requires UpdateEvent(db, e, calendar, body, expected).Ok?
    ensures MappingsStay(db.cal.mappings, UpdateEvent(db, e, calendar, body, expected).value.cal.mappings)
  {
    var before := db.cal.events[e];
    var row := Event(calendar, before.task, body, Bump(before.stamp, db.clock.now));
    var left := if before.calendar != calendar then Detach(Mark(db.cal, {e}, true), {e}) else db.cal;
    KeepByMarks(db.cal, {e}, left.events[e := row], {e});
    KeepByMark(left.(events := left.events[e := row]), {e}, false);
  }

  lemma KeepByDropEvents(db: Db, e: Id)
    ensures MappingsStay(db.cal.mappings, DropEvents(db.(cal := Mark(db.cal, {e}, true)), {e}).cal.mappings)
    ensures MappingsStay(db.cal.mappings, DropEvents(db, {e}).cal.mappings)
  {
    KeepByMark(db.cal, {e}, true);
    KeepByCut(Mark(db.cal, {e}, true).mappings, {e});
    KeepTwice(db.cal.mappings, Mark(db.cal, {e}, true).mappings, CutMappings(Mark(db.cal, {e}, true).mappings, {e}));
    KeepByCut(db.cal.mappings, {e});
  }

  lemma KeepByEvent(db: Db, step: EventStep)
    ensures MappingsKeep(db.cal.mappings, NextEvent(db, step).cal.mappings)
    ensures !step.RemoveCalendar? ==> MappingsStay(db.cal.mappings, NextEvent(db, step).cal.mappings)
  {
    match step
    case NewEvent(calendar, body) =>
    case EditEvent(e, calendar, body, expected) =>
      if UpdateEvent(db, e, calendar, body, expected).Ok? { KeepByEditEvent(db, e, calendar, body, expected); }
    case RemoveEvent(e, expected) => KeepByDropEvents(db, e);
    case PulledEvent(e, calendar, body) =>
    case PulledNew(calendar, body) =>
    case PulledGone(e) => KeepByDropEvents(db, e);
    case RemoveCalendar(c) => KeepByCut(db.cal.mappings, set e | e in db.cal.events && db.cal.events[e].calendar == c);
  }

  lemma KeepByMove(db: Db, item: Id, isTask: bool, request: MoveRequest, swept: set<Id>)
    requires MoveItem(db, item, isTask, request, swept).Ok?
    ensures MappingsStay(db.cal.mappings, MoveItem(db, item, isTask, request, swept).value.cal.mappings)
  {
    var e := if isTask then LinkedEvent(db.cal.events, item) else Some(item);
    var row := EventAt(db.cal.events[e.value], request.start, request.end, db.clock.now);
    KeepByMark(db.cal.(events := db.cal.events[e.value := row]), {e.value}, false);
  }

  lemma KeepByUndoMove(db: Db, r: Id, swept: set<Id>)
    requires UndoMove(db, r, swept).Ok?
    ensures MappingsStay(db.cal.mappings, UndoMove(db, r, swept).value.cal.mappings)
  {
    var inverse := db.undo.moves[r];
    var row := EventAt(db.cal.events[inverse.item.0], inverse.before.start, inverse.before.end, db.clock.now);
    KeepByMark(db.cal.(events := db.cal.events[inverse.item.0 := row]), {inverse.item.0}, false);
  }
}
