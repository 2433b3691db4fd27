/** Rows and versions: a row that is written gets a higher version, so a row found at the
    version it was left at has not been written since. Only two columns of a task are changed
    without a new version: its position (apps/api/src/store.rs:1290-1338), and its source when
    that is deleted (migrations/0004_recurrence_lineage.sql:2). */
module Versions {
  import opened Prelude
  import opened Rows
  import opened RecurrenceLineage
  import opened Recurrence
  import opened Transactions
  import opened Workspace

  /** The same row apart from its position, and from a source that it may have lost. */
  predicate SameTask(a: Task, b: Task) {
    && a.content == b.content && a.template == b.template && a.stamp == b.stamp
    && a.place.project == b.place.project && a.place.parent == b.place.parent
    && (b.place.source == a.place.source || b.place.source.None?)
    && a.progress.status == b.progress.status && a.progress.completedAt == b.progress.completedAt
  }

  predicate TaskMovedOn(before: Task, after: Task) {
    SameTask(before, after) || after.stamp.version > before.stamp.version
  }

  predicate EventMovedOn(before: Event, after: Event) {
    after == before || after.stamp.version > before.stamp.version
  }

  ghost predicate TasksMoveOn(tasks: Tasks, after: Tasks, next: Id) {
    forall t :: t in after ==> t >= next || (t in tasks && TaskMovedOn(tasks[t], after[t]))
  }

  ghost predicate EventsMoveOn(events: Events, after: Events, next: Id) {
    forall e :: e in after ==> e >= next || (e in events && EventMovedOn(events[e], after[e]))
  }

  /** Receipts of moves are dropped or kept as they are; a kept one's event is kept. */
  ghost predicate MovesShrink(moves: MoveReceipts, after: MoveReceipts, events: Events) {
    forall r :: r in after ==> r in moves && after[r] == moves[r] && after[r].item.0 in events
  }

  ghost predicate MovesOn(db: Db, after: Db) {
    && TasksMoveOn(db.tasks, after.tasks, db.clock.next)
    && EventsMoveOn(db.cal.events, after.cal.events, db.clock.next)
    && MovesShrink(db.undo.moves, after.undo.moves, after.cal.events)
    && db.clock.next <= after.clock.next && db.clock.now == after.clock.now
  }

  /** Every receipt of a move names a stored event. */
  ghost predicate MovesHaveEvents(db: Db) {
    forall r :: r in db.undo.moves ==> db.undo.moves[r].item.0 in db.cal.events
  }

  lemma MoveOnTwice(a: Db, b: Db, c: Db)
    requires MovesOn(a, b) && MovesOn(b, c)
    ensures MovesOn(a, c)
  {
  }

  lemma OnByEvents(db: Db, cal: CalendarTables, gone: set<Id>)
    requires MovesHaveEvents(db) && cal.events == db.cal.events
    ensures MovesOn(db, DropEvents(db.(cal := cal), gone))
  {
  }

  lemma OnByDrop(db: Db, gone: set<Id>)
    requires MovesHaveEvents(db)
    ensures MovesOn(db, DropTasks(db, gone))
  {
  }

  lemma OnBySync(db: Db, t: Id, block: Block)
    requires MovesHaveEvents(db) && t in db.tasks
    ensures MovesOn(db, SyncTaskEvent(db, t, block))
  {
    var timing := db.tasks[t].content.timing;
    if !(timing.start.Some? && timing.end.Some?) {
      var linked := EventsOf(db.cal.events, {t});
      OnByEvents(db, Mark(db.cal, linked, true), linked);
    }
  }

  lemma HaveEventsAfter(db: Db, after: Db)
    requires MovesOn(db, after)
    ensures MovesHaveEvents(after)
  {
  }

  lemma OnByRow(db: Db, t: Id, row: Task)
    requires MovesHaveEvents(db) && t in db.tasks && row.stamp.version > db.tasks[t].stamp.version
    ensures MovesOn(db, db.(tasks := db.tasks[t := row]))
  {
  }

  lemma OnByInsert(db: Db, row: Task, block: Block)
    requires MovesHaveEvents(db)
    ensures MovesOn(db, InsertTask(db, row, block))
  {
    OnBySync(WithNew(db, row), db.clock.next, block);
  }

  lemma OnByWrite(db: Db, t: Id, row: Task, wasDone: bool, block: Block)
    requires MovesHaveEvents(db) && t in db.tasks && row.stamp.version > db.tasks[t].stamp.version
    ensures WriteTask(db, t, row, wasDone, block).Ok? ==> MovesOn(db, WriteTask(db, t, row, wasDone, block).value)
  {
    var put := db.(tasks := db.tasks[t := row]);
    var written := SyncTaskEvent(put, t, block);
    OnByRow(db, t, row);
    OnBySync(put, t, block);
    MoveOnTwice(db, put, written);
    HaveEventsAfter(db, written);
    var next := NextOccurrence(t, written.tasks[t], block.position, written.clock.now);
    if next.Ok? {
      OnByInsert(written, next.value, block);
      MoveOnTwice(db, written, InsertTask(written, next.value, block));
    }
  }

  lemma OnByEdit(db: Db, t: Id, request: TaskRequest, scope: Option<EditScope>, block: Block)
    requires MovesHaveEvents(db) && Lines(db.tasks)
    ensures UpdateTask(db, t, request, scope, block).Ok? ==> MovesOn(db, UpdateTask(db, t, request, scope, block).value)
  {
    if t in db.tasks && Prepared(db.tasks[t], request, scope).Ok? {
      var task := db.tasks[t];
      var row := UpdatedRow(task, request, Prepared(task, request, scope).value, db.clock.now);
      if task.Done() && !row.Done() {
        var next := SuccessorsOf(db.tasks, t);
        var left := DropTasks(db, next);
        OnByDrop(db, next);
        HaveEventsAfter(db, left);
        assert t !in next by {
          assert t in next ==> SourceDone(db.tasks, t, t);
        }
        OnByWrite(left, t, row, true, block);
        if WriteTask(left, t, row, true, block).Ok? {
          MoveOnTwice(db, left, WriteTask(left, t, row, true, block).value);
        }
      } else {
        OnByWrite(db, t, row, task.Done(), block);
      }
    }
  }

  lemma OnByRemove(db: Db, gone: set<Id>)
    requires MovesHaveEvents(db)
    ensures MovesOn(db, DropTasks(RemoveTaskEvents(db, gone), gone))
  {
    var linked := EventsOf(db.cal.events, gone);
    var bare := RemoveTaskEvents(db, gone);
    OnByEvents(db, Mark(db.cal, linked, true), linked);
    HaveEventsAfter(db, bare);
    OnByDrop(bare, gone);
    MoveOnTwice(db, bare, DropTasks(bare, gone));
  }

  lemma OnByRemoveProject(db: Db, p: Id, expected: int)
    requires MovesHaveEvents(db) && DeleteProject(db, p, expected).Ok?
    ensures MovesOn(db, DeleteProject(db, p, expected).value)
  {
    var gone := TasksOfProject(db.tasks, p);
    var left := DropTasks(RemoveTaskEvents(db, gone), gone);
    OnByRemove(db, gone);
    HaveEventsAfter(db, left);
    MoveOnTwice(db, left, DeleteProject(db, p, expected).value);
  }

  lemma OnByCreate(db: Db, request: TaskRequest, block: Block)
    requires MovesHaveEvents(db) && CreateTask(db, request, block).Ok?
    ensures MovesOn(db, CreateTask(db, request, block).value)
  {
    var completed := if request.status.Completed? then Some(db.clock.now) else None;
    OnByInsert(db, Task(Place(request.project, request.parent, None), request.content, Template(None, None),
                        Progress(request.status, completed, block.position), Stamp(1, db.clock.now)), block);
  }

  lemma OnByDelete(db: Db, t: Id, expected: int)
    requires MovesHaveEvents(db) && DeleteTask(db, t, expected).Ok?
    ensures MovesOn(db, DeleteTask(db, t, expected).value)
  {
    OnByRemove(db, {t});
  }

  lemma OnByTask(db: Db, step: TaskStep)
    requires MovesHaveEvents(db) && Lines(db.tasks)
    ensures MovesOn(db, NextTask(db, step))
  {
    match step
    case NewTask(request, block) => if CreateTask(db, request, block).Ok? { OnByCreate(db, request, block); }
    case EditTask(task, request, scope, block) => OnByEdit(db, task, request, scope, block);
    case RemoveTask(task, expected) => if DeleteTask(db, task, expected).Ok? { OnByDelete(db, task, expected); }
    case RemoveProject(p, expected) => if DeleteProject(db, p, expected).Ok? { OnByRemoveProject(db, p, expected); }
    case SortTasks(positions) =>
    case Review(deadlines, side) =>
    case PlaceEvent(task, block) => if task in db.tasks { OnBySync(db, task, block); }
  }

  lemma OnByDeleteEvent(db: Db, e: Id, expected: int)
    requires MovesHaveEvents(db) && DeleteEvent(db, e, expected).Ok?
    ensures MovesOn(db, DeleteEvent(db, e, expected).value)
  {
    OnByEvents(db, Mark(db.cal, {e}, true), {e});
  }

  lemma OnByEventStep(db: Db, step: EventStep)
    requires MovesHaveEvents(db)
    ensures MovesOn(db, NextEvent(db, step))
  {
    match step
    case RemoveEvent(e, expected) => if DeleteEvent(db, e, expected).Ok? { OnByDeleteEvent(db, e, expected); }
    case PulledGone(e) => OnByEvents(db, db.cal, {e});
    case RemoveCalendar(c) =>
      OnByEvents(db, db.cal, set e | e in db.cal.events && db.cal.events[e].calendar == c);
    case _ =>
  }
}
