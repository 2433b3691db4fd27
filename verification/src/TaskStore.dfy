/** The task operations of apps/api/src/store.rs:956-1504: what creating and deleting a task mean to
    the owner, and how the operations run. A transaction works on a copy of the tables, statement
    by statement, and is committed as a whole or dropped. */
module TaskStore {
  import opened Prelude
  import opened Rows
  import opened SubtaskForest
  import opened Recurrence
  import opened Transactions
  import opened Workspace
  import opened WorkspaceTheorems
  import opened Effects
  import TaskEdits

  // ---- what creating or deleting a task means ----

  /** The new task is `t`, at its first version, completed only if it was asked to be; if it has a
      schedule, it has one event, which is new and has the same; nothing else changed. */
  ghost predicate TaskCreated(db: Db, after: Db, t: Id, request: TaskRequest) {
    && t !in db.tasks && t in after.tasks && after.tasks == db.tasks[t := after.tasks[t]]
    && (request.content.timing.start.Some? ==> EventCreated(db, after, t, request))
    && (request.content.timing.start.None? ==> after.cal.events == db.cal.events)
    && var row := after.tasks[t];
       && row.place == Place(request.project, request.parent, None) && row.content == request.content
       && row.template == Template(None, None) && row.stamp == Stamp(1, db.clock.now)
       && row.progress.status == request.status && (row.progress.completedAt.Some? <==> request.status.Completed?)
  }

  ghost predicate EventCreated(db: Db, after: Db, t: Id, request: TaskRequest) {
    exists e :: e in after.cal.events && IsEventOf(db, after, e, t, request)
  }

  ghost predicate IsEventOf(db: Db, after: Db, e: Id, t: Id, request: TaskRequest)
    requires e in after.cal.events
  {
    var event, timing := after.cal.events[e], request.content.timing;
    && e !in db.cal.events && after.cal.events == db.cal.events[e := event]
    && event.task == Some(t) && event.body.text.title == request.content.text.title
    && timing.start == Some(event.body.span.start) && timing.end == Some(event.body.span.end)
  }

  ghost predicate Creatable(db: Db, request: TaskRequest) {
    && ValidFields(request.content, request.parent) && ValidRelations(db, request.project, request.parent)
    && (request.content.cadence.Once? || !request.status.Completed?)
  }

  lemma InvAfterStep(db: Db, step: TaskStep)
    requires Inv(db)
    ensures Inv(NextTask(db, step))
  {
    InvKept(db, OnTasks(step));
  }

  /** Ids are new, and no event is linked to a task that does not exist. */
  ghost predicate Room(db: Db) {
    && db.clock.next !in db.tasks && db.clock.next + 1 !in db.cal.events
    && EventsOf(db.cal.events, {db.clock.next}) == {}
  }

  lemma RoomForNew(db: Db)
    requires Inv(db)
    ensures Room(db)
  {
    var next := EventsOf(db.cal.events, {db.clock.next});
    if next != {} {
      var e := Member(next);
      assert false;
    }
  }

  lemma CreateTaskWrites(db: Db, request: TaskRequest, block: Block)
    requires Room(db) && CreateTask(db, request, block).Ok?
    ensures TaskCreated(db, CreateTask(db, request, block).value, db.clock.next, request)
  {
    var after := CreateTask(db, request, block).value;
    if request.content.timing.start.Some? {
      var e := db.clock.next + 1;
      assert e in after.cal.events && IsEventOf(db, after, e, db.clock.next, request);
    } else {
      assert db.cal.events - {} == db.cal.events;
    }
  }

  lemma CreateTaskMeans(db: Db, request: TaskRequest, block: Block)
    requires Inv(db)
    ensures CreateTask(db, request, block).Ok? <==> Creatable(db, request)
    ensures CreateTask(db, request, block).Ok? ==>
              var after := CreateTask(db, request, block).value;
              TaskCreated(db, after, db.clock.next, request) && Inv(after)
  {
    if CreateTask(db, request, block).Ok? {
      RoomForNew(db);
      CreateTaskWrites(db, request, block);
      InvAfterStep(db, NewTask(request, block));
    }
  }

  /** The note is about the task or about its event. */
  predicate NoteOf(db: Db, n: Id, t: Id)
    requires n in db.side.notes
  {
    var home := db.side.notes[n].home;
    home.task == Some(t) || (home.event.Some? && IsEventOfTask(db.cal.events, home.event.value, t))
  }

  predicate IsEventOfTask(events: Events, e: Id, t: Id) {
    e in events && events[e].task == Some(t)
  }

  /** The mapping of the task's event says that it is gone, if the calendar is Google's, and names
      nothing otherwise; that of any other event is left alone. */
  predicate GoesWithTask(cal: CalendarTables, was: Mapping, row: Mapping, t: Id) {
    if was.canonical.None? || !IsEventOfTask(cal.events, was.canonical.value, t) then row == was
    else
      var e := was.canonical.value;
      if IsGoogle(cal, cal.events[e].calendar) then SaysDeleted(was, row) else row == was.(canonical := None)
  }

  /** The task is gone, and with it its events, notes and focus rows; its successor stays and forgets
      it; files stay. Google is told about the events in its calendars. No other task, event, note,
      focus row or mapping changed. */
  ghost predicate TaskDeleted(db: Db, after: Db, t: Id) {
    && (forall k :: k in after.tasks <==> k in db.tasks && k != t)
    && (forall k :: k in after.tasks ==>
          after.tasks[k] == if db.tasks[k].place.source == Some(t) then WithoutSource(db.tasks[k]) else db.tasks[k])
    && (forall e :: e in after.cal.events <==> e in db.cal.events && db.cal.events[e].task != Some(t))
    && (forall e :: e in after.cal.events ==> after.cal.events[e] == db.cal.events[e])
    && (forall n :: n in after.side.notes <==> n in db.side.notes && !NoteOf(db, n, t))
    && (forall n :: n in after.side.notes ==> after.side.notes[n] == db.side.notes[n])
    && (forall k :: k in after.side.focus <==> k in db.side.focus && k.1 != t)
    && (forall k :: k in after.side.focus ==> after.side.focus[k] == db.side.focus[k])
    && (forall f :: f in after.side.files <==> f in db.side.files)
    && (forall f :: f in after.side.files ==>
          && after.side.files[f] == db.side.files[f].(home := after.side.files[f].home)
          && after.side.files[f].home.project == db.side.files[f].home.project)
    && (forall m :: m in after.cal.mappings <==> m in db.cal.mappings)
    && (forall m :: m in db.cal.mappings ==> GoesWithTask(db.cal, db.cal.mappings[m], after.cal.mappings[m], t))
    && after.undo.deletes == db.undo.deletes && after.clock == db.clock
  }

  ghost predicate Removable(db: Db, t: Id, expected: int) {
    t in db.tasks && !HasChildren(db.tasks, t) && db.tasks[t].stamp.version == expected && expected >= 1
  }

  lemma MappingGoes(db: Db, t: Id, m: Id)
    requires m in db.cal.mappings
    ensures var after := Without(db, t).cal.mappings;
            m in after && GoesWithTask(db.cal, db.cal.mappings[m], after[m], t)
  {
    var linked := EventsOf(db.cal.events, {t});
    var left := RemoveTaskEvents(db, {t});
    assert EventsOf(left.cal.events, {t}) == {};
    var e := db.cal.mappings[m].canonical;
    if e.Some? {
      var id := e.value;
      assert id in linked <==> IsEventOfTask(db.cal.events, id, t);
      assert In(e, linked) <==> id in linked;
    }
  }

  lemma SideGoes(db: Db, t: Id)
    ensures var after := Without(db, t).side;
            && (forall n :: n in after.notes <==> n in db.side.notes && !NoteOf(db, n, t))
            && (forall n :: n in after.notes ==> after.notes[n] == db.side.notes[n])
            && (forall k :: k in after.focus <==> k in db.side.focus && k.1 != t)
            && (forall k :: k in after.focus ==> after.focus[k] == db.side.focus[k])
            && (forall f :: f in after.files <==> f in db.side.files)
            && (forall f :: f in after.files ==>
                  && after.files[f] == db.side.files[f].(home := after.files[f].home)
                  && after.files[f].home.project == db.side.files[f].home.project)
  {
    var linked := EventsOf(db.cal.events, {t});
    assert forall e :: e in linked <==> IsEventOfTask(db.cal.events, e, t);
    assert EventsOf(RemoveTaskEvents(db, {t}).cal.events, {t}) == {};
  }

  /** What is left of the tables when a task goes with its events. */
  ghost function Without(db: Db, t: Id): Db {
    DropTasks(RemoveTaskEvents(db, {t}), {t})
  }

  lemma RowsGo(db: Db, t: Id)
    ensures var after := Without(db, t);
            && (forall k :: k in after.tasks <==> k in db.tasks && k != t)
            && (forall k :: k in after.tasks ==>
                  after.tasks[k] == if db.tasks[k].place.source == Some(t) then WithoutSource(db.tasks[k]) else db.tasks[k])
            && (forall e :: e in after.cal.events <==> e in db.cal.events && db.cal.events[e].task != Some(t))
            && (forall e :: e in after.cal.events ==> after.cal.events[e] == db.cal.events[e])
            && after.undo.deletes == db.undo.deletes && after.clock == db.clock
  {
  }

  lemma DeleteTaskWrites(db: Db, t: Id, expected: int)
    requires DeleteTask(db, t, expected).Ok?
    ensures DeleteTask(db, t, expected).value == Without(db, t) && TaskDeleted(db, Without(db, t), t)
  {
    RowsGo(db, t);
    SideGoes(db, t);
    MappingsGo(db, t);
  }

  lemma MappingsGo(db: Db, t: Id)
    ensures var after := Without(db, t).cal.mappings;
            && (forall m :: m in after <==> m in db.cal.mappings)
            && (forall m :: m in db.cal.mappings ==> GoesWithTask(db.cal, db.cal.mappings[m], after[m], t))
  {
    forall m | m in db.cal.mappings
      ensures var after := Without(db, t).cal.mappings;
              m in after && GoesWithTask(db.cal, db.cal.mappings[m], after[m], t)
    {
      MappingGoes(db, t, m);
    }
  }

  lemma DeleteTaskMeans(db: Db, t: Id, expected: int)
    ensures DeleteTask(db, t, expected).Ok? <==> Removable(db, t, expected)
    ensures DeleteTask(db, t, expected).Ok? ==> TaskDeleted(db, DeleteTask(db, t, expected).value, t)
    ensures DeleteTask(db, t, expected).Ok? && Inv(db) ==> Inv(DeleteTask(db, t, expected).value)
  {
    if DeleteTask(db, t, expected).Ok? {
      DeleteTaskWrites(db, t, expected);
      if Inv(db) {
        InvAfterStep(db, RemoveTask(t, expected));
      }
    }
  }

  lemma UpdateKeepsInv(db: Db, t: Id, request: TaskRequest, scope: Option<EditScope>, block: Block)
    requires Inv(db)
    ensures UpdateTask(db, t, request, scope, block).Ok? ==> Inv(UpdateTask(db, t, request, scope, block).value)
  {
    InvAfterStep(db, EditTask(t, request, scope, block));
  }

  // ---- the operations ----

  /** `validate_task_update_relationships` */
  method CheckUpdate(tasks: Tasks, t: Id, request: TaskRequest) returns (ok: bool)
    requires t in tasks
    ensures ok <==> ValidUpdate(tasks, t, request)
  {
    var hasSubtasks := HasChildren(tasks, t);
    if hasSubtasks && (!request.content.cadence.Once? || request.project != tasks[t].place.project) {
      return false;
    }
    if request.parent.Some? {
      var cycle := CreatesCycle(tasks, request.parent.value, t);
      return !cycle;
    }
    return true;
  }

  /** `create_next_recurring_task` */
  method CreateNextOccurrence(tx: Db, t: Id, block: Block) returns (r: Outcome)
    requires t in tx.tasks
    ensures r == CreateNext(tx, t, block)
  {
    var state := new RecurringTaskState.Load(tx.tasks[t]);
    var source := state.TakeSuccessorSource();
    if source.content.timing.due.None? {
      return Err(Validation);
    }
    var due := source.content.timing.due.value;
    var nextDue := NextDue(due, source.content.cadence);
    if nextDue.None? {
      return Err(Validation);
    }
    if SuccessorsOf(tx.tasks, t) != {} {
      return Err(Integrity);
    }
    var row := Task(Place(source.place.project, None, Some(t)),
                    Content(source.content.text, ShiftedTiming(source.content.timing, due, nextDue.value), source.content.cadence),
                    Template(None, None), Progress(Todo, None, block.position), Stamp(1, tx.clock.now));
    return Ok(InsertTask(tx, row, block));
  }

  /** The versioned row update and what follows from it. */
  method WriteRow(tx: Db, t: Id, row: Task, wasDone: bool, block: Block) returns (r: Outcome)
    requires t in tx.tasks
    ensures r == WriteTask(tx, t, row, wasDone, block)
  {
    var written := SyncTaskEvent(tx.(tasks := tx.tasks[t := row]), t, block);
    if !wasDone && row.Done() && row.Recurring() {
      r := CreateNextOccurrence(written, t, block);
    } else {
      r := Ok(written);
    }
  }

  /** The checks of a new task, its row and its event. */
  method InsertRow(db: Db, request: TaskRequest, block: Block) returns (r: Outcome)
    ensures r == CreateTask(db, request, block)
  {
    if !ValidFields(request.content, request.parent) {
      return Err(Validation);
    }
    if !request.content.cadence.Once? && request.status.Completed? {
      return Err(Validation);
    }
    if !ValidRelations(db, request.project, request.parent) {
      return Err(Validation);
    }
    var id := db.clock.next;
    var completedAt := if request.status.Completed? then Some(db.clock.now) else None;
    var row := Task(Place(request.project, request.parent, None), request.content, Template(None, None),
                    Progress(request.status, completedAt, block.position), Stamp(1, db.clock.now));
    var tx := db.(tasks := db.tasks[id := row], clock := db.clock.(next := id + 1));
    return Ok(SyncTaskEvent(tx, id, block));
  }

  method CreateTaskRow(store: Store, request: TaskRequest, block: Block) returns (r: Result<Id, AppError>)
    modifies store
    ensures var done := CreateTask(old(store.db), request, block);
            && r.Ok? == done.Ok?
            && (r.Ok? ==> store.db == done.value && r.value == old(store.db).clock.next)
            && (r.Err? ==> store.db == old(store.db) && r.error == done.error)
    ensures Inv(old(store.db)) ==>
              && (r.Ok? <==> Creatable(old(store.db), request))
              && (r.Ok? ==> TaskCreated(old(store.db), store.db, r.value, request) && Inv(store.db))
  {
    if Inv(store.db) {
      CreateTaskMeans(store.db, request, block);
    }
    var created := InsertRow(store.db, request, block);
    if created.Err? {
      return Err(created.error);
    }
    r := Ok(store.db.clock.next);
    store.db := created.value;
  }

  /** The checks of an edit, and its statements. */
  method EditRow(db: Db, t: Id, request: TaskRequest, scope: Option<EditScope>, block: Block) returns (r: Outcome)
    requires forall k :: k in db.tasks ==> db.tasks[k].place.source != Some(k)
    ensures r == UpdateTask(db, t, request, scope, block)
  {
    if !ValidFields(request.content, request.parent) || request.expected < 1 || request.parent == Some(t) {
      return Err(Validation);
    }
    var tx := db;
    if !ValidRelations(tx, request.project, request.parent) {
      return Err(Validation);
    }
    if t !in tx.tasks {
      return Err(NotFound);
    }
    var ok := CheckUpdate(tx.tasks, t, request);
    if !ok {
      return Err(Validation);
    }
    var task := tx.tasks[t];
    var state := new RecurringTaskState.Load(task);
    var prepared := state.Prepare(request, scope);
    if prepared.Err? {
      return Err(prepared.error);
    }
    var row := UpdatedRow(task, request, Template(state.recurrenceDefaults, state.recurrenceProject), tx.clock.now);
    var reopens := task.Done() && !row.Done();
    if reopens {
      var removed := RemoveNext(tx, t);
      if removed.Err? {
        return Err(removed.error);
      }
      tx := removed.value;
    }
    r := WriteRow(tx, t, row, task.Done(), block);
  }

  method UpdateTaskScoped(store: Store, t: Id, request: TaskRequest, scope: Option<EditScope>, block: Block) returns (r: Result<(), AppError>)
    requires forall k :: k in store.db.tasks ==> store.db.tasks[k].place.source != Some(k)
    modifies store
    ensures var done := UpdateTask(old(store.db), t, request, scope, block);
            && r.Ok? == done.Ok?
            && (r.Ok? ==> store.db == done.value)
            && (r.Err? ==> store.db == old(store.db) && r.error == done.error)
    ensures Inv(old(store.db)) ==> Inv(store.db) && (r.Ok? <==> TaskEdits.Acceptable(old(store.db), t, request, scope))
    ensures Inv(old(store.db)) && r.Ok? ==> TaskEdits.TaskEdited(old(store.db), store.db, t, request, scope, block)
  {
    if Inv(store.db) {
      UpdateKeepsInv(store.db, t, request, scope, block);
      TaskEdits.UpdateTaskMeans(store.db, t, request, scope, block);
    }
    var written := EditRow(store.db, t, request, scope, block);
    if written.Err? {
      return Err(written.error);
    }
    store.db := written.value;
    return Ok(());
  }

  method DeleteTaskRow(store: Store, t: Id, expected: int) returns (r: Result<(), AppError>)
    modifies store
    ensures var done := DeleteTask(old(store.db), t, expected);
            && r.Ok? == done.Ok?
            && (r.Ok? ==> store.db == done.value)
            && (r.Err? ==> store.db == old(store.db) && r.error == done.error)
    ensures r.Ok? <==> Removable(old(store.db), t, expected)
    ensures r.Ok? ==> TaskDeleted(old(store.db), store.db, t)
    ensures r.Ok? && Inv(old(store.db)) ==> Inv(store.db)
  {
    DeleteTaskMeans(store.db, t, expected);
    if expected < 1 {
      return Err(Validation);
    }
    var tx := store.db;
    if HasChildren(tx.tasks, t) {
      return Err(HasSubtasks);
    }
    tx := RemoveTaskEvents(tx, {t});
    if t !in tx.tasks {
      return Err(NotFound);
    }
    if tx.tasks[t].stamp.version != expected {
      return Err(Changed);
    }
    tx := DropTasks(tx, {t});
    store.db := tx;
    return Ok(());
  }
}
