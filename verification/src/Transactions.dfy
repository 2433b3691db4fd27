/** What each transaction on tasks and events does to the tables
    (apps/api/src/store.rs:956-1504, apps/api/src/daily_review_store.rs:77-208,
    apps/api/src/calendar_store.rs:186-676, apps/api/src/sync_service.rs:1367-1432,
    apps/api/src/sync_store.rs:113-125). A refused transaction is rolled back: it returns an error
    and no new database. */
module Transactions {
  import opened Prelude
  import opened CivilTime
  import opened EventShape
  import opened Rows
  import opened SubtaskForest
  import opened Recurrence

  type Outcome = Result<Db, AppError>

  // ---- events and their mappings ----

  predicate IsGoogle(cal: CalendarTables, c: Id) {
    c in cal.calendars && cal.calendars[c].google
  }

  /** `ensure_calendar_writable` */
  function Unwritable(cal: CalendarTables, c: Id): Option<AppError> {
    if c !in cal.calendars then Some(NotFound)
    else if cal.calendars[c].google && !cal.calendars[c].preference.writable then Some(Forbidden)
    else None
  }

  function MarkedMapping(m: Mapping, deleted: bool): Mapping {
    m.(flags := m.flags.(dirty := !deleted, deleted := deleted), canonical := if deleted then None else m.canonical)
  }

  /** `mark_event_for_sync` for some events, which are still stored. */
  function Mark(cal: CalendarTables, marked: set<Id>, deleted: bool): CalendarTables {
    cal.(mappings := map m | m in cal.mappings ::
      var e := cal.mappings[m].canonical;
      if In(e, marked) && e.value in cal.events && IsGoogle(cal, cal.events[e.value].calendar)
      then MarkedMapping(cal.mappings[m], deleted)
      else cal.mappings[m])
  }

  /** `detach_event_mapping` */
  function Detach(cal: CalendarTables, detached: set<Id>): CalendarTables {
    cal.(mappings := map m | m in cal.mappings ::
      var e := cal.mappings[m].canonical;
      if In(e, detached) && e.value in cal.events && cal.mappings[m].calendar == cal.events[e.value].calendar
      then cal.mappings[m].(canonical := None)
      else cal.mappings[m])
  }

  /** What the queries for the time-block calendar, the owner's timezone and the next position
      answer. */
  datatype Block = Block(calendar: Id, timezone: string, position: int)

  function NewTaskEvent(t: Id, row: Task, start: int, end: int, block: Block, now: int): Event {
    Event(block.calendar, Some(t),
          EventBody(EventText(row.content.text.title, row.content.text.description, "", []),
                    Span(start, end, false, block.timezone), EventRule(Once, None)),
          Stamp(1, now))
  }

  function RetimedTaskEvent(e: Event, row: Task, start: int, end: int, block: Block, now: int): Event {
    Event(block.calendar, e.task,
          EventBody(e.body.text.(title := row.content.text.title, description := row.content.text.description),
                    e.body.span.(start := start, end := end, timezone := block.timezone), e.body.rule),
          Bump(e.stamp, now))
  }

  /** The upsert on `linked_task_id`. */
  function UpsertEvents(events: Events, t: Id, row: Task, start: int, end: int, block: Block, clock: Clock): Events {
    var linked := EventsOf(events, {t});
    if linked == {} then events[clock.next := NewTaskEvent(t, row, start, end, block, clock.now)]
    else map e | e in events :: if e in linked then RetimedTaskEvent(events[e], row, start, end, block, clock.now) else events[e]
  }

  /** `remove_task_calendar_event` for some tasks. */
  function RemoveTaskEvents(db: Db, of: set<Id>): Db {
    var linked := EventsOf(db.cal.events, of);
    DropEvents(db.(cal := Mark(db.cal, linked, true)), linked)
  }

  /** `sync_task_calendar_event` */
  function SyncTaskEvent(db: Db, t: Id, block: Block): Db
    requires t in db.tasks
  {
    var timing := db.tasks[t].content.timing;
    if timing.start.Some? && timing.end.Some? then
      var linked := EventsOf(db.cal.events, {t});
      var moved := set e | e in linked && db.cal.events[e].calendar != block.calendar;
      var left := Detach(Mark(db.cal, moved, true), moved);
      var events := UpsertEvents(db.cal.events, t, db.tasks[t], timing.start.value, timing.end.value, block, db.clock);
      db.(cal := Mark(left.(events := events), linked, false),
          clock := db.clock.(next := db.clock.next + 1))
    else RemoveTaskEvents(db, {t})
  }

  // ---- tasks ----

  predicate ValidSchedule(start: Option<int>, end: Option<int>) {
    if start.Some? then end.Some? && end.value > start.value else end.None?
  }

  /** `validate_task_fields` */
  predicate ValidFields(content: Content, parent: Option<Id>) {
    && 1 <= |content.text.title| <= 240
    && |content.text.description| <= 10000
    && (!content.cadence.Once? ==> content.timing.due.Some? && parent.None?)
    && ValidSchedule(content.timing.start, content.timing.end)
  }

  /** `validate_task_relationships` */
  predicate ValidRelations(db: Db, project: Option<Id>, parent: Option<Id>) {
    && (project.Some? ==> project.value in db.side.projects)
    && (parent.Some? ==>
          && parent.value in db.tasks
          && db.tasks[parent.value].place.project == project
          && !db.tasks[parent.value].Recurring())
  }

  function CreateTask(db: Db, request: TaskRequest, block: Block): Outcome {
    if !ValidFields(request.content, request.parent) then Err(Validation)
    else if !request.content.cadence.Once? && request.status.Completed? then Err(Validation)
    else if !ValidRelations(db, request.project, request.parent) then Err(Validation)
    else
      var completed := if request.status.Completed? then Some(db.clock.now) else None;
      var row := Task(Place(request.project, request.parent, None), request.content, Template(None, None),
                      Progress(request.status, completed, block.position), Stamp(1, db.clock.now));
      Ok(InsertTask(db, row, block))
  }

  function WithNew(db: Db, row: Task): Db {
    db.(tasks := db.tasks[db.clock.next := row], clock := db.clock.(next := db.clock.next + 1))
  }

  function InsertTask(db: Db, row: Task, block: Block): Db {
    SyncTaskEvent(WithNew(db, row), db.clock.next, block)
  }

  /** `validate_task_update_relationships` */
  ghost predicate ValidUpdate(tasks: Tasks, t: Id, request: TaskRequest)
    requires t in tasks
  {
    && (HasChildren(tasks, t) ==> request.content.cadence.Once? && request.project == tasks[t].place.project)
    && (request.parent.Some? ==> !Reaches(tasks, request.parent.value, t))
  }

  function SuccessorsOf(tasks: Tasks, t: Id): set<Id> {
    set k | k in tasks && tasks[k].place.source == Some(t)
  }

  /** `remove_next_occurrence_for_reopen` */
  function RemoveNext(db: Db, t: Id): Outcome {
    var next := SuccessorsOf(db.tasks, t);
    if exists k :: k in next && !(db.tasks[k].progress.status.Todo? && db.tasks[k].stamp.version == 1) then Err(NextOccurrenceChanged)
    else Ok(DropTasks(db, next))
  }

  /** `create_next_recurring_task`; the unique index admits one successor. */
  function CreateNext(db: Db, t: Id, block: Block): Outcome
    requires t in db.tasks
  {
    match NextOccurrence(t, db.tasks[t], block.position, db.clock.now)
    case Err(error) => Err(error)
    case Ok(next) => if SuccessorsOf(db.tasks, t) != {} then Err(Integrity) else Ok(InsertTask(db, next, block))
  }

  function WriteTask(db: Db, t: Id, row: Task, wasDone: bool, block: Block): Outcome {
    var written := SyncTaskEvent(db.(tasks := db.tasks[t := row]), t, block);
    if !wasDone && row.Done() && row.Recurring() then CreateNext(written, t, block) else Ok(written)
  }

  /** `update_task_scoped` */
  ghost function UpdateTask(db: Db, t: Id, request: TaskRequest, scope: Option<EditScope>, block: Block): Outcome {
    if !ValidFields(request.content, request.parent) || request.expected < 1 || request.parent == Some(t) then Err(Validation)
    else if !ValidRelations(db, request.project, request.parent) then Err(Validation)
    else if t !in db.tasks then Err(NotFound)
    else if !ValidUpdate(db.tasks, t, request) then Err(Validation)
    else
      var task := db.tasks[t];
      match Prepared(task, request, scope)
      case Err(error) => Err(error)
      case Ok(template) =>
        var row := UpdatedRow(task, request, template, db.clock.now);
        if task.Done() && !row.Done() then
          match RemoveNext(db, t)
          case Err(error) => Err(error)
          case Ok(reopened) => WriteTask(reopened, t, row, true, block)
        else WriteTask(db, t, row, task.Done(), block)
  }

  /** `delete_task` */
  function DeleteTask(db: Db, t: Id, expected: int): Outcome {
    if expected < 1 then Err(Validation)
    else if HasChildren(db.tasks, t) then Err(HasSubtasks)
    else if t !in db.tasks then Err(NotFound)
    else if db.tasks[t].stamp.version != expected then Err(Changed)
    else Ok(DropTasks(RemoveTaskEvents(db, {t}), {t}))
  }

  function TasksOfProject(tasks: Tasks, p: Id): set<Id> {
    set t | t in tasks && tasks[t].place.project == Some(p)
  }

  /** The trigger on `recurrence_project_id`: a template loses its project and the row its version. */
  function WithoutTemplateProject(t: Task, p: Id, now: int): Task {
    if t.template.project == Some(p) then t.(template := t.template.(project := None), stamp := Bump(t.stamp, now)) else t
  }

  /** `delete_project`; its notes go with it. */
  function DeleteProject(db: Db, p: Id, expected: int): Outcome {
    if expected < 1 then Err(Validation)
    else if p !in db.side.projects then Err(NotFound)
    else if db.side.projects[p].version != expected then Err(Changed)
    else
      var gone := TasksOfProject(db.tasks, p);
      var left := DropTasks(RemoveTaskEvents(db, gone), gone);
      var notes := set n | n in left.side.notes && left.side.notes[n].home.project == Some(p);
      Ok(left.(
        tasks := map t | t in left.tasks :: WithoutTemplateProject(left.tasks[t], p, db.clock.now),
        side := left.side.(projects := left.side.projects - {p}, notes := left.side.notes - notes)))
  }

  /** `reorder_tasks` writes positions only. */
  function Reorder(db: Db, positions: map<Id, int>): Db {
    db.(tasks := map t | t in db.tasks ::
      if t in positions then db.tasks[t].(progress := db.tasks[t].progress.(position := positions[t])) else db.tasks[t])
  }

  function Deferred(t: Task, due: Moment, now: int): Task {
    t.(content := t.content.(timing := t.content.timing.(due := Some(due))), stamp := Bump(t.stamp, now))
  }

  /** `complete_daily_review`: new deadlines for the tasks put off, and new focus rows. */
  function Reviewed(db: Db, deadlines: map<Id, Moment>, side: SideTables): Db {
    db.(tasks := map t | t in db.tasks :: if t in deadlines then Deferred(db.tasks[t], deadlines[t], db.clock.now) else db.tasks[t],
        side := side)
  }

  // ---- events ----

  predicate ValidSpan(body: EventBody) {
    body.span.end > body.span.start
  }

  function CreateEvent(db: Db, calendar: Id, body: EventBody): Outcome {
    if !ValidSpan(body) then Err(Validation)
    else if Unwritable(db.cal, calendar).Some? then Err(Unwritable(db.cal, calendar).value)
    else Ok(InsertEvent(db, calendar, body))
  }

  /** A new event has no mapping yet, so there is nothing to mark. */
  function InsertEvent(db: Db, calendar: Id, body: EventBody): Db {
    db.(cal := db.cal.(events := db.cal.events[db.clock.next := Event(calendar, None, body, Stamp(1, db.clock.now))]),
        clock := db.clock.(next := db.clock.next + 1))
  }

  /** The mirrored write to a linked task. */
  function Reschedule(tasks: Tasks, t: Option<Id>, start: Option<int>, end: Option<int>, now: int): Tasks {
    if t.Some? && t.value in tasks then tasks[t.value := Scheduled(tasks[t.value], start, end, now)] else tasks
  }

  /** `update_calendar_event` */
  function UpdateEvent(db: Db, e: Id, calendar: Id, body: EventBody, expected: int): Outcome {
    if !ValidSpan(body) then Err(Validation)
    else if Unwritable(db.cal, calendar).Some? then Err(Unwritable(db.cal, calendar).value)
    else if e !in db.cal.events then Err(NotFound)
    else
      var before := db.cal.events[e];
      if Unwritable(db.cal, before.calendar).Some? then Err(Unwritable(db.cal, before.calendar).value)
      else if before.stamp.version != expected then Err(Changed)
      else
        var row := Event(calendar, before.task, body, Bump(before.stamp, db.clock.now));
        var left := if before.calendar != calendar then Detach(Mark(db.cal, {e}, true), {e}) else db.cal;
        Ok(db.(tasks := Reschedule(db.tasks, before.task, Some(body.span.start), Some(body.span.end), db.clock.now),
               cal := Mark(left.(events := left.events[e := row]), {e}, false)))
  }

  /** `delete_calendar_event` */
  function DeleteEvent(db: Db, e: Id, expected: int): Outcome {
    if e !in db.cal.events then Err(NotFound)
    else
      var before := db.cal.events[e];
      if before.stamp.version != expected then Err(Changed)
      else if Unwritable(db.cal, before.calendar).Some? then Err(Unwritable(db.cal, before.calendar).value)
      else
        var left := DropEvents(db.(cal := Mark(db.cal, {e}, true)), {e});
        Ok(left.(tasks := Reschedule(left.tasks, before.task, None, None, db.clock.now)))
  }

  function Retitled(tasks: Tasks, t: Option<Id>, text: EventText): Tasks {
    if t.Some? && t.value in tasks then
      var task := tasks[t.value];
      tasks[t.value := task.(content := task.content.(text := task.content.text.(title := text.title, description := text.description)))]
    else tasks
  }

  /** `update_canonical_event`: a pulled change; the table refuses a span that does not end
      after it starts. */
  function PullUpdate(db: Db, e: Id, calendar: Id, body: EventBody): Outcome {
    if e !in db.cal.events then Ok(db)
    else if !ValidSpan(body) then Err(Integrity)
    else
      var before := db.cal.events[e];
      var row := Event(calendar, before.task, body, Bump(before.stamp, db.clock.now));
      Ok(db.(tasks := Reschedule(Retitled(db.tasks, before.task, body.text), before.task,
                                 Some(body.span.start), Some(body.span.end), db.clock.now),
             cal := db.cal.(events := db.cal.events[e := row])))
  }

  /** `insert_canonical_event` */
  function PullInsert(db: Db, calendar: Id, body: EventBody): Outcome {
    if !ValidSpan(body) then Err(Integrity) else Ok(InsertEvent(db, calendar, body))
  }

  /** `delete_canonical_event` */
  function PullDelete(db: Db, e: Id): Db {
    if e !in db.cal.events then db
    else
      var left := DropEvents(db, {e});
      left.(tasks := Reschedule(left.tasks, db.cal.events[e].task, None, None, db.clock.now))
  }

  /** A calendar goes with its events and mappings; scheduled tasks keep their schedule. */
  function DeleteCalendar(db: Db, c: Id): Db {
    var gone := set e | e in db.cal.events && db.cal.events[e].calendar == c;
    var left := DropEvents(db, gone);
    left.(cal := left.cal.(
      calendars := left.cal.calendars - {c},
      mappings := map m | m in left.cal.mappings && left.cal.mappings[m].calendar != c :: left.cal.mappings[m]),
      side := left.side.(revisions := left.side.revisions[CalendarScope := Rev(left.side.revisions, CalendarScope) + 1]))
  }
}
