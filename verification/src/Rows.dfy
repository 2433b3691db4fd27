/** One owner's tables, as far as tasks, events and their undo receipts need them
    (migrations/0001, 0003, 0004, 0007-0010, 0012, 0015, 0020, 0021, 0024). A table is a map from
    row ids to rows; `clock.next` is the next unused id, so ids grow with time. */
module Rows {
  import opened Prelude
  import opened CivilTime
  import opened EventShape

  type Id = int

  datatype Stamp = Stamp(version: int, updated: int)

  function Bump(s: Stamp, now: int): Stamp {
    Stamp(s.version + 1, now)
  }

  // ---- tasks ----

  datatype Status = Todo | InProgress | Blocked | Completed

  datatype Place = Place(project: Option<Id>, parent: Option<Id>, source: Option<Id>)

  datatype TaskText = TaskText(title: string, description: string, priority: int, labels: seq<string>)

  datatype Timing = Timing(due: Option<Moment>, start: Option<int>, end: Option<int>, remind: Option<int>)

  /** What a recurring task hands on to its successor. */
  datatype Content = Content(text: TaskText, timing: Timing, cadence: Cadence)

  /** `recurrence_defaults` and `recurrence_project_id` */
  datatype Template = Template(saved: Option<Content>, project: Option<Id>)

  datatype Progress = Progress(status: Status, completedAt: Option<int>, position: int)

  datatype Task = Task(place: Place, content: Content, template: Template, progress: Progress, stamp: Stamp)
  {
    predicate Recurring() {
      !content.cadence.Once?
    }

    predicate Done() {
      progress.status.Completed?
    }
  }

  type Tasks = map<Id, Task>

  // ---- calendars, events and their mappings to Google ----

  datatype Preference = Preference(selected: bool, preset: bool, primary: bool, writable: bool)

  /** `details` holds the columns a deletion compares besides the preferences, `sync` those it
      leaves out (token, times and error of the last synchronization). */
  datatype Calendar = Calendar(google: bool, external: string, preference: Preference, details: string, sync: int)

  datatype Event = Event(calendar: Id, task: Option<Id>, body: EventBody, stamp: Stamp)

  type Events = map<Id, Event>

  /** A fingerprint is a hash of a text; equal fingerprints are taken to mean equal texts. */
  datatype Fingerprint =
    | Full(shape: Wire)
    | Legacy(title: string, description: string, times: (int, int), location: string, cadence: Cadence)

  datatype RemoteRef = RemoteRef(calendar: string, event: string, etag: Option<string>, base: Option<Fingerprint>, synced: int)

  datatype Resolution = KeepGoogle | KeepProsepect | KeepLatest

  datatype Flags = Flags(dirty: bool, deleted: bool, conflict: bool, pending: Option<Resolution>, settling: bool)

  datatype Hold = Hold(until: Option<int>, tombstone: bool)

  datatype Mapping = Mapping(calendar: Id, canonical: Option<Id>, remote: RemoteRef, flags: Flags, hold: Hold)

  type Mappings = map<Id, Mapping>

  datatype Account = Account(connected: int, scopes: seq<string>)

  /** `conflicts` are the mappings with an unresolved conflict row. */
  datatype CalendarTables = CalendarTables(
    calendars: map<Id, Calendar>,
    events: Events,
    mappings: Mappings,
    conflicts: set<Id>,
    account: Option<Account>)

  // ---- what hangs on tasks and events ----

  datatype Project = Project(name: string, version: int)

  datatype Home = Home(project: Option<Id>, task: Option<Id>, event: Option<Id>, note: Option<Id>)

  datatype Note = Note(home: Home, text: string, stamp: Stamp)

  datatype File = File(home: Home, object: string)

  /** Keyed by day and task. */
  type Focus = map<(int, Id), int>

  datatype Scope = CalendarScope | ReviewScope | FocusScope(date: int)

  datatype SideTables = SideTables(
    projects: map<Id, Project>,
    notes: map<Id, Note>,
    files: map<Id, File>,
    focus: Focus,
    revisions: map<Scope, int>)

  /** A revision that was never written counts as zero. */
  function Rev(revisions: map<Scope, int>, scope: Scope): int {
    if scope in revisions then revisions[scope] else 0
  }

  // ---- undo receipts ----

  datatype SnapshotCore = SnapshotCore(id: Id, task: Task, event: Option<(Id, Event)>, mapping: Option<(Id, Mapping)>)

  datatype SnapshotOwned = SnapshotOwned(notes: map<Id, Note>, files: map<Id, File>, focus: map<int, int>, successors: Tasks)

  datatype SnapshotGuards = SnapshotGuards(
    projects: map<Id, Project>,
    tasks: Tasks,
    calendar: Option<(Id, Calendar)>,
    account: Option<Account>,
    revisions: map<Scope, int>)

  datatype Snapshot = Snapshot(core: SnapshotCore, owned: SnapshotOwned, guards: SnapshotGuards)

  datatype DeleteReceipt = DeleteReceipt(snapshot: Snapshot, expires: int)

  type DeleteReceipts = map<Id, DeleteReceipt>

  /** What the mapping of an event, if there is one, must still be when a move is undone. */
  datatype MoveGuard = MoveGuard(id: Id, calendar: Id, remoteCalendar: string, remoteEvent: string)

  datatype Before = Before(start: int, end: int, taskStart: Option<int>, taskEnd: Option<int>)

  datatype Versions = Versions(event: int, task: Option<int>)

  datatype MoveReceipt = MoveReceipt(item: (Id, Option<Id>), before: Before, versions: Versions, guard: set<MoveGuard>, expires: int)

  type MoveReceipts = map<Id, MoveReceipt>

  datatype UndoTables = UndoTables(deletes: DeleteReceipts, moves: MoveReceipts)

  datatype Clock = Clock(now: int, next: Id)

  datatype Db = Db(tasks: Tasks, cal: CalendarTables, side: SideTables, undo: UndoTables, clock: Clock)

  /** The database connection the operations work on. */
  class Store {
    var db: Db

    constructor (db: Db)
      ensures this.db == db
    {
      this.db := db;
    }
  }

  datatype AppError =
    | Validation
    | NotFound
    | Forbidden
    | Changed
    | HasSubtasks
    | NextOccurrenceChanged
    | Capacity
    | GoogleRefusal
    | NotConfigured
    | Expired
    | TooManyMoves
    | Integrity

  // ---- small row operations ----

  function WithoutSource(t: Task): Task {
    t.(place := t.place.(source := None))
  }

  function Scheduled(t: Task, start: Option<int>, end: Option<int>, now: int): Task {
    t.(content := t.content.(timing := t.content.timing.(start := start, end := end)), stamp := Bump(t.stamp, now))
  }

  function EventAt(e: Event, start: int, end: int, now: int): Event {
    e.(body := e.body.(span := e.body.span.(start := start, end := end)), stamp := Bump(e.stamp, now))
  }

  /** Everything about a calendar that a reversible deletion depends on. */
  function CalendarGuard(c: Calendar): Calendar {
    c.(sync := 0)
  }

  predicate HasChildren(tasks: Tasks, t: Id) {
    exists k :: k in tasks && tasks[k].place.parent == Some(t)
  }

  function Revived(t: Task, now: int): Task {
    t.(stamp := Bump(t.stamp, now))
  }

  function Adopted(t: Task, source: Id, now: int): Task {
    t.(place := t.place.(source := Some(source)), stamp := Bump(t.stamp, now))
  }

  /** Undoing a deletion puts the task back and gives its successor its source again. */
  function RestoreTasks(tasks: Tasks, snapshot: Snapshot, now: int): Tasks {
    map k | k in tasks.Keys + {snapshot.core.id} ::
      if k == snapshot.core.id then Revived(snapshot.core.task, now)
      else if k in snapshot.owned.successors then Adopted(tasks[k], snapshot.core.id, now)
      else tasks[k]
  }

  // ---- cascades ----

  /** `ON DELETE SET NULL` of `recurrence_source_id`: no version changes. */
  function RemoveTasks(tasks: Tasks, gone: set<Id>): Tasks {
    map k | k in tasks && k !in gone ::
      if tasks[k].place.source.Some? && tasks[k].place.source.value in gone then WithoutSource(tasks[k]) else tasks[k]
  }

  function EventsOf(events: Events, gone: set<Id>): set<Id> {
    set e | e in events && events[e].task.Some? && events[e].task.value in gone
  }

  /** The one event of a task, by the unique index on `linked_task_id`. */
  ghost function LinkedEvent(events: Events, t: Id): Option<Id> {
    Only(EventsOf(events, {t}))
  }

  function NotesOf(notes: map<Id, Note>, tasks: set<Id>, events: set<Id>): set<Id> {
    set n | n in notes && (In(notes[n].home.task, tasks) || In(notes[n].home.event, events))
  }

  predicate In(id: Option<Id>, ids: set<Id>) {
    id.Some? && id.value in ids
  }

  function Cut(id: Option<Id>, gone: set<Id>): Option<Id> {
    if In(id, gone) then None else id
  }

  /** Files survive what they were attached to. */
  function DetachFile(f: File, tasks: set<Id>, events: set<Id>, notes: set<Id>): File {
    f.(home := Home(f.home.project, Cut(f.home.task, tasks), Cut(f.home.event, events), Cut(f.home.note, notes)))
  }

  function DetachFiles(files: map<Id, File>, tasks: set<Id>, events: set<Id>, notes: set<Id>): map<Id, File> {
    map f | f in files :: DetachFile(files[f], tasks, events, notes)
  }

  function FocusRowsOf(focus: Focus, gone: set<Id>): set<(int, Id)> {
    set k | k in focus && k.1 in gone
  }

  /** Every focus row that is removed advances the revision of its day. */
  function FocusRemoved(revisions: map<Scope, int>, rows: set<(int, Id)>): map<Scope, int> {
    map s | s in revisions.Keys + (set k | k in rows :: FocusScope(k.0)) ::
      Rev(revisions, s) + |set k | k in rows && FocusScope(k.0) == s|
  }

  function CutMappings(mappings: Mappings, gone: set<Id>): Mappings {
    map m | m in mappings :: mappings[m].(canonical := Cut(mappings[m].canonical, gone))
  }

  function DropMoves(moves: MoveReceipts, tasks: set<Id>, events: set<Id>): MoveReceipts {
    map r | r in moves && moves[r].item.0 !in events && !In(moves[r].item.1, tasks) :: moves[r]
  }

  function DropSide(side: SideTables, tasks: set<Id>, events: set<Id>): SideTables {
    var notes := NotesOf(side.notes, tasks, events);
    var rows := FocusRowsOf(side.focus, tasks);
    SideTables(side.projects, side.notes - notes, DetachFiles(side.files, tasks, events, notes),
               side.focus - rows, FocusRemoved(side.revisions, rows))
  }

  /** Delete events, with everything the foreign keys take along. */
  function DropEvents(db: Db, gone: set<Id>): Db {
    db.(cal := db.cal.(events := db.cal.events - gone, mappings := CutMappings(db.cal.mappings, gone)),
        side := DropSide(db.side, {}, gone),
        undo := db.undo.(moves := DropMoves(db.undo.moves, {}, gone)))
  }

  /** Delete tasks, with everything the foreign keys take along. */
  function DropTasks(db: Db, gone: set<Id>): Db {
    var events := EventsOf(db.cal.events, gone);
    db.(tasks := RemoveTasks(db.tasks, gone),
        cal := db.cal.(events := db.cal.events - events, mappings := CutMappings(db.cal.mappings, events)),
        side := DropSide(db.side, gone, events),
        undo := db.undo.(moves := DropMoves(db.undo.moves, gone, events)))
  }
}
