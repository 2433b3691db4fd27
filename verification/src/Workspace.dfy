/** The owner's workspace as a state machine: every transaction that writes tasks, events or
    undo receipts, the clock, housekeeping, and anything else that happens to the other tables.
    A transaction is atomic; one that is refused leaves the database as it was. */
module Workspace {
  import opened Prelude
  import opened CivilTime
  import opened EventShape
  import opened Rows
  import opened Recurrence
  import opened Transactions
  import opened DeleteUndo
  import opened Moves

  datatype TaskStep =
    | NewTask(request: TaskRequest, block: Block)
    | EditTask(task: Id, request: TaskRequest, scope: Option<EditScope>, block: Block)
    | RemoveTask(task: Id, expected: int)
    | RemoveProject(project: Id, expected: int)
    | SortTasks(positions: map<Id, int>)
    | Review(deadlines: map<Id, Moment>, side: SideTables)
    | PlaceEvent(task: Id, block: Block)

  datatype EventStep =
    | NewEvent(calendar: Id, body: EventBody)
    | EditEvent(event: Id, calendar: Id, body: EventBody, expected: int)
    | RemoveEvent(event: Id, expected: int)
    | PulledEvent(event: Id, calendar: Id, body: EventBody)
    | PulledNew(calendar: Id, body: EventBody)
    | PulledGone(event: Id)
    | RemoveCalendar(calendar: Id)

  datatype UndoStep =
    | DeleteTaskReversibly(task: Id, expected: int, validated: Option<Snapshot>)
    | UndoDeletion(receipt: Id, provider: Option<AppError>)
    | MoveItemTo(item: Id, isTask: bool, request: MoveRequest, swept: set<Id>)
    | UndoMoveOf(receipt: Id, swept: set<Id>)
    | Forget(deletes: set<Id>, moves: set<Id>)

  /** `Elsewhere` stands for every writer of the tables no step above is about. */
  datatype OtherStep =
    | Tick(seconds: nat)
    | Elsewhere(side: SideTables, calendars: map<Id, Calendar>, mappings: Mappings, conflicts: set<Id>, account: Option<Account>)

  datatype Step = OnTasks(t: TaskStep) | OnEvents(e: EventStep) | OnUndo(u: UndoStep) | Other(o: OtherStep)

  function Commit(db: Db, outcome: Outcome): Db {
    if outcome.Ok? then outcome.value else db
  }

  ghost function NextTask(db: Db, step: TaskStep): Db {
    match step
    case NewTask(request, block) => Commit(db, CreateTask(db, request, block))
    case EditTask(task, request, scope, block) => Commit(db, UpdateTask(db, task, request, scope, block))
    case RemoveTask(task, expected) => Commit(db, DeleteTask(db, task, expected))
    case RemoveProject(project, expected) => Commit(db, DeleteProject(db, project, expected))
    case SortTasks(positions) => Reorder(db, positions)
    case Review(deadlines, side) => Reviewed(db, deadlines, side)
    case PlaceEvent(task, block) => if task in db.tasks then SyncTaskEvent(db, task, block) else db
  }

  function NextEvent(db: Db, step: EventStep): Db {
    match step
    case NewEvent(calendar, body) => Commit(db, CreateEvent(db, calendar, body))
    case EditEvent(event, calendar, body, expected) => Commit(db, UpdateEvent(db, event, calendar, body, expected))
    case RemoveEvent(event, expected) => Commit(db, DeleteEvent(db, event, expected))
    case PulledEvent(event, calendar, body) => Commit(db, PullUpdate(db, event, calendar, body))
    case PulledNew(calendar, body) => Commit(db, PullInsert(db, calendar, body))
    case PulledGone(event) => PullDelete(db, event)
    case RemoveCalendar(calendar) => DeleteCalendar(db, calendar)
  }

  /** Housekeeping forgets receipts that are no longer active. */
  function Forgotten(db: Db, deletes: set<Id>, moves: set<Id>): Db {
    db.(undo := UndoTables(
      map r | r in db.undo.deletes && (r !in deletes || Active(db.undo.deletes[r].expires, db.clock.now)) :: db.undo.deletes[r],
      Swept(db.undo.moves, moves, db.clock.now)))
  }

  ghost function NextUndo(db: Db, step: UndoStep): Db {
    match step
    case DeleteTaskReversibly(task, expected, validated) =>
      var outcome := DeleteReversibly(db, task, expected, validated);
      if outcome.Ok? && outcome.value.Done? then outcome.value.db else db
    case UndoDeletion(receipt, provider) => Commit(db, UndoDelete(db, receipt, provider))
    case MoveItemTo(item, isTask, request, swept) => Commit(db, MoveItem(db, item, isTask, request, swept))
    case UndoMoveOf(receipt, swept) => Commit(db, UndoMove(db, receipt, swept))
    case Forget(deletes, moves) => Forgotten(db, deletes, moves)
  }

  function NextOther(db: Db, step: OtherStep): Db {
    match step
    case Tick(seconds) => db.(clock := db.clock.(now := db.clock.now + seconds))
    case Elsewhere(side, calendars, mappings, conflicts, account) =>
      db.(side := side, cal := CalendarTables(calendars, db.cal.events, mappings, conflicts, account))
  }

  ghost function Next(db: Db, step: Step): Db {
    match step
    case OnTasks(t) => NextTask(db, t)
    case OnEvents(e) => NextEvent(db, e)
    case OnUndo(u) => NextUndo(db, u)
    case Other(o) => NextOther(db, o)
  }

  ghost function Run(db: Db, steps: seq<Step>): Db
    decreases |steps|
  {
    if steps == [] then db else Run(Next(db, steps[0]), steps[1..])
  }

  function Start(now: int): Db {
    Db(map[], CalendarTables(map[], map[], map[], {}, None), SideTables(map[], map[], map[], map[], map[]),
       UndoTables(map[], map[]), Clock(now, 0))
  }

  ghost predicate Reachable(db: Db) {
    exists now, steps :: Run(Start(now), steps) == db
  }
}
