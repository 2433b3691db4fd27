/** A reachable move that is undone although its task was written meanwhile
    (apps/api/src/calendar_move_store.rs:145-213, apps/api/src/store.rs:1290-1338). */
module MoveInstances {
  import opened Prelude
  import opened EventShape
  import opened Rows
  import opened Recurrence
  import opened Transactions
  import opened Moves
  import opened Workspace
  import opened WorkspaceTheorems
  import opened MoveTheorems

  /** A move of a scheduled task, then sorting: the task differs from what the move left, and the
      undo succeeds all the same. */
  lemma SortedMoveIsUndone(db: Db, item: Id, isTask: bool, request: MoveRequest, swept: set<Id>, position: int, sweptLater: set<Id>)
    requires MoveItem(db, item, isTask, request, swept).Ok?
    requires var moved := MoveItem(db, item, isTask, request, swept).value;
             && db.clock.next in moved.undo.moves && moved.undo.moves[db.clock.next].item.1.Some?
             && var t := moved.undo.moves[db.clock.next].item.1.value;
                t in moved.tasks && moved.tasks[t].progress.position != position
    ensures var moved := MoveItem(db, item, isTask, request, swept).value;
            var t := moved.undo.moves[db.clock.next].item.1.value;
            var sorted := Reorder(moved, map[t := position]);
            && t in sorted.tasks && sorted.tasks[t] != moved.tasks[t] && sorted.tasks[t].stamp == moved.tasks[t].stamp
            && UndoMove(sorted, db.clock.next, sweptLater).Ok?
  {
    var moved := MoveItem(db, item, isTask, request, swept).value;
    var t := moved.undo.moves[db.clock.next].item.1.value;
    MoveUndoneAtOnce(db, item, isTask, request, swept, db.clock.now, sweptLater);
    AtTheSameTime(moved, db.clock.now);
    UndoIgnoresSorting(moved, map[t := position], db.clock.next, sweptLater);
    SortingWrites(moved, t, position);
  }

  lemma SortingWrites(db: Db, t: Id, position: int)
    requires t in db.tasks && db.tasks[t].progress.position != position
    ensures var after := Reorder(db, map[t := position]);
            t in after.tasks && after.tasks[t] != db.tasks[t] && after.tasks[t].stamp == db.tasks[t].stamp
  {
    assert t in map[t := position];
  }

  lemma AtTheSameTime(db: Db, now: int)
    requires db.clock.now == now
    ensures db.(clock := db.clock.(now := now)) == db
  {
  }

  // ---- a calendar, and a scheduled task ----

  const HOME: Id := 7

  function Local(): Calendar {
    Calendar(false, "", Preference(true, false, false, true), "", 0)
  }

  const SCHEDULED: Content := Content(TaskText("t", "", 0, []), Timing(None, Some(0), Some(60), None), Once)

  const OPEN: Step := Other(Elsewhere(SideTables(map[], map[], map[], map[], map[]), map[HOME := Local()], map[], {}, None))
  const CREATE: Step := OnTasks(NewTask(TaskRequest(None, None, SCHEDULED, Todo, 0), Block(HOME, "UTC", 0)))

  /** A calendar of one's own, and no mapping and no receipt yet. */
  ghost predicate Opened(db: Db) {
    && HOME in db.cal.calendars && db.cal.calendars[HOME] == Local()
    && (forall e :: e in db.cal.events ==> db.cal.events[e].task.None?)
    && (forall m :: m in db.cal.mappings ==> db.cal.mappings[m].canonical.None?)
    && (forall r :: r in db.undo.moves ==> !Active(db.undo.moves[r].expires, db.clock.now))
    && db.clock.next == 0
  }

  /** Task 0 and its event 1. */
  ghost predicate Created(db: Db) {
    && HOME in db.cal.calendars && db.cal.calendars[HOME] == Local()
    && 0 in db.tasks && db.tasks[0].progress.position == 0
    && 1 in db.cal.events && db.cal.events[1].task == Some(0) && db.cal.events[1].calendar == HOME
    && db.cal.events[1].stamp.version == 1 && db.cal.events[1].body.span.start == 0 && db.cal.events[1].body.rule.until.None?
    && (forall m :: m in db.cal.mappings ==> db.cal.mappings[m].canonical.None?)
    && (forall r :: r in db.undo.moves ==> !Active(db.undo.moves[r].expires, db.clock.now))
  }

  lemma OpenedIsReachable(now: int) returns (db: Db)
    ensures Reachable(db) && Opened(db)
  {
    assert Run(Start(now), []) == Start(now);
    ReachableNext(Start(now), OPEN);
    db := Next(Start(now), OPEN);
  }

  lemma InsertCreates(db: Db, row: Task)
    requires Opened(db) && row.content == SCHEDULED && row.progress.position == 0
    ensures Created(InsertTask(db, row, Block(HOME, "UTC", 0)))
  {
    var with := WithNew(db, row);
    if EventsOf(with.cal.events, {0}) != {} {
      var e := Member(EventsOf(with.cal.events, {0}));
      assert false;
    }
  }

  lemma CreateIsInsert(db: Db)
    ensures Next(db, CREATE) == InsertTask(db, Task(Place(None, None, None), SCHEDULED, Template(None, None), Progress(Todo, None, 0), Stamp(1, db.clock.now)),
                                           Block(HOME, "UTC", 0))
  {
  }

  lemma CreatedIsReachable(now: int) returns (db: Db)
    ensures Reachable(db) && Created(db)
  {
    var before := OpenedIsReachable(now);
    ReachableNext(before, CREATE);
    CreateIsInsert(before);
    db := Next(before, CREATE);
    InsertCreates(before, Task(Place(None, None, None), SCHEDULED, Template(None, None), Progress(Todo, None, 0), Stamp(1, before.clock.now)));
  }

  const LATER: MoveRequest := MoveRequest(120, 180, 1)

  lemma CreatedCanMove(db: Db)
    requires Created(db)
    ensures MoveItem(db, 1, false, LATER, {}).Ok?
    ensures var moved := MoveItem(db, 1, false, LATER, {}).value;
            && db.clock.next in moved.undo.moves && moved.undo.moves[db.clock.next].item == (1, Some(0))
            && 0 in moved.tasks && moved.tasks[0].progress.position == 0
  {
    var kept := Swept(db.undo.moves, {}, db.clock.now);
    if ActiveMoves(kept, db.clock.now) != {} {
      var r := Member(ActiveMoves(kept, db.clock.now));
      assert false;
    }
  }

  /** The failing run exists: create, move, sort, undo. */
  lemma SortedMoveIsReachable(now: int) returns (db: Db)
    ensures Reachable(db) && MoveItem(db, 1, false, LATER, {}).Ok?
    ensures var moved := MoveItem(db, 1, false, LATER, {}).value;
            var sorted := Reorder(moved, map[0 := 5]);
            && 0 in moved.tasks && 0 in sorted.tasks && sorted.tasks[0] != moved.tasks[0]
            && UndoMove(sorted, db.clock.next, {}).Ok?
  {
    db := CreatedIsReachable(now);
    CreatedCanMove(db);
    SortedMoveIsUndone(db, 1, false, LATER, {}, 5, {});
  }
}
