/** What can be deleted can be undone, with two reachable workspaces, one where it is so and one
    where it is not (apps/api/src/task_delete_store.rs:223-231, 422-424). */
module UndoInstances {
  import opened Prelude
  import opened CivilTime
  import opened EventShape
  import opened Rows
  import opened SubtaskForest
  import opened Recurrence
  import opened Transactions
  import opened DeleteUndo
  import opened DeleteRoundTrip
  import opened ImmediateUndo
  import opened Workspace
  import opened WorkspaceTheorems

  /** Nothing stands in the way, and the fingerprint is the present one. */
  ghost predicate Deletable(db: Db, t: Id, expected: int) {
    var e, m := EventId(db, t), MappingId(db, t);
    && DeleteRefusal(db, t, expected, e, m).None?
    && !(e.Some? && IsLegacy(db.cal, db.cal.events[e.value], m))
  }

  ghost function DeletedOf(db: Db, t: Id): Db
    requires t in db.tasks
  {
    Deleted(db, Taken(db, t), MappingId(db, t))
  }

  lemma DeletableDeletes(db: Db, t: Id, expected: int)
    requires Deletable(db, t, expected)
    ensures t in db.tasks && Deletes(db, t, expected, None, DeletedOf(db, t))
  {
  }

  /** What can be deleted can be brought back for sixty seconds, unless it hangs under its own
      successor. */
  lemma DeletableComesBack(db: Db, t: Id, expected: int, now: int)
    requires Deletable(db, t, expected) && Sound(db)
    requires db.clock.now <= now < db.clock.now + UNDO_WINDOW
    ensures t in db.tasks
    ensures UndoDelete(At(DeletedOf(db, t), now), db.clock.next, None).Ok? <==> !UnderSuccessor(db, t)
  {
    DeletableDeletes(db, t, expected);
    UndoAtOnce(db, t, expected, None, DeletedOf(db, t), now);
  }

  // ---- a task nothing hangs on ----

  ghost predicate Untied(db: Db, t: Id) {
    && (forall e :: e in db.cal.events ==> db.cal.events[e].task != Some(t))
    && (forall n :: n in db.side.notes ==> db.side.notes[n].home.task != Some(t))
    && (forall f :: f in db.side.files ==> db.side.files[f].home.task != Some(t))
    && (forall k :: k in db.side.focus ==> k.1 != t)
    && (forall r :: r in db.undo.deletes ==> !Active(db.undo.deletes[r].expires, db.clock.now))
  }

  lemma NothingHangs(db: Db, t: Id)
    requires Untied(db, t)
    ensures EventsOf(db.cal.events, {t}) == {} && ActiveDeletes(db.undo.deletes, db.clock.now) == {}
    ensures NotesOf(db.side.notes, {t}, {}) == {} && FilesOf(db.side.files, {t}, {}, {}) == {}
    ensures FocusOf(db.side.focus, t).Keys == {}
  {
    if EventsOf(db.cal.events, {t}) != {} {
      var x := Member(EventsOf(db.cal.events, {t}));
      assert false;
    }
    if ActiveDeletes(db.undo.deletes, db.clock.now) != {} {
      var x := Member(ActiveDeletes(db.undo.deletes, db.clock.now));
      assert false;
    }
    if NotesOf(db.side.notes, {t}, {}) != {} {
      var x := Member(NotesOf(db.side.notes, {t}, {}));
      assert false;
    }
    if FilesOf(db.side.files, {t}, {}, {}) != {} {
      var x := Member(FilesOf(db.side.files, {t}, {}, {}));
      assert false;
    }
    if FocusOf(db.side.focus, t).Keys != {} {
      var x := Member(FocusOf(db.side.focus, t).Keys);
      assert false;
    }
  }

  lemma NothingOwned(db: Db, t: Id)
    requires Untied(db, t) && |SuccessorsOf(db.tasks, t)| <= 1
    ensures EventId(db, t).None? && MappingId(db, t).None?
    ensures WithinCaps(OwnedBy(db, t, None))
  {
    NothingHangs(db, t);
    var owned := OwnedBy(db, t, None);
    assert Ids(None, None) == {};
    assert owned.notes.Keys == {} && owned.files.Keys == {};
    assert owned.successors.Keys == SuccessorsOf(db.tasks, t);
  }

  lemma UntiedIsDeletable(db: Db, t: Id)
    requires Untied(db, t) && t in db.tasks && db.tasks[t].stamp.version >= 1
    requires !HasChildren(db.tasks, t) && |SuccessorsOf(db.tasks, t)| <= 1
    requires db.tasks[t].place.project.None? && db.tasks[t].template.project.None?
    requires Ids(db.tasks[t].place.parent, db.tasks[t].place.source) <= db.tasks.Keys
    ensures Deletable(db, t, db.tasks[t].stamp.version)
  {
    NothingOwned(db, t);
    NothingHangs(db, t);
  }

  /** `after` has other tasks; nothing hangs on `t` as before. */
  ghost predicate Wrote(db: Db, after: Db, t: Id, tasks: Tasks, next: Id) {
    after.tasks == tasks && after.clock == Clock(db.clock.now, next) && Untied(after, t)
  }

  lemma UnscheduledSync(db: Db, k: Id, block: Block, t: Id)
    requires k in db.tasks && db.tasks[k].content.timing.start.None? && Untied(db, t)
    ensures Wrote(db, SyncTaskEvent(db, k, block), t, db.tasks, db.clock.next)
  {
  }

  lemma UnscheduledWrite(db: Db, k: Id, row: Task, wasDone: bool, block: Block, t: Id)
    requires k in db.tasks && row.content.timing.start.None? && Untied(db, t)
    requires wasDone || !row.Done() || !row.Recurring()
    ensures WriteTask(db, k, row, wasDone, block).Ok?
    ensures Wrote(db, WriteTask(db, k, row, wasDone, block).value, t, db.tasks[k := row], db.clock.next)
  {
    UnscheduledSync(db.(tasks := db.tasks[k := row]), k, block, t);
  }

  lemma UnscheduledInsert(db: Db, row: Task, block: Block, t: Id)
    requires row.content.timing.start.None? && Untied(db, t)
    ensures Wrote(db, InsertTask(db, row, block), t, db.tasks[db.clock.next := row], db.clock.next + 1)
  {
    UnscheduledSync(WithNew(db, row), db.clock.next, block, t);
  }

  // ---- four transactions ----

  const MIDNIGHT: Block := Block(0, "UTC", 0)

  function DailyContent(): Content {
    Content(TaskText("t", "", 0, []), Timing(Some(DateTime(1970, 1, 1, 0)), None, None, None), Daily)
  }

  function OnceContent(): Content {
    Content(TaskText("t", "", 0, []), Timing(None, None, None, None), Once)
  }

  function NewRow(now: int): Task {
    Task(Place(None, None, None), DailyContent(), Template(None, None), Progress(Todo, None, 0), Stamp(1, now))
  }

  function CompletedRow(now: int): Task {
    Task(Place(None, None, None), DailyContent(), Template(None, None), Progress(Completed, Some(now), 0), Stamp(2, now))
  }

  function SingleRow(now: int): Task {
    Task(Place(None, None, Some(0)), OnceContent(), Template(None, None), Progress(Todo, None, 0), Stamp(2, now))
  }

  function HungRow(now: int): Task {
    Task(Place(None, Some(1), None), OnceContent(), Template(None, None), Progress(Completed, Some(now), 0), Stamp(3, now))
  }

  const CREATE: Step := OnTasks(NewTask(TaskRequest(None, None, DailyContent(), Todo, 0), MIDNIGHT))
  const COMPLETE: Step := OnTasks(EditTask(0, TaskRequest(None, None, DailyContent(), Completed, 1), None, MIDNIGHT))
  const SINGLE: Step := OnTasks(EditTask(1, TaskRequest(None, None, OnceContent(), Todo, 1), None, MIDNIGHT))
  const HANG: Step := OnTasks(EditTask(0, TaskRequest(None, Some(1), OnceContent(), Completed, 2), None, MIDNIGHT))

  lemma CreateWrites(db: Db)
    requires db.tasks == map[] && db.clock.next == 0 && Untied(db, 0)
    ensures Wrote(db, Next(db, CREATE), 0, map[0 := NewRow(db.clock.now)], 1)
  {
    UnscheduledInsert(db, NewRow(db.clock.now), MIDNIGHT, 0);
  }

  /** The successor of a task that is completed. */
  ghost predicate IsSuccessor(row: Task, now: int) {
    && NextOccurrence(0, CompletedRow(now), 0, now) == Ok(row)
    && row.place == Place(None, None, Some(0)) && row.Recurring() && !row.Done() && row.stamp.version == 1
    && row.content.timing.start.None? && row.progress == Progress(Todo, None, 0)
  }

  lemma SuccessorExists(now: int) returns (row: Task)
    ensures IsSuccessor(row, now)
  {
    var due := DateTime(1970, 1, 1, 0);
    assert AddDays(due, 1) == Some(NextDay(due)) by {
      assert AddDays(NextDay(due), 0) == Some(NextDay(due));
    }
    row := NextOccurrence(0, CompletedRow(now), 0, now).value;
    NextOccurrenceIsFresh(0, CompletedRow(now), 0, now);
  }

  lemma NoneAbove(tasks: Tasks, from: Id, to: Id)
    requires from in tasks && tasks[from].place.parent.None? && from != to
    ensures !Reaches(tasks, from, to)
  {
  }

  lemma EditIsNext(db: Db, t: Id, request: TaskRequest, block: Block)
    ensures Next(db, OnTasks(EditTask(t, request, None, block))) == Commit(db, UpdateTask(db, t, request, None, block))
  {
  }

  lemma EditWrites(db: Db, k: Id, request: TaskRequest, row: Task, wasDone: bool)
    requires Untied(db, 0) && k in db.tasks && row.content.timing.start.None? && (wasDone || !row.Done() || !row.Recurring())
    requires UpdateTask(db, k, request, None, MIDNIGHT) == WriteTask(db, k, row, wasDone, MIDNIGHT)
    ensures Wrote(db, Next(db, OnTasks(EditTask(k, request, None, MIDNIGHT))), 0, db.tasks[k := row], db.clock.next)
  {
    EditIsNext(db, k, request, MIDNIGHT);
    UnscheduledWrite(db, k, row, wasDone, MIDNIGHT, 0);
  }

  lemma CompleteIsWrite(db: Db)
    requires db.tasks == map[0 := NewRow(db.clock.now)]
    ensures UpdateTask(db, 0, TaskRequest(None, None, DailyContent(), Completed, 1), None, MIDNIGHT) ==
              WriteTask(db, 0, CompletedRow(db.clock.now), false, MIDNIGHT)
  {
  }

  lemma CompletedWrite(db: Db, row: Task)
    requires db.tasks == map[0 := NewRow(db.clock.now)] && db.clock.next == 1 && Untied(db, 0) && IsSuccessor(row, db.clock.now)
    ensures var outcome := WriteTask(db, 0, CompletedRow(db.clock.now), false, MIDNIGHT);
            outcome.Ok? && Wrote(db, outcome.value, 0, map[0 := CompletedRow(db.clock.now), 1 := row], 2)
  {
    var done := CompletedRow(db.clock.now);
    var put := db.(tasks := db.tasks[0 := done]);
    var written := SyncTaskEvent(put, 0, MIDNIGHT);
    UnscheduledSync(put, 0, MIDNIGHT, 0);
    assert written.tasks == map[0 := done];
    assert SuccessorsOf(written.tasks, 0) == {};
    UnscheduledInsert(written, row, MIDNIGHT, 0);
  }

  lemma CompleteWrites(db: Db, row: Task)
    requires db.tasks == map[0 := NewRow(db.clock.now)] && db.clock.next == 1 && Untied(db, 0) && IsSuccessor(row, db.clock.now)
    ensures Wrote(db, Next(db, COMPLETE), 0, map[0 := CompletedRow(db.clock.now), 1 := row], 2)
  {
    EditIsNext(db, 0, TaskRequest(None, None, DailyContent(), Completed, 1), MIDNIGHT);
    CompleteIsWrite(db);
    CompletedWrite(db, row);
  }

  lemma SingleIsWrite(db: Db, row: Task)
    requires db.tasks == map[0 := CompletedRow(db.clock.now), 1 := row] && IsSuccessor(row, db.clock.now)
    ensures UpdateTask(db, 1, TaskRequest(None, None, OnceContent(), Todo, 1), None, MIDNIGHT) ==
              WriteTask(db, 1, SingleRow(db.clock.now), false, MIDNIGHT)
  {
  }

  lemma SingleWrites(db: Db, row: Task)
    requires db.tasks == map[0 := CompletedRow(db.clock.now), 1 := row] && db.clock.next == 2 && Untied(db, 0) && IsSuccessor(row, db.clock.now)
    ensures Wrote(db, Next(db, SINGLE), 0, map[0 := CompletedRow(db.clock.now), 1 := SingleRow(db.clock.now)], 2)
  {
    SingleIsWrite(db, row);
    EditWrites(db, 1, TaskRequest(None, None, OnceContent(), Todo, 1), SingleRow(db.clock.now), false);
  }

  lemma HangIsWrite(db: Db)
    requires db.tasks == map[0 := CompletedRow(db.clock.now), 1 := SingleRow(db.clock.now)]
    ensures UpdateTask(db, 0, TaskRequest(None, Some(1), OnceContent(), Completed, 2), None, MIDNIGHT) ==
              WriteTask(db, 0, HungRow(db.clock.now), true, MIDNIGHT)
  {
    NoneAbove(db.tasks, 1, 0);
  }

  lemma HangWrites(db: Db)
    requires db.tasks == map[0 := CompletedRow(db.clock.now), 1 := SingleRow(db.clock.now)] && db.clock.next == 2 && Untied(db, 0)
    ensures Wrote(db, Next(db, HANG), 0, db.tasks[0 := HungRow(db.clock.now)], 2)
  {
    HangIsWrite(db);
    EditWrites(db, 0, TaskRequest(None, Some(1), OnceContent(), Completed, 2), HungRow(db.clock.now), true);
  }

  // ---- where they lead ----

  lemma ReachableStart(now: int)
    ensures Reachable(Start(now)) && Untied(Start(now), 0)
  {
    assert Run(Start(now), []) == Start(now);
  }

  lemma CreatedIsReachable(now: int) returns (db: Db)
    ensures Reachable(db) && Wrote(Start(now), db, 0, map[0 := NewRow(now)], 1)
  {
    ReachableStart(now);
    db := Next(Start(now), CREATE);
    ReachableNext(Start(now), CREATE);
    CreateWrites(Start(now));
  }

  lemma CompletedIsReachable(now: int) returns (db: Db, row: Task)
    ensures Reachable(db) && IsSuccessor(row, now) && Wrote(Start(now), db, 0, map[0 := CompletedRow(now), 1 := row], 2)
  {
    row := SuccessorExists(now);
    var before := CreatedIsReachable(now);
    db := Next(before, COMPLETE);
    ReachableNext(before, COMPLETE);
    CompleteWrites(before, row);
  }

  lemma SingleIsReachable(now: int) returns (db: Db)
    ensures Reachable(db) && Wrote(Start(now), db, 0, map[0 := CompletedRow(now), 1 := SingleRow(now)], 2)
  {
    var before, row := CompletedIsReachable(now);
    db := Next(before, SINGLE);
    ReachableNext(before, SINGLE);
    SingleWrites(before, row);
  }

  lemma HungIsReachable(now: int) returns (db: Db)
    ensures Reachable(db) && Wrote(Start(now), db, 0, map[0 := HungRow(now), 1 := SingleRow(now)], 2)
  {
    var before := SingleIsReachable(now);
    db := Next(before, HANG);
    ReachableNext(before, HANG);
    HangWrites(before);
    assert before.tasks[0 := HungRow(now)] == map[0 := HungRow(now), 1 := SingleRow(now)];
  }

  /** A task on its own may be deleted, and the receipt is good. */
  lemma AloneIsDeletable(now: int) returns (db: Db)
    ensures Reachable(db) && Deletable(db, 0, 1) && 0 in db.tasks && !UnderSuccessor(db, 0)
  {
    db := CreatedIsReachable(now);
    NoneIn(SuccessorsOf(db.tasks, 0));
    UntiedIsDeletable(db, 0);
  }

  /** So may a completed task that hangs under its own successor, and by `WorthlessForEver` its
      receipt is worthless. */
  lemma UnderOwnSuccessorIsDeletable(now: int) returns (db: Db)
    ensures Reachable(db) && Deletable(db, 0, 3) && 0 in db.tasks && UnderSuccessor(db, 0)
  {
    db := HungIsReachable(now);
    AtMostOne(SuccessorsOf(db.tasks, 0), 1);
    UntiedIsDeletable(db, 0);
  }
}
