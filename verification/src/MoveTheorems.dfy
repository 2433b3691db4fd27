/** Undoing a calendar move, over every run (apps/api/src/calendar_move_store.rs:44-213). */
module MoveTheorems {
  import opened Prelude
  import opened EventShape
  import opened Rows
  import opened RecurrenceLineage
  import opened Transactions
  import opened DeleteUndo
  import opened DeleteRoundTrip
  import opened Moves
  import opened Workspace
  import opened MirrorSteps
  import opened WorkspaceTheorems
  import opened Versions

  // ---- a row seen once, and later ----

  ghost predicate WatchEvent(db: Db, e: Id, row: Event) {
    && e < db.clock.next
    && (e in db.cal.events ==> EventMovedOn(row, db.cal.events[e]))
    && (forall r :: r in db.undo.deletes ==> CoreMovedOn(db.undo.deletes[r].snapshot.core, e, row))
  }

  predicate CoreMovedOn(core: SnapshotCore, e: Id, row: Event) {
    core.event.Some? && core.event.value.0 == e ==> EventMovedOn(row, core.event.value.1)
  }

  ghost predicate WatchTask(db: Db, t: Id, row: Task) {
    && t < db.clock.next
    && (t in db.tasks ==> TaskMovedOn(row, db.tasks[t]))
    && (forall r :: r in db.undo.deletes && Gone(db.undo.deletes[r]) == t ==> TaskMovedOn(row, Row(db.undo.deletes[r])))
  }

  lemma WatchByMovingOn(db: Db, after: Db, e: Id, event: Event, t: Id, task: Task)
    requires MovesOn(db, after) && after.undo.deletes == db.undo.deletes
    ensures WatchEvent(db, e, event) ==> WatchEvent(after, e, event)
    ensures WatchTask(db, t, task) ==> WatchTask(after, t, task)
  {
  }

  lemma RecordedEvent(db: Db, t: Id, s: Snapshot, e: Id, row: Event)
    requires t in db.tasks && Records(db, t, s) && (e in db.cal.events ==> EventMovedOn(row, db.cal.events[e]))
    ensures CoreMovedOn(s.core, e, row)
  {
  }

  /** The tables a deletion of `k` leaves behind. */
  ghost predicate DeletedFrom(db: Db, k: Id, after: Db) {
    && after.tasks == RemoveTasks(db.tasks, {k}) && after.clock.next == db.clock.next + 1
    && after.cal.events == db.cal.events - EventsOf(db.cal.events, {k})
    && db.clock.next in after.undo.deletes
    && after.undo.deletes == db.undo.deletes[db.clock.next := after.undo.deletes[db.clock.next]]
    && after.undo.moves == DropMoves(db.undo.moves, {k}, EventsOf(db.cal.events, {k}))
  }

  lemma WatchAfterDelete(db: Db, k: Id, after: Db, e: Id, event: Event, t: Id, task: Task)
    requires DeletedFrom(db, k, after) && k in db.tasks
    requires Gone(after.undo.deletes[db.clock.next]) == k && Row(after.undo.deletes[db.clock.next]) == db.tasks[k]
    ensures WatchEvent(db, e, event) && CoreMovedOn(after.undo.deletes[db.clock.next].snapshot.core, e, event) ==> WatchEvent(after, e, event)
    ensures WatchTask(db, t, task) ==> WatchTask(after, t, task)
  {
  }

  lemma WatchedByDelete(db: Db, k: Id, expected: int, validated: Option<Snapshot>, after: Db, e: Id, event: Event, t: Id, task: Task)
    requires Deletes(db, k, expected, validated, after)
    ensures WatchEvent(db, e, event) ==> WatchEvent(after, e, event)
    ensures WatchTask(db, t, task) ==> WatchTask(after, t, task)
  {
    var base, s := DeletionIs(db, k, expected, validated, after);
    TablesAfter(db, k, base, s, after);
    ReceiptOf(db, k, base, s, after);
    if WatchEvent(db, e, event) {
      RecordedEvent(db, k, after.undo.deletes[db.clock.next].snapshot, e, event);
    }
    WatchAfterDelete(db, k, after, e, event, t, task);
  }

  lemma WatchedByUndo(db: Db, r: Id, provider: Option<AppError>, e: Id, event: Event, t: Id, task: Task)
    requires UndoDelete(db, r, provider).Ok?
    ensures WatchEvent(db, e, event) ==> WatchEvent(UndoDelete(db, r, provider).value, e, event)
    ensures WatchTask(db, t, task) ==> WatchTask(UndoDelete(db, r, provider).value, t, task)
  {
    var s := db.undo.deletes[r].snapshot;
    assert WatchEvent(db, e, event) ==> CoreMovedOn(s.core, e, event);
  }

  lemma WatchedByMove(db: Db, item: Id, isTask: bool, request: MoveRequest, swept: set<Id>, e: Id, event: Event, t: Id, task: Task)
    requires MoveItem(db, item, isTask, request, swept).Ok?
    ensures WatchEvent(db, e, event) ==> WatchEvent(MoveItem(db, item, isTask, request, swept).value, e, event)
    ensures WatchTask(db, t, task) ==> WatchTask(MoveItem(db, item, isTask, request, swept).value, t, task)
  {
  }

  lemma WatchedByUndoMove(db: Db, r: Id, swept: set<Id>, e: Id, event: Event, t: Id, task: Task)
    requires UndoMove(db, r, swept).Ok?
    ensures WatchEvent(db, e, event) ==> WatchEvent(UndoMove(db, r, swept).value, e, event)
    ensures WatchTask(db, t, task) ==> WatchTask(UndoMove(db, r, swept).value, t, task)
  {
  }

  lemma WatchedByUndoStep(db: Db, step: UndoStep, e: Id, event: Event, t: Id, task: Task)
    ensures WatchEvent(db, e, event) ==> WatchEvent(NextUndo(db, step), e, event)
    ensures WatchTask(db, t, task) ==> WatchTask(NextUndo(db, step), t, task)
  {
    match step
    case DeleteTaskReversibly(k, expected, validated) =>
      var outcome := DeleteReversibly(db, k, expected, validated);
      if outcome.Ok? && outcome.value.Done? { WatchedByDelete(db, k, expected, validated, outcome.value.db, e, event, t, task); }
    case UndoDeletion(r, provider) => if UndoDelete(db, r, provider).Ok? { WatchedByUndo(db, r, provider, e, event, t, task); }
    case MoveItemTo(item, isTask, request, swept) =>
      if MoveItem(db, item, isTask, request, swept).Ok? { WatchedByMove(db, item, isTask, request, swept, e, event, t, task); }
    case UndoMoveOf(r, swept) => if UndoMove(db, r, swept).Ok? { WatchedByUndoMove(db, r, swept, e, event, t, task); }
    case Forget(deletes, moves) =>
  }

  // ---- the receipts of moves ----

  /** A receipt saw its event at no later version than it has now; at most a hundred are active. */
  ghost predicate MovesOf(db: Db) {
    && (forall r :: r in db.undo.moves ==> r < db.clock.next && Behind(db.undo.moves[r], db.cal.events))
    && |ActiveMoves(db.undo.moves, db.clock.now)| <= MAX_MOVES
  }

  predicate Behind(r: MoveReceipt, events: Events) {
    r.item.0 in events && r.versions.event <= events[r.item.0].stamp.version
  }

  lemma FewerActive(moves: MoveReceipts, now: int, after: MoveReceipts, later: int)
    requires forall r :: r in after ==> r in moves && after[r] == moves[r]
    requires now <= later
    ensures |ActiveMoves(after, later)| <= |ActiveMoves(moves, now)|
  {
    forall r | r in ActiveMoves(after, later)
      ensures r in ActiveMoves(moves, now)
    {
    }
    FewerOf(ActiveMoves(after, later), ActiveMoves(moves, now));
  }

  lemma MovesByMovingOn(db: Db, after: Db)
    requires MovesOf(db) && MirrorOf(db) && MovesOn(db, after)
    ensures MovesOf(after)
  {
    FewerActive(db.undo.moves, db.clock.now, after.undo.moves, after.clock.now);
    forall r | r in after.undo.moves
      ensures r < after.clock.next && Behind(after.undo.moves[r], after.cal.events)
    {
      var e := after.undo.moves[r].item.0;
      assert Behind(db.undo.moves[r], db.cal.events);
      assert e in db.cal.events;
    }
  }

  lemma MovesByDelete(db: Db, k: Id, expected: int, validated: Option<Snapshot>, after: Db)
    requires MovesOf(db) && Deletes(db, k, expected, validated, after)
    ensures MovesOf(after.(clock := after.clock.(now := db.clock.now)))
    ensures after.clock.now == db.clock.now
  {
    var base, s := DeletionIs(db, k, expected, validated, after);
    TablesAfter(db, k, base, s, after);
    BaseTables(db, k, base, s);
    FewerActive(db.undo.moves, db.clock.now, after.undo.moves, db.clock.now);
    MovesAfterDelete(db, k, after);
  }

  lemma MovesAfterDelete(db: Db, k: Id, after: Db)
    requires MovesOf(db) && DeletedFrom(db, k, after)
    ensures forall r :: r in after.undo.moves ==> r < after.clock.next && Behind(after.undo.moves[r], after.cal.events)
  {
    forall r | r in after.undo.moves
      ensures r < after.clock.next && Behind(after.undo.moves[r], after.cal.events)
    {
      assert Behind(db.undo.moves[r], db.cal.events);
    }
  }

  lemma MovesByUndo(db: Db, r: Id, provider: Option<AppError>)
    requires MovesOf(db) && UndoDelete(db, r, provider).Ok?
    ensures MovesOf(UndoDelete(db, r, provider).value)
  {
    var after := UndoDelete(db, r, provider).value;
    forall q | q in after.undo.moves
      ensures Behind(after.undo.moves[q], after.cal.events)
    {
      assert Behind(db.undo.moves[q], db.cal.events);
    }
  }

  lemma OneMoreActive(moves: MoveReceipts, id: Id, receipt: MoveReceipt, now: int)
    requires |ActiveMoves(moves, now)| < MAX_MOVES
    ensures |ActiveMoves(moves[id := receipt], now)| <= MAX_MOVES
  {
    FewerOf(ActiveMoves(moves[id := receipt], now), ActiveMoves(moves, now) + {id});
  }

  lemma MovesByMoved(db: Db, e: Id, request: MoveRequest)
    requires MovesOf(db) && ItemExists(db, e) && |ActiveMoves(db.undo.moves, db.clock.now)| < MAX_MOVES
    ensures MovesOf(Moved(db, e, request))
  {
    var after := Moved(db, e, request);
    OneMoreActive(db.undo.moves, db.clock.next, Receipt(db, e), db.clock.now);
    forall r | r in after.undo.moves
      ensures r < after.clock.next && Behind(after.undo.moves[r], after.cal.events)
    {
      if r != db.clock.next {
        assert Behind(db.undo.moves[r], db.cal.events);
      }
    }
  }

  lemma SweptKeepsMoves(db: Db, swept: set<Id>)
    requires MovesOf(db)
    ensures MovesOf(db.(undo := db.undo.(moves := Swept(db.undo.moves, swept, db.clock.now))))
  {
    FewerActive(db.undo.moves, db.clock.now, Swept(db.undo.moves, swept, db.clock.now), db.clock.now);
  }

  lemma MovesByMove(db: Db, item: Id, isTask: bool, request: MoveRequest, swept: set<Id>)
    requires MovesOf(db) && MoveItem(db, item, isTask, request, swept).Ok?
    ensures MovesOf(MoveItem(db, item, isTask, request, swept).value)
  {
    var clean := db.(undo := db.undo.(moves := Swept(db.undo.moves, swept, db.clock.now)));
    var e := if isTask then LinkedEvent(db.cal.events, item) else Some(item);
    SweptKeepsMoves(db, swept);
    MovesByMoved(clean, e.value, request);
  }

  lemma MovesByWritten(db: Db, e: Id, before: Before)
    requires MovesOf(db) && e in db.cal.events
    ensures MovesOf(WriteSchedule(db, e, before.start, before.end, before.taskStart, before.taskEnd))
    ensures forall q :: q in db.undo.moves && db.undo.moves[q].item.0 == e ==>
              var after := WriteSchedule(db, e, before.start, before.end, before.taskStart, before.taskEnd);
              db.undo.moves[q].versions.event < after.cal.events[e].stamp.version
  {
    var after := WriteSchedule(db, e, before.start, before.end, before.taskStart, before.taskEnd);
    forall r | r in db.undo.moves
      ensures Behind(db.undo.moves[r], after.cal.events)
      ensures db.undo.moves[r].item.0 == e ==> db.undo.moves[r].versions.event < after.cal.events[e].stamp.version
    {
      assert Behind(db.undo.moves[r], db.cal.events);
    }
  }

  lemma MovesByUndoMove(db: Db, r: Id, swept: set<Id>)
    requires MovesOf(db) && UndoMove(db, r, swept).Ok?
    ensures MovesOf(UndoMove(db, r, swept).value)
  {
    var inverse := db.undo.moves[r];
    var written := WriteSchedule(db, inverse.item.0, inverse.before.start, inverse.before.end, inverse.before.taskStart, inverse.before.taskEnd);
    MovesByWritten(db, inverse.item.0, inverse.before);
    FewerActive(db.undo.moves, db.clock.now, Swept(db.undo.moves - {r}, swept, db.clock.now), db.clock.now);
  }

  lemma MovesByForget(db: Db, deletes: set<Id>, moves: set<Id>)
    requires MovesOf(db)
    ensures MovesOf(Forgotten(db, deletes, moves))
  {
    FewerActive(db.undo.moves, db.clock.now, Swept(db.undo.moves, moves, db.clock.now), db.clock.now);
  }

  lemma MovesByUndoStep(db: Db, step: UndoStep)
    requires MovesOf(db)
    ensures MovesOf(NextUndo(db, step))
  {
    match step
    case DeleteTaskReversibly(k, expected, validated) =>
      var outcome := DeleteReversibly(db, k, expected, validated);
      if outcome.Ok? && outcome.value.Done? { MovesByDelete(db, k, expected, validated, outcome.value.db); }
    case UndoDeletion(r, provider) => if UndoDelete(db, r, provider).Ok? { MovesByUndo(db, r, provider); }
    case MoveItemTo(item, isTask, request, swept) =>
      if MoveItem(db, item, isTask, request, swept).Ok? { MovesByMove(db, item, isTask, request, swept); }
    case UndoMoveOf(r, swept) => if UndoMove(db, r, swept).Ok? { MovesByUndoMove(db, r, swept); }
    case Forget(deletes, moves) => MovesByForget(db, deletes, moves);
  }

  // ---- events that a receipt holds are not stored ----

  function HeldEvent(r: DeleteReceipt): Option<Id> {
    if r.snapshot.core.event.Some? then Some(r.snapshot.core.event.value.0) else None
  }

  ghost predicate EventsApart(events: Events, deletes: DeleteReceipts) {
    && (forall r :: r in deletes ==> !In(HeldEvent(deletes[r]), events.Keys))
    && (forall r, q :: r in deletes && q in deletes && HeldEvent(deletes[r]).Some? && HeldEvent(deletes[r]) == HeldEvent(deletes[q]) ==> r == q)
  }

  lemma ApartByMovingOn(db: Db, after: Db)
    requires EventsApart(db.cal.events, db.undo.deletes) && EventsBelow(db.undo.deletes, db.clock.next)
    requires MovesOn(db, after) && DeletesLeft(db, after)
    ensures EventsApart(after.cal.events, after.undo.deletes)
  {
    forall r | r in after.undo.deletes
      ensures !In(HeldEvent(after.undo.deletes[r]), after.cal.events.Keys)
    {
      if HeldEvent(db.undo.deletes[r]).Some? {
        var e := HeldEvent(db.undo.deletes[r]).value;
        assert e < db.clock.next && e !in db.cal.events;
      }
    }
  }

  lemma ApartAfterDelete(db: Db, k: Id, after: Db)
    requires EventsApart(db.cal.events, db.undo.deletes) && DeletedFrom(db, k, after) && db.clock.next !in db.undo.deletes
    requires var e := HeldEvent(after.undo.deletes[db.clock.next]);
             e.Some? ==> e.value in EventsOf(db.cal.events, {k})
    ensures EventsApart(after.cal.events, after.undo.deletes)
  {
    var held := HeldEvent(after.undo.deletes[db.clock.next]);
    forall r | r in after.undo.deletes
      ensures !In(HeldEvent(after.undo.deletes[r]), after.cal.events.Keys)
      ensures r != db.clock.next && held.Some? ==> HeldEvent(after.undo.deletes[r]) != held
    {
      if r != db.clock.next {
        assert !In(HeldEvent(db.undo.deletes[r]), db.cal.events.Keys);
      }
    }
  }

  lemma RecordedIsLinked(db: Db, t: Id, r: DeleteReceipt)
    requires t in db.tasks && Records(db, t, r.snapshot)
    ensures HeldEvent(r).Some? ==> HeldEvent(r).value in EventsOf(db.cal.events, {t})
  {
  }

  lemma ApartByDelete(db: Db, k: Id, expected: int, validated: Option<Snapshot>, after: Db)
    requires EventsApart(db.cal.events, db.undo.deletes) && Deletes(db, k, expected, validated, after) && db.clock.next !in db.undo.deletes
    ensures EventsApart(after.cal.events, after.undo.deletes)
  {
    var base, s := DeletionIs(db, k, expected, validated, after);
    TablesAfter(db, k, base, s, after);
    ReceiptOf(db, k, base, s, after);
    RecordedIsLinked(db, k, after.undo.deletes[db.clock.next]);
    ApartAfterDelete(db, k, after);
  }

  lemma ApartByUndo(db: Db, r: Id, provider: Option<AppError>)
    requires EventsApart(db.cal.events, db.undo.deletes) && UndoDelete(db, r, provider).Ok?
    ensures var after := UndoDelete(db, r, provider).value;
            EventsApart(after.cal.events, after.undo.deletes)
  {
    var after := UndoDelete(db, r, provider).value;
    forall q | q in after.undo.deletes
      ensures !In(HeldEvent(after.undo.deletes[q]), after.cal.events.Keys)
    {
      assert !In(HeldEvent(db.undo.deletes[q]), db.cal.events.Keys);
    }
  }

  /** Moves write rows that are there. */
  lemma ApartByMove(db: Db, item: Id, isTask: bool, request: MoveRequest, swept: set<Id>)
    requires EventsApart(db.cal.events, db.undo.deletes) && MoveItem(db, item, isTask, request, swept).Ok?
    ensures var after := MoveItem(db, item, isTask, request, swept).value;
            EventsApart(after.cal.events, after.undo.deletes)
  {
    SameEventsApart(db, MoveItem(db, item, isTask, request, swept).value);
  }

  lemma ApartByUndoMove(db: Db, r: Id, swept: set<Id>)
    requires EventsApart(db.cal.events, db.undo.deletes) && UndoMove(db, r, swept).Ok?
    ensures var after := UndoMove(db, r, swept).value;
            EventsApart(after.cal.events, after.undo.deletes)
  {
    SameEventsApart(db, UndoMove(db, r, swept).value);
  }

  lemma SameEventsApart(db: Db, after: Db)
    requires EventsApart(db.cal.events, db.undo.deletes) && after.undo.deletes == db.undo.deletes
    requires forall e :: e in after.cal.events ==> e in db.cal.events
    ensures EventsApart(after.cal.events, after.undo.deletes)
  {
    forall r | r in after.undo.deletes
      ensures !In(HeldEvent(after.undo.deletes[r]), after.cal.events.Keys)
    {
      assert !In(HeldEvent(db.undo.deletes[r]), db.cal.events.Keys);
      if HeldEvent(db.undo.deletes[r]).Some? {
        var e := HeldEvent(db.undo.deletes[r]).value;
        assert e !in db.cal.events && e !in after.cal.events;
      }
    }
  }

  lemma ApartByUndoStep(db: Db, step: UndoStep)
    requires EventsApart(db.cal.events, db.undo.deletes) && db.clock.next !in db.undo.deletes
    ensures EventsApart(NextUndo(db, step).cal.events, NextUndo(db, step).undo.deletes)
  {
    match step
    case DeleteTaskReversibly(k, expected, validated) =>
      var outcome := DeleteReversibly(db, k, expected, validated);
      if outcome.Ok? && outcome.value.Done? { ApartByDelete(db, k, expected, validated, outcome.value.db); }
    case UndoDeletion(r, provider) => if UndoDelete(db, r, provider).Ok? { ApartByUndo(db, r, provider); }
    case MoveItemTo(item, isTask, request, swept) =>
      if MoveItem(db, item, isTask, request, swept).Ok? { ApartByMove(db, item, isTask, request, swept); }
    case UndoMoveOf(r, swept) => if UndoMove(db, r, swept).Ok? { ApartByUndoMove(db, r, swept); }
    case Forget(deletes, moves) =>
  }

  // ---- runs ----

  ghost predicate All(db: Db) {
    Inv(db) && MovesOf(db) && EventsApart(db.cal.events, db.undo.deletes)
  }

  lemma TaskStepMovesOn(db: Db, step: TaskStep)
    requires All(db)
    ensures MovesOn(db, NextTask(db, step)) && DeletesLeft(db, NextTask(db, step))
  {
    OnByTask(db, step);
    TaskStepLeaves(db, step);
  }

  lemma EventStepMovesOn(db: Db, step: EventStep)
    requires All(db)
    ensures MovesOn(db, NextEvent(db, step)) && DeletesLeft(db, NextEvent(db, step))
  {
    OnByEventStep(db, step);
    EventStepLeaves(db, step);
  }

  lemma MovesByOther(db: Db, step: OtherStep)
    requires MovesOf(db)
    ensures MovesOf(NextOther(db, step))
  {
    FewerActive(db.undo.moves, db.clock.now, db.undo.moves, NextOther(db, step).clock.now);
  }

  lemma AllKept(db: Db, step: Step)
    requires All(db)
    ensures All(Next(db, step))
  {
    InvKept(db, step);
    match step
    case OnTasks(t) =>
      TaskStepMovesOn(db, t);
      MovesByMovingOn(db, NextTask(db, t));
      ApartByMovingOn(db, NextTask(db, t));
    case OnEvents(e) =>
      EventStepMovesOn(db, e);
      MovesByMovingOn(db, NextEvent(db, e));
      ApartByMovingOn(db, NextEvent(db, e));
    case OnUndo(u) =>
      MovesByUndoStep(db, u);
      ApartByUndoStep(db, u);
    case Other(o) => MovesByOther(db, o);
  }

  lemma {:induction false} AllOfRun(db: Db, steps: seq<Step>)
    requires All(db)
    ensures All(Run(db, steps))
    decreases |steps|
  {
    if steps != [] {
      AllKept(db, steps[0]);
      AllOfRun(Next(db, steps[0]), steps[1..]);
    }
  }

  lemma AllOfReachable(db: Db)
    requires Reachable(db)
    ensures All(db)
  {
    var now, steps :| Run(Start(now), steps) == db;
    InvAtStart(now);
    AllOfRun(Start(now), steps);
  }

  lemma WatchedByStep(db: Db, step: Step, e: Id, event: Event, t: Id, task: Task)
    requires All(db)
    ensures WatchEvent(db, e, event) ==> WatchEvent(Next(db, step), e, event)
    ensures WatchTask(db, t, task) ==> WatchTask(Next(db, step), t, task)
  {
    match step
    case OnTasks(s) =>
      TaskStepMovesOn(db, s);
      WatchByMovingOn(db, NextTask(db, s), e, event, t, task);
    case OnEvents(s) =>
      EventStepMovesOn(db, s);
      WatchByMovingOn(db, NextEvent(db, s), e, event, t, task);
    case OnUndo(s) => WatchedByUndoStep(db, s, e, event, t, task);
    case Other(s) =>
  }

  /** A row is later found changed only at a higher version, whatever happened, its deletion and
      return included. */
  lemma {:induction false} WatchedByRun(db: Db, steps: seq<Step>, e: Id, event: Event, t: Id, task: Task)
    requires All(db)
    ensures WatchEvent(db, e, event) ==> WatchEvent(Run(db, steps), e, event)
    ensures WatchTask(db, t, task) ==> WatchTask(Run(db, steps), t, task)
    decreases |steps|
  {
    if steps != [] {
      WatchedByStep(db, steps[0], e, event, t, task);
      AllKept(db, steps[0]);
      WatchedByRun(Next(db, steps[0]), steps[1..], e, event, t, task);
    }
  }

  /** A receipt is never rewritten, and one that is gone stays gone. */
  ghost predicate WatchMove(db: Db, r: Id, receipt: Option<MoveReceipt>) {
    r < db.clock.next && (r in db.undo.moves ==> Some(db.undo.moves[r]) == receipt)
  }

  ghost predicate MovesOnlyAdded(db: Db, after: Db) {
    && db.clock.next <= after.clock.next
    && forall r :: r in after.undo.moves && r < db.clock.next ==> r in db.undo.moves && after.undo.moves[r] == db.undo.moves[r]
  }

  lemma MovesAddedByDelete(db: Db, k: Id, expected: int, validated: Option<Snapshot>, after: Db)
    requires Deletes(db, k, expected, validated, after)
    ensures MovesOnlyAdded(db, after)
  {
    var base, s := DeletionIs(db, k, expected, validated, after);
    TablesAfter(db, k, base, s, after);
  }

  lemma MovesAddedByMove(db: Db, item: Id, isTask: bool, request: MoveRequest, swept: set<Id>)
    requires MoveItem(db, item, isTask, request, swept).Ok?
    ensures MovesOnlyAdded(db, MoveItem(db, item, isTask, request, swept).value)
  {
  }

  lemma MovesAddedByUndoDelete(db: Db, r: Id, provider: Option<AppError>)
    requires UndoDelete(db, r, provider).Ok?
    ensures MovesOnlyAdded(db, UndoDelete(db, r, provider).value)
  {
    UndoLeaves(db, r, provider);
  }

  lemma MovesAddedByUndoMove(db: Db, r: Id, swept: set<Id>)
    requires UndoMove(db, r, swept).Ok?
    ensures MovesOnlyAdded(db, UndoMove(db, r, swept).value)
  {
  }

  lemma MovesAddedByUndoStep(db: Db, step: UndoStep)
    ensures MovesOnlyAdded(db, NextUndo(db, step))
  {
    match step
    case DeleteTaskReversibly(k, expected, validated) =>
      var outcome := DeleteReversibly(db, k, expected, validated);
      if outcome.Ok? && outcome.value.Done? { MovesAddedByDelete(db, k, expected, validated, outcome.value.db); }
    case UndoDeletion(r, provider) => if UndoDelete(db, r, provider).Ok? { MovesAddedByUndoDelete(db, r, provider); }
    case MoveItemTo(item, isTask, request, swept) =>
      if MoveItem(db, item, isTask, request, swept).Ok? { MovesAddedByMove(db, item, isTask, request, swept); }
    case UndoMoveOf(r, swept) => if UndoMove(db, r, swept).Ok? { MovesAddedByUndoMove(db, r, swept); }
    case Forget(deletes, moves) =>
  }

  lemma MovesAddedByStep(db: Db, step: Step)
    requires All(db)
    ensures MovesOnlyAdded(db, Next(db, step))
  {
    match step
    case OnTasks(t) => TaskStepMovesOn(db, t);
    case OnEvents(e) => EventStepMovesOn(db, e);
    case OnUndo(u) => MovesAddedByUndoStep(db, u);
    case Other(o) =>
  }

  lemma {:induction false} MoveWatchedByRun(db: Db, steps: seq<Step>, r: Id, receipt: Option<MoveReceipt>)
    requires All(db) && WatchMove(db, r, receipt)
    ensures WatchMove(Run(db, steps), r, receipt)
    decreases |steps|
  {
    if steps != [] {
      MovesAddedByStep(db, steps[0]);
      AllKept(db, steps[0]);
      MoveWatchedByRun(Next(db, steps[0]), steps[1..], r, receipt);
    }
  }

  // ---- the theorems ----

  /** An owner never holds more than a hundred active receipts. */
  lemma AtMostHundredActive(db: Db)
    requires Reachable(db)
    ensures |ActiveMoves(db.undo.moves, db.clock.now)| <= MAX_MOVES
  {
    AllOfReachable(db);
  }

  lemma WatchStored(db: Db, e: Id, t: Id)
    requires All(db)
    ensures e in db.cal.events ==> WatchEvent(db, e, db.cal.events[e])
    ensures t in db.tasks ==> WatchTask(db, t, db.tasks[t])
  {
    if e in db.cal.events {
      forall r | r in db.undo.deletes
        ensures CoreMovedOn(db.undo.deletes[r].snapshot.core, e, db.cal.events[e])
      {
        assert !In(HeldEvent(db.undo.deletes[r]), db.cal.events.Keys);
      }
    }
  }

  lemma MoveIsStep(db: Db, item: Id, isTask: bool, request: MoveRequest, swept: set<Id>)
    requires MoveItem(db, item, isTask, request, swept).Ok?
    ensures Next(db, OnUndo(MoveItemTo(item, isTask, request, swept))) == MoveItem(db, item, isTask, request, swept).value
  {
  }

  lemma UndoMoveIsStep(db: Db, r: Id, swept: set<Id>)
    requires UndoMove(db, r, swept).Ok?
    ensures Next(db, OnUndo(UndoMoveOf(r, swept))) == UndoMove(db, r, swept).value
  {
  }

  lemma AllAfterMove(db: Db, item: Id, isTask: bool, request: MoveRequest, swept: set<Id>)
    requires All(db) && MoveItem(db, item, isTask, request, swept).Ok?
    ensures All(MoveItem(db, item, isTask, request, swept).value)
  {
    var step := OnUndo(MoveItemTo(item, isTask, request, swept));
    AllKept(db, step);
    assert Next(db, step) == MoveItem(db, item, isTask, request, swept).value by {
      MoveIsStep(db, item, isTask, request, swept);
    }
  }

  lemma AllAfterUndoMove(db: Db, r: Id, swept: set<Id>)
    requires All(db) && UndoMove(db, r, swept).Ok?
    ensures All(UndoMove(db, r, swept).value)
  {
    var step := OnUndo(UndoMoveOf(r, swept));
    AllKept(db, step);
    assert Next(db, step) == UndoMove(db, r, swept).value by {
      UndoMoveIsStep(db, r, swept);
    }
  }

  /** What a move leaves: its receipt, the event and the task at the versions it recorded. */
  lemma MoveLeaves(db: Db, item: Id, isTask: bool, request: MoveRequest, swept: set<Id>)
    requires MoveItem(db, item, isTask, request, swept).Ok?
    ensures var moved := MoveItem(db, item, isTask, request, swept).value;
            db.clock.next in moved.undo.moves && db.clock.next < moved.clock.next
    ensures var moved := MoveItem(db, item, isTask, request, swept).value;
            var receipt := moved.undo.moves[db.clock.next];
            && ItemExists(moved, receipt.item.0)
            && moved.cal.events[receipt.item.0].stamp.version == receipt.versions.event
            && moved.cal.events[receipt.item.0].task == receipt.item.1
            && VersionOf(TaskOf(moved, receipt.item.0)) == receipt.versions.task
  {
  }

  /** If the undo of a move succeeds after any run, neither row has been written since: the event
      is exactly as the move left it, and so is the task apart from its position and source. */
  lemma UndoProvesUntouched(moved: Db, r: Id, steps: seq<Step>, swept: set<Id>)
    requires All(moved) && r in moved.undo.moves && r < moved.clock.next
    requires var receipt := moved.undo.moves[r];
             && ItemExists(moved, receipt.item.0)
             && moved.cal.events[receipt.item.0].stamp.version == receipt.versions.event
             && moved.cal.events[receipt.item.0].task == receipt.item.1
             && VersionOf(TaskOf(moved, receipt.item.0)) == receipt.versions.task
    requires UndoMove(Run(moved, steps), r, swept).Ok?
    ensures var later := Run(moved, steps);
            var e := moved.undo.moves[r].item.0;
            && r in later.undo.moves && later.undo.moves[r] == moved.undo.moves[r]
            && e in later.cal.events && later.cal.events[e] == moved.cal.events[e]
            && (moved.cal.events[e].task.Some? ==>
                  var t := moved.cal.events[e].task.value;
                  t in moved.tasks && t in later.tasks && SameTask(moved.tasks[t], later.tasks[t]))
  {
    var receipt := moved.undo.moves[r];
    var e := receipt.item.0;
    var t := if receipt.item.1.Some? then receipt.item.1.value else 0;
    WatchStored(moved, e, t);
    MoveWatchedByRun(moved, steps, r, Some(receipt));
    var task := if t in moved.tasks then moved.tasks[t] else Placeholder();
    WatchedByRun(moved, steps, e, moved.cal.events[e], t, task);
  }

  /** The event a move is about: it is `e`, before and after. */
  lemma MovedFrom(db: Db, item: Id, isTask: bool, request: MoveRequest, swept: set<Id>)
    requires MoveItem(db, item, isTask, request, swept).Ok?
    ensures var moved := MoveItem(db, item, isTask, request, swept).value;
            && db.clock.next in moved.undo.moves
            && var e := moved.undo.moves[db.clock.next].item.0;
               && ItemExists(db, e) && e in moved.cal.events
               && moved.cal.events[e] == EventAt(db.cal.events[e], request.start, request.end, db.clock.now)
               && moved.tasks == Reschedule(db.tasks, db.cal.events[e].task, Some(request.start), Some(request.end), db.clock.now)
  {
  }

  /** A task as it was, apart from its stamp, its position and a source it may have lost. */
  predicate TaskBack(before: Task, after: Task) {
    SameTask(before, after.(stamp := before.stamp)) && after.stamp.version == before.stamp.version + 2
  }

  lemma TaskThereAndBack(task: Task, start: int, end: int, at: int, later: Task, now: int)
    requires SameTask(Scheduled(task, Some(start), Some(end), at), later)
    ensures TaskBack(task, Scheduled(later, task.content.timing.start, task.content.timing.end, now))
  {
  }

  /** A move in a reachable workspace, any run, and an undo that succeeds: apart from its stamp the
      event is in every column what it was before the move, and so is the task apart from its
      position and source. */
  lemma UndoneMoveIsRoundTrip(db: Db, item: Id, isTask: bool, request: MoveRequest, swept: set<Id>, steps: seq<Step>, sweptLater: set<Id>)
    requires Reachable(db) && MoveItem(db, item, isTask, request, swept).Ok?
    requires UndoMove(Run(MoveItem(db, item, isTask, request, swept).value, steps), db.clock.next, sweptLater).Ok?
    ensures var moved := MoveItem(db, item, isTask, request, swept).value;
            var after := UndoMove(Run(moved, steps), db.clock.next, sweptLater).value;
            && db.clock.next in moved.undo.moves
            && var e := moved.undo.moves[db.clock.next].item.0;
               && e in db.cal.events && e in after.cal.events
               && after.cal.events[e] == db.cal.events[e].(stamp := after.cal.events[e].stamp)
               && after.cal.events[e].stamp.version == db.cal.events[e].stamp.version + 2
               && (db.cal.events[e].task.Some? ==>
                     var t := db.cal.events[e].task.value;
                     t in db.tasks && t in after.tasks && TaskBack(db.tasks[t], after.tasks[t]))
  {
    var moved := MoveItem(db, item, isTask, request, swept).value;
    var later := Run(moved, steps);
    MovedFrom(db, item, isTask, request, swept);
    UndoneMoveWasUntouched(db, item, isTask, request, swept, steps, sweptLater);
    UndoRestoresSchedule(db, item, isTask, request, swept, later, sweptLater);
    var e := moved.undo.moves[db.clock.next].item.0;
    if db.cal.events[e].task.Some? {
      var t := db.cal.events[e].task.value;
      TaskThereAndBack(db.tasks[t], request.start, request.end, db.clock.now, later.tasks[t], later.clock.now);
    }
  }

  /** The same for a move made in any reachable state. */
  lemma UndoneMoveWasUntouched(db: Db, item: Id, isTask: bool, request: MoveRequest, swept: set<Id>, steps: seq<Step>, sweptLater: set<Id>)
    requires Reachable(db) && MoveItem(db, item, isTask, request, swept).Ok?
    requires UndoMove(Run(MoveItem(db, item, isTask, request, swept).value, steps), db.clock.next, sweptLater).Ok?
    ensures var moved := MoveItem(db, item, isTask, request, swept).value;
            var later := Run(moved, steps);
            var r := db.clock.next;
            && r in moved.undo.moves && r in later.undo.moves && later.undo.moves[r] == moved.undo.moves[r]
            && var e := moved.undo.moves[r].item.0;
               && e in moved.cal.events && e in later.cal.events && later.cal.events[e] == moved.cal.events[e]
               && (moved.cal.events[e].task.Some? ==>
                     var t := moved.cal.events[e].task.value;
                     t in moved.tasks && t in later.tasks && SameTask(moved.tasks[t], later.tasks[t]))
  {
    AllOfReachable(db);
    AllAfterMove(db, item, isTask, request, swept);
    MoveLeaves(db, item, isTask, request, swept);
    UndoProvesUntouched(MoveItem(db, item, isTask, request, swept).value, db.clock.next, steps, sweptLater);
  }

  // ---- the two writes that versions do not show ----

  /** Sorting makes no difference to an undo, although it writes the task. */
  lemma UndoIgnoresSorting(db: Db, positions: map<Id, int>, r: Id, swept: set<Id>)
    ensures UndoMove(Reorder(db, positions), r, swept).Ok? <==> UndoMove(db, r, swept).Ok?
  {
  }

  /** Everything that the undo of a move of `e` looks at is the same in `after`. */
  ghost predicate Spares(db: Db, after: Db, e: Id) {
    && (e in after.cal.events <==> e in db.cal.events)
    && (e in db.cal.events ==>
          && after.cal.events[e] == db.cal.events[e]
          && (db.cal.events[e].task.Some? ==>
                var t := db.cal.events[e].task.value;
                && (t in after.tasks <==> t in db.tasks)
                && (t in db.tasks ==> after.tasks[t].stamp == db.tasks[t].stamp)))
    && after.cal.calendars == db.cal.calendars && after.clock.now == db.clock.now
    && (forall m :: m in after.cal.mappings <==> m in db.cal.mappings)
    && (forall m :: m in db.cal.mappings ==>
          && (after.cal.mappings[m].canonical == Some(e) <==> db.cal.mappings[m].canonical == Some(e))
          && (db.cal.mappings[m].canonical == Some(e) ==> after.cal.mappings[m] == db.cal.mappings[m]))
  }

  lemma SparedGuards(mappings: Mappings, after: Mappings, e: Id)
    requires forall m :: m in after <==> m in mappings
    requires forall m :: m in mappings ==>
      && (after[m].canonical == Some(e) <==> mappings[m].canonical == Some(e))
      && (mappings[m].canonical == Some(e) ==> after[m] == mappings[m])
    ensures Moves.GuardsOf(after, e) == Moves.GuardsOf(mappings, e) && (Unsettled(after, e) <==> Unsettled(mappings, e))
  {
  }

  lemma SparedRefusal(db: Db, after: Db, r: Id)
    requires r in db.undo.moves && r in after.undo.moves && after.undo.moves[r] == db.undo.moves[r]
    requires Spares(db, after, db.undo.moves[r].item.0)
    ensures UndoRefusal(after, r) == UndoRefusal(db, r)
  {
    SparedGuards(db.cal.mappings, after.cal.mappings, db.undo.moves[r].item.0);
  }

  lemma SparedUndo(db: Db, after: Db, r: Id, swept: set<Id>)
    requires r in db.undo.moves && r in after.undo.moves && after.undo.moves[r] == db.undo.moves[r]
    requires Spares(db, after, db.undo.moves[r].item.0)
    ensures UndoMove(after, r, swept).Ok? <==> UndoMove(db, r, swept).Ok?
  {
    SparedRefusal(db, after, r);
  }

  lemma RemovedEventsSpare(db: Db, k: Id, e: Id)
    requires e in db.cal.events && db.cal.events[e].task != Some(k)
    ensures Spares(db, RemoveTaskEvents(db, {k}), e)
  {
  }

  lemma DroppedTaskSpares(db: Db, k: Id, e: Id)
    requires e in db.cal.events && db.cal.events[e].task.Some? && db.cal.events[e].task != Some(k)
    ensures Spares(db, DropTasks(db, {k}), e)
  {
  }

  lemma SparesTwice(a: Db, b: Db, c: Db, e: Id)
    requires Spares(a, b, e) && Spares(b, c, e)
    ensures Spares(a, c, e)
  {
  }

  /** Nor does deleting the task's source, which clears a column of it. */
  lemma UndoIgnoresLostSource(db: Db, k: Id, expected: int, r: Id, swept: set<Id>)
    requires DeleteTask(db, k, expected).Ok? && r in db.undo.moves && db.undo.moves[r].item.1.Some?
    requires var t := db.undo.moves[r].item.1.value;
             t in db.tasks && t != k && db.tasks[t].place.source == Some(k)
    ensures UndoMove(DeleteTask(db, k, expected).value, r, swept).Ok? <==> UndoMove(db, r, swept).Ok?
    ensures var t := db.undo.moves[r].item.1.value;
            var after := DeleteTask(db, k, expected).value;
            t in after.tasks && after.tasks[t] == WithoutSource(db.tasks[t]) != db.tasks[t]
  {
    var after := DeleteTask(db, k, expected).value;
    PlainDeletionIs(db, k, expected);
    SourceIsCleared(db, after, k, db.undo.moves[r].item.1.value);
    RemovedTaskIgnored(db, after, k, r, swept);
  }

  lemma PlainDeletionIs(db: Db, k: Id, expected: int)
    requires DeleteTask(db, k, expected).Ok?
    ensures DeleteTask(db, k, expected).value == DropTasks(RemoveTaskEvents(db, {k}), {k})
  {
  }

  lemma RemovedTaskIgnored(db: Db, after: Db, k: Id, r: Id, swept: set<Id>)
    requires after == DropTasks(RemoveTaskEvents(db, {k}), {k})
    requires r in db.undo.moves && db.undo.moves[r].item.1.Some? && db.undo.moves[r].item.1 != Some(k)
    ensures UndoMove(after, r, swept).Ok? <==> UndoMove(db, r, swept).Ok?
  {
    var receipt := db.undo.moves[r];
    var e := receipt.item.0;
    if e in db.cal.events && db.cal.events[e].task == receipt.item.1 {
      DeletionSpares(db, k, e, r);
      SparedUndo(db, after, r, swept);
    } else {
      DeletionBringsNoEvent(db, k, e, r);
      OtherEventRefuses(db, r);
      OtherEventRefuses(after, r);
    }
  }

  lemma SourceIsCleared(db: Db, after: Db, k: Id, t: Id)
    requires after == DropTasks(RemoveTaskEvents(db, {k}), {k})
    requires t in db.tasks && t != k && db.tasks[t].place.source == Some(k)
    ensures t in after.tasks && after.tasks[t] == WithoutSource(db.tasks[t]) != db.tasks[t]
  {
  }

  lemma DeletionSpares(db: Db, k: Id, e: Id, r: Id)
    requires e in db.cal.events && db.cal.events[e].task.Some? && db.cal.events[e].task != Some(k)
    requires r in db.undo.moves && db.undo.moves[r].item == (e, db.cal.events[e].task)
    ensures var after := DropTasks(RemoveTaskEvents(db, {k}), {k});
            Spares(db, after, e) && r in after.undo.moves && after.undo.moves[r] == db.undo.moves[r]
  {
    var bare := RemoveTaskEvents(db, {k});
    RemovedEventsSpare(db, k, e);
    DroppedTaskSpares(bare, k, e);
    SparesTwice(db, bare, DropTasks(bare, {k}), e);
    assert r in bare.undo.moves;
  }

  lemma DeletionBringsNoEvent(db: Db, k: Id, e: Id, r: Id)
    requires r in db.undo.moves
    ensures var after := DropTasks(RemoveTaskEvents(db, {k}), {k});
            && (e in after.cal.events ==> e in db.cal.events && after.cal.events[e] == db.cal.events[e])
            && (r in after.undo.moves ==> after.undo.moves[r] == db.undo.moves[r])
  {
  }

  /** A receipt whose event is gone, or linked otherwise, is refused. */
  lemma OtherEventRefuses(db: Db, r: Id)
    requires r in db.undo.moves ==>
               var (e, t) := db.undo.moves[r].item;
               e !in db.cal.events || db.cal.events[e].task != t
    ensures UndoRefusal(db, r).Some?
  {
  }

  /** Stands in where there is no task. */
  function Placeholder(): Task {
    Task(Place(None, None, None), Content(TaskText("", "", 0, []), Timing(None, None, None, None), Once),
         Template(None, None), Progress(Todo, None, 0), Stamp(1, 0))
  }

  lemma UndoMoveConsumes(db: Db, r: Id, swept: set<Id>)
    requires MovesOf(db) && UndoMove(db, r, swept).Ok?
    ensures r !in UndoMove(db, r, swept).value.undo.moves && r < UndoMove(db, r, swept).value.clock.next
  {
  }

  lemma GoneStaysGone(db: Db, r: Id, steps: seq<Step>, swept: set<Id>)
    requires All(db) && r !in db.undo.moves && r < db.clock.next
    ensures UndoMove(Run(db, steps), r, swept) == Err(NotFound)
  {
    MoveWatchedByRun(db, steps, r, None);
  }

  /** A receipt can be used once. */
  lemma ConsumedOnce(db: Db, r: Id, swept: set<Id>, steps: seq<Step>, sweptLater: set<Id>)
    requires Reachable(db) && UndoMove(db, r, swept).Ok?
    ensures UndoMove(Run(UndoMove(db, r, swept).value, steps), r, sweptLater) == Err(NotFound)
  {
    AllOfReachable(db);
    AllAfterUndoMove(db, r, swept);
    UndoMoveConsumes(db, r, swept);
    GoneStaysGone(UndoMove(db, r, swept).value, r, steps, sweptLater);
  }

  lemma UndoLeavesBehind(db: Db, r: Id, swept: set<Id>, q: Id)
    requires MovesOf(db) && UndoMove(db, r, swept).Ok? && q in db.undo.moves && db.undo.moves[q].item.0 == db.undo.moves[r].item.0
    ensures var after := UndoMove(db, r, swept).value;
            var e := db.undo.moves[r].item.0;
            e in after.cal.events && db.undo.moves[q].versions.event < after.cal.events[e].stamp.version
    ensures WatchMove(UndoMove(db, r, swept).value, q, Some(db.undo.moves[q]))
  {
    MovesByWritten(db, db.undo.moves[r].item.0, db.undo.moves[r].before);
  }

  /** After an undo every other receipt for that item is useless, for ever. */
  lemma OtherReceiptsDie(db: Db, r: Id, swept: set<Id>, q: Id, steps: seq<Step>, sweptLater: set<Id>)
    requires Reachable(db) && UndoMove(db, r, swept).Ok?
    requires q in db.undo.moves && db.undo.moves[q].item.0 == db.undo.moves[r].item.0
    ensures UndoMove(Run(UndoMove(db, r, swept).value, steps), q, sweptLater).Err?
  {
    AllOfReachable(db);
    var after := UndoMove(db, r, swept).value;
    AllAfterUndoMove(db, r, swept);
    UndoLeavesBehind(db, r, swept, q);
    OutdatedStaysUseless(after, q, db.undo.moves[q], steps, sweptLater);
  }

  lemma OutdatedStaysUseless(db: Db, q: Id, receipt: MoveReceipt, steps: seq<Step>, swept: set<Id>)
    requires All(db) && WatchMove(db, q, Some(receipt))
    requires receipt.item.0 in db.cal.events && receipt.versions.event < db.cal.events[receipt.item.0].stamp.version
    ensures UndoMove(Run(db, steps), q, swept).Err?
  {
    var e := receipt.item.0;
    WatchStored(db, e, 0);
    WatchedByRun(db, steps, e, db.cal.events[e], 0, Placeholder());
    MoveWatchedByRun(db, steps, q, Some(receipt));
  }
}
