/** Moving a calendar item and undoing the move (apps/api/src/calendar_move_store.rs). */
module Moves {
  import opened Prelude
  import opened CivilTime
  import opened EventShape
  import opened Rows
  import opened Transactions
  import opened ScheduleMirror
  import opened Effects

  const MAX_MOVES: int := 100

  datatype MoveRequest = MoveRequest(start: int, end: int, expected: int)

  function ActiveMoves(moves: MoveReceipts, now: int): set<Id> {
    set r | r in moves && Active(moves[r].expires, now)
  }

  /** `cleanup` removes some of the expired receipts; `swept` says which it gets hold of. */
  function Swept(moves: MoveReceipts, swept: set<Id>, now: int): MoveReceipts {
    map r | r in moves && (r !in swept || Active(moves[r].expires, now)) :: moves[r]
  }

  /** `lock_item`: the event and the task it names exist. */
  predicate ItemExists(db: Db, e: Id) {
    e in db.cal.events && (db.cal.events[e].task.Some? ==> db.cal.events[e].task.value in db.tasks)
  }

  function GuardsOf(mappings: Mappings, e: Id): set<MoveGuard> {
    set m | m in mappings && mappings[m].canonical == Some(e) ::
      MoveGuard(m, mappings[m].calendar, mappings[m].remote.calendar, mappings[m].remote.event)
  }

  /** `mapping_guard` refuses a mapping in conflict, with an undecided choice, or deleted. */
  predicate Unsettled(mappings: Mappings, e: Id) {
    exists m :: m in mappings && mappings[m].canonical == Some(e)
      && (mappings[m].flags.conflict || mappings[m].flags.pending.Some? || mappings[m].flags.deleted)
  }

  predicate EndsBefore(rule: EventRule, start: int) {
    rule.until.Some? && Instant(rule.until.value) <= start
  }

  function TaskOf(db: Db, e: Id): Option<Task>
    requires ItemExists(db, e)
  {
    if db.cal.events[e].task.Some? then Some(db.tasks[db.cal.events[e].task.value]) else None
  }

  function VersionOf(task: Option<Task>): Option<int> {
    if task.Some? then Some(task.value.stamp.version) else None
  }

  /** `write_schedule`, then `mark_event_for_sync` */
  function WriteSchedule(db: Db, e: Id, start: int, end: int, taskStart: Option<int>, taskEnd: Option<int>): Db
    requires e in db.cal.events
  {
    var row := EventAt(db.cal.events[e], start, end, db.clock.now);
    db.(tasks := Reschedule(db.tasks, row.task, taskStart, taskEnd, db.clock.now),
        cal := Mark(db.cal.(events := db.cal.events[e := row]), {e}, false))
  }

  function Receipt(db: Db, e: Id): MoveReceipt
    requires ItemExists(db, e)
  {
    var event, task := db.cal.events[e], TaskOf(db, e);
    MoveReceipt(
      (e, event.task),
      Before(event.body.span.start, event.body.span.end,
             if task.Some? then task.value.content.timing.start else None,
             if task.Some? then task.value.content.timing.end else None),
      Versions(event.stamp.version + 1, if task.Some? then Some(task.value.stamp.version + 1) else None),
      GuardsOf(db.cal.mappings, e),
      db.clock.now + UNDO_WINDOW)
  }

  /** What stands in the way of moving the event `e`. */
  function MoveRefusal(db: Db, e: Id, isTask: bool, request: MoveRequest): Option<AppError> {
    if !ItemExists(db, e) then Some(NotFound)
    else
      var event, task := db.cal.events[e], TaskOf(db, e);
      var version := if isTask then VersionOf(task) else Some(event.stamp.version);
      if version != Some(request.expected) then Some(Changed)
      else if event.body.span.start == request.start && event.body.span.end == request.end then Some(Validation)
      else if EndsBefore(event.body.rule, request.start) then Some(Validation)
      else if Unwritable(db.cal, event.calendar).Some? then Unwritable(db.cal, event.calendar)
      else if Unsettled(db.cal.mappings, e) then Some(Changed)
      else None
  }

  function Moved(db: Db, e: Id, request: MoveRequest): Db
    requires ItemExists(db, e)
  {
    var written := WriteSchedule(db, e, request.start, request.end, Some(request.start), Some(request.end));
    written.(undo := db.undo.(moves := db.undo.moves[db.clock.next := Receipt(db, e)]),
             clock := db.clock.(next := db.clock.next + 1))
  }

  /** `move_calendar_item`; the receipt is the id that was next. */
  ghost function MoveItem(db: Db, item: Id, isTask: bool, request: MoveRequest, swept: set<Id>): Outcome {
    if request.expected < 1 || request.end <= request.start then Err(Validation)
    else
      var clean := db.(undo := db.undo.(moves := Swept(db.undo.moves, swept, db.clock.now)));
      if |ActiveMoves(clean.undo.moves, db.clock.now)| >= MAX_MOVES then Err(TooManyMoves)
      else
        var e := if isTask then LinkedEvent(db.cal.events, item) else Some(item);
        if e.None? then Err(NotFound)
        else if MoveRefusal(clean, e.value, isTask, request).Some? then Err(MoveRefusal(clean, e.value, isTask, request).value)
        else Ok(Moved(clean, e.value, request))
  }

  /** What stands in the way of undoing the move `r`. */
  function UndoRefusal(db: Db, r: Id): Option<AppError> {
    if r !in db.undo.moves then Some(NotFound)
    else
      var inverse := db.undo.moves[r];
      var e := inverse.item.0;
      if !ItemExists(db, e) then Some(NotFound)
      else
        var event := db.cal.events[e];
        if !Active(inverse.expires, db.clock.now) then Some(Expired)
        else if event.stamp.version != inverse.versions.event || event.task != inverse.item.1
             || VersionOf(TaskOf(db, e)) != inverse.versions.task then Some(Changed)
        else if Unwritable(db.cal, event.calendar).Some? then Unwritable(db.cal, event.calendar)
        else if Unsettled(db.cal.mappings, e) || GuardsOf(db.cal.mappings, e) != inverse.guard then Some(Changed)
        else None
  }

  /** `undo_calendar_move` */
  function UndoMove(db: Db, r: Id, swept: set<Id>): Outcome {
    if UndoRefusal(db, r).Some? then Err(UndoRefusal(db, r).value)
    else
      var inverse := db.undo.moves[r];
      var before := inverse.before;
      var written := WriteSchedule(db, inverse.item.0, before.start, before.end, before.taskStart, before.taskEnd);
      Ok(written.(undo := db.undo.(moves := Swept(db.undo.moves - {r}, swept, db.clock.now))))
  }

  // ---- what a move means ----

  /** The event asked for: that of a task, or the one with the id. */
  predicate IsItem(events: Events, item: Id, isTask: bool, e: Id) {
    e in events && if isTask then events[e].task == Some(item) else e == item
  }

  predicate HasVersion(db: Db, e: Id, isTask: bool, expected: int)
    requires ItemExists(db, e)
  {
    if isTask then
      var t := db.cal.events[e].task;
      t.Some? && db.tasks[t.value].stamp.version == expected
    else db.cal.events[e].stamp.version == expected
  }

  /** Every mapping of the event is settled: not contested, not waiting for a choice, not deleted. */
  ghost predicate MappingsSettled(mappings: Mappings, e: Id) {
    forall m :: m in mappings && mappings[m].canonical == Some(e) ==>
      !mappings[m].flags.conflict && mappings[m].flags.pending.None? && !mappings[m].flags.deleted
  }

  /** The version is the expected one, the time is another one and before the end of a recurrence,
      the calendar can be written, and the event's mapping is settled. */
  ghost predicate CanMove(db: Db, e: Id, isTask: bool, request: MoveRequest) {
    && ItemExists(db, e) && HasVersion(db, e, isTask, request.expected)
    && var body := db.cal.events[e].body;
       && (body.span.start != request.start || body.span.end != request.end)
       && (body.rule.until.Some? ==> request.start < Instant(body.rule.until.value))
       && Unwritable(db.cal, db.cal.events[e].calendar).None? && MappingsSettled(db.cal.mappings, e)
  }

  ghost predicate Movable(db: Db, item: Id, isTask: bool, request: MoveRequest) {
    && request.expected >= 1 && request.start < request.end
    && |ActiveMoves(db.undo.moves, db.clock.now)| < MAX_MOVES
    && exists e :: IsItem(db.cal.events, item, isTask, e) && CanMove(db, e, isTask, request)
  }

  /** The event has the new times and the next version, its task follows, Google is told, and nothing
      else but receipts changes. */
  ghost predicate Rescheduled(db: Db, after: Db, e: Id, start: int, end: int, taskStart: Option<int>, taskEnd: Option<int>) {
    && e in db.cal.events && e in after.cal.events && after.cal.events == db.cal.events[e := after.cal.events[e]]
    && var was, row := db.cal.events[e], after.cal.events[e];
       && row.body.span == Span(start, end, was.body.span.allDay, was.body.span.timezone)
       && row.body.text == was.body.text && row.body.rule == was.body.rule
       && row.calendar == was.calendar && row.task == was.task && row.stamp == Stamp(was.stamp.version + 1, db.clock.now)
       && TaskFollows(db, after, was.task, taskStart, taskEnd)
       && OtherMappingsLeft(db, after, e) && ToldOfChange(db, after, e, was.calendar)
       && after.cal.calendars == db.cal.calendars && after.cal.conflicts == db.cal.conflicts && after.cal.account == db.cal.account
       && after.side == db.side && after.undo.deletes == db.undo.deletes && after.clock.now == db.clock.now
  }

  /** The receipts are the ones of before, less expired ones. */
  ghost predicate MovesKept(before: MoveReceipts, after: MoveReceipts, now: int) {
    forall r :: r in before && (r in after || Active(before[r].expires, now)) ==> r in after && after[r] == before[r]
  }

  /** The item asked for has the new times, and there is a receipt for it. */
  ghost predicate MovedTo(db: Db, after: Db, item: Id, isTask: bool, request: MoveRequest) {
    && db.clock.next in after.undo.moves
    && (db.clock.next !in db.undo.moves ==> MovesKept(db.undo.moves, after.undo.moves, db.clock.now))
    && var receipt := after.undo.moves[db.clock.next];
       && receipt.expires == db.clock.now + UNDO_WINDOW && IsItem(db.cal.events, item, isTask, receipt.item.0)
       && Rescheduled(db, after, receipt.item.0, request.start, request.end, Some(request.start), Some(request.end))
  }

  lemma SweepKeepsActive(moves: MoveReceipts, swept: set<Id>, now: int)
    ensures ActiveMoves(Swept(moves, swept, now), now) == ActiveMoves(moves, now)
  {
  }

  lemma TheLinkedEvent(events: Events, t: Id, e: Id)
    requires OneEvent(events) && e in events && events[e].task == Some(t)
    ensures LinkedEvent(events, t) == Some(e)
  {
    assert e in EventsOf(events, {t});
    var found := LinkedEvent(events, t).value;
    assert found in EventsOf(events, {t});
  }

  lemma MoveRefusedExactly(db: Db, e: Id, isTask: bool, request: MoveRequest)
    ensures MoveRefusal(db, e, isTask, request).None? <==> CanMove(db, e, isTask, request)
  {
  }

  lemma LocalMark(cal: CalendarTables, e: Id, deleted: bool)
    requires e in cal.events && !IsGoogle(cal, cal.events[e].calendar)
    ensures Mark(cal, {e}, deleted).mappings == cal.mappings
  {
    var after := Mark(cal, {e}, deleted).mappings;
    forall m | m in cal.mappings
      ensures m in after && after[m] == cal.mappings[m]
    {
      var named := cal.mappings[m].canonical;
      if In(named, {e}) {
        assert named.value == e;
      }
    }
    SameTable(after, cal.mappings);
  }

  lemma ScheduleIsWritten(db: Db, e: Id, start: int, end: int, taskStart: Option<int>, taskEnd: Option<int>)
    requires ItemExists(db, e)
    ensures Rescheduled(db, WriteSchedule(db, e, start, end, taskStart, taskEnd), e, start, end, taskStart, taskEnd)
  {
    if !IsGoogle(db.cal, db.cal.events[e].calendar) {
      LocalMark(db.cal.(events := db.cal.events[e := EventAt(db.cal.events[e], start, end, db.clock.now)]), e, false);
    }
  }

  lemma CanMoveAfterSweep(db: Db, e: Id, isTask: bool, request: MoveRequest, swept: set<Id>)
    ensures var clean := db.(undo := db.undo.(moves := Swept(db.undo.moves, swept, db.clock.now)));
            MoveRefusal(clean, e, isTask, request).None? <==> CanMove(db, e, isTask, request)
  {
    MoveRefusedExactly(db, e, isTask, request);
  }

  lemma MoveAcceptedExactly(db: Db, item: Id, isTask: bool, request: MoveRequest, swept: set<Id>)
    requires OneEvent(db.cal.events)
    ensures MoveItem(db, item, isTask, request, swept).Ok? <==> Movable(db, item, isTask, request)
  {
    var e := if isTask then LinkedEvent(db.cal.events, item) else Some(item);
    SweepKeepsActive(db.undo.moves, swept, db.clock.now);
    if Movable(db, item, isTask, request) {
      var f :| IsItem(db.cal.events, item, isTask, f) && CanMove(db, f, isTask, request);
      if isTask {
        TheLinkedEvent(db.cal.events, item, f);
      }
      CanMoveAfterSweep(db, f, isTask, request, swept);
    } else if e.Some? && e.value in db.cal.events {
      LinkedIsItem(db.cal.events, item, isTask);
      CanMoveAfterSweep(db, e.value, isTask, request, swept);
    }
  }

  lemma LinkedIsItem(events: Events, item: Id, isTask: bool)
    ensures var e := if isTask then LinkedEvent(events, item) else Some(item);
            e.Some? && e.value in events ==> IsItem(events, item, isTask, e.value)
  {
    if isTask && LinkedEvent(events, item).Some? {
      assert LinkedEvent(events, item).value in EventsOf(events, {item});
    }
  }

  lemma MoveIsWritten(db: Db, item: Id, isTask: bool, request: MoveRequest, swept: set<Id>)
    requires MoveItem(db, item, isTask, request, swept).Ok?
    ensures var e := if isTask then LinkedEvent(db.cal.events, item) else Some(item);
            && e.Some? && ItemExists(db, e.value)
            && var after := MoveItem(db, item, isTask, request, swept).value;
               && after.undo.moves == Swept(db.undo.moves, swept, db.clock.now)[db.clock.next := Receipt(db, e.value)]
               && after == WriteSchedule(db, e.value, request.start, request.end, Some(request.start), Some(request.end)).
                             (undo := after.undo, clock := after.clock)
               && after.undo.deletes == db.undo.deletes && after.clock.now == db.clock.now
  {
  }

  /** A move is accepted exactly when the event asked for can be moved and there are fewer than a
      hundred active receipts; then it has the new times, its task too, Google is told, and the
      receipt is new. */
  lemma MoveMeans(db: Db, item: Id, isTask: bool, request: MoveRequest, swept: set<Id>)
    requires OneEvent(db.cal.events)
    ensures MoveItem(db, item, isTask, request, swept).Ok? <==> Movable(db, item, isTask, request)
    ensures MoveItem(db, item, isTask, request, swept).Ok? ==>
              MovedTo(db, MoveItem(db, item, isTask, request, swept).value, item, isTask, request)
  {
    MoveAcceptedExactly(db, item, isTask, request, swept);
    if MoveItem(db, item, isTask, request, swept).Ok? {
      MoveIsWritten(db, item, isTask, request, swept);
      LinkedIsItem(db.cal.events, item, isTask);
      var e := if isTask then LinkedEvent(db.cal.events, item).value else item;
      ScheduleIsWritten(db, e, request.start, request.end, Some(request.start), Some(request.end));
    }
  }

  /** The receipt is active, event and task have the versions that the move gave them, the event is
      linked as it was, its calendar can be written, and its mapping is settled and the one it was. */
  ghost predicate Undoable(db: Db, r: Id) {
    && r in db.undo.moves && db.clock.now < db.undo.moves[r].expires
    && var inverse := db.undo.moves[r];
       var e := inverse.item.0;
       && ItemExists(db, e) && db.cal.events[e].task == inverse.item.1
       && db.cal.events[e].stamp.version == inverse.versions.event
       && VersionOf(TaskOf(db, e)) == inverse.versions.task
       && Unwritable(db.cal, db.cal.events[e].calendar).None? && MappingsSettled(db.cal.mappings, e)
       && GuardsOf(db.cal.mappings, e) == inverse.guard
  }

  /** Event and task have the recorded times again, and the receipt is used up. */
  ghost predicate MovedBack(db: Db, after: Db, r: Id)
    requires r in db.undo.moves
  {
    var inverse := db.undo.moves[r];
    var before := inverse.before;
    && Rescheduled(db, after, inverse.item.0, before.start, before.end, before.taskStart, before.taskEnd)
    && r !in after.undo.moves && MovesKept(db.undo.moves - {r}, after.undo.moves, db.clock.now)
    && after.clock == db.clock
  }

  /** An undo is accepted exactly then; event and task get the recorded times, and Google is told. */
  lemma UndoMeans(db: Db, r: Id, swept: set<Id>)
    ensures UndoMove(db, r, swept).Ok? <==> Undoable(db, r)
    ensures UndoMove(db, r, swept).Ok? ==> MovedBack(db, UndoMove(db, r, swept).value, r)
  {
    if UndoMove(db, r, swept).Ok? {
      var inverse := db.undo.moves[r];
      var before := inverse.before;
      ScheduleIsWritten(db, inverse.item.0, before.start, before.end, before.taskStart, before.taskEnd);
    }
  }

  // ---- the operations ----

  method MoveCalendarItem(store: Store, item: Id, isTask: bool, request: MoveRequest, swept: set<Id>) returns (r: Result<Id, AppError>)
    requires OneEvent(store.db.cal.events)
    modifies store
    ensures var done := MoveItem(old(store.db), item, isTask, request, swept);
            && r.Ok? == done.Ok?
            && (r.Ok? ==> store.db == done.value && r.value == old(store.db).clock.next)
            && (r.Err? ==> store.db == old(store.db) && r.error == done.error)
    ensures r.Ok? <==> Movable(old(store.db), item, isTask, request)
    ensures r.Ok? ==> MovedTo(old(store.db), store.db, item, isTask, request)
  {
    MoveMeans(store.db, item, isTask, request, swept);
    if request.expected < 1 || request.end <= request.start {
      return Err(Validation);
    }
    var tx := store.db;
    tx := tx.(undo := tx.undo.(moves := Swept(tx.undo.moves, swept, tx.clock.now)));
    if |ActiveMoves(tx.undo.moves, tx.clock.now)| >= MAX_MOVES {
      return Err(TooManyMoves);
    }
    var event := item;
    if isTask {
      var linked := EventsOf(tx.cal.events, {item});
      if linked == {} {
        return Err(NotFound);
      }
      event := Pick(linked);
      assert LinkedEvent(tx.cal.events, item) == Some(event);
    }
    var refusal := MoveRefusal(tx, event, isTask, request);
    if refusal.Some? {
      return Err(refusal.value);
    }
    var receipt := Receipt(tx, event);
    var row := tx.cal.events[event];
    if row.task.Some? {
      var task := row.task.value;
      tx := tx.(tasks := tx.tasks[task := Scheduled(tx.tasks[task], Some(request.start), Some(request.end), tx.clock.now)]);
    }
    tx := tx.(cal := tx.cal.(events := tx.cal.events[event := EventAt(row, request.start, request.end, tx.clock.now)]));
    tx := tx.(cal := Mark(tx.cal, {event}, false));
    tx := tx.(undo := tx.undo.(moves := tx.undo.moves[tx.clock.next := receipt]));
    tx := tx.(clock := tx.clock.(next := tx.clock.next + 1));
    r := Ok(store.db.clock.next);
    store.db := tx;
  }

  method UndoCalendarMove(store: Store, receipt: Id, swept: set<Id>) returns (r: Result<(), AppError>)
    modifies store
    ensures var done := UndoMove(old(store.db), receipt, swept);
            && r.Ok? == done.Ok?
            && (r.Ok? ==> store.db == done.value)
            && (r.Err? ==> store.db == old(store.db) && r.error == done.error)
    ensures r.Ok? <==> Undoable(old(store.db), receipt)
    ensures r.Ok? ==> MovedBack(old(store.db), store.db, receipt)
  {
    UndoMeans(store.db, receipt, swept);
    var tx := store.db;
    var refusal := UndoRefusal(tx, receipt);
    if refusal.Some? {
      return Err(refusal.value);
    }
    var inverse := tx.undo.moves[receipt];
    var e := inverse.item.0;
    var row := tx.cal.events[e];
    if inverse.item.1.Some? {
      var task := inverse.item.1.value;
      tx := tx.(tasks := tx.tasks[task := Scheduled(tx.tasks[task], inverse.before.taskStart, inverse.before.taskEnd, tx.clock.now)]);
    }
    tx := tx.(cal := tx.cal.(events := tx.cal.events[e := EventAt(row, inverse.before.start, inverse.before.end, tx.clock.now)]));
    tx := tx.(cal := Mark(tx.cal, {e}, false));
    tx := tx.(undo := tx.undo.(moves := tx.undo.moves - {receipt}));
    tx := tx.(undo := tx.undo.(moves := Swept(tx.undo.moves, swept, tx.clock.now)));
    store.db := tx;
    return Ok(());
  }

  // ---- what an undo restores ----

  /** Whatever happened in between, a successful undo gives the event and its task the schedule
      they had before the move, changes no other column of them and no other row, and uses up the
      receipt. */
  lemma UndoRestoresSchedule(before: Db, item: Id, isTask: bool, request: MoveRequest, swept: set<Id>, later: Db, sweptLater: set<Id>)
    requires MoveItem(before, item, isTask, request, swept).Ok?
    requires var r := before.clock.next;
             && r in later.undo.moves
             && later.undo.moves[r] == MoveItem(before, item, isTask, request, swept).value.undo.moves[r]
             && UndoMove(later, r, sweptLater).Ok?
    ensures var r := before.clock.next;
            var after := UndoMove(later, r, sweptLater).value;
            var e := later.undo.moves[r].item.0;
            && e in before.cal.events && e in later.cal.events && e in after.cal.events
            && var span := before.cal.events[e].body.span;
               && after.cal.events[e] == EventAt(later.cal.events[e], span.start, span.end, later.clock.now)
               && later.cal.events[e].task == before.cal.events[e].task
               && after.cal.events == later.cal.events[e := after.cal.events[e]]
               && r !in after.undo.moves
    ensures var after := UndoMove(later, before.clock.next, sweptLater).value;
            var e := later.undo.moves[before.clock.next].item.0;
            && e in before.cal.events
            && match before.cal.events[e].task
               case None => after.tasks == later.tasks
               case Some(t) =>
                 && t in before.tasks && t in later.tasks && t in after.tasks
                 && var timing := before.tasks[t].content.timing;
                    && after.tasks[t] == Scheduled(later.tasks[t], timing.start, timing.end, later.clock.now)
                    && after.tasks == later.tasks[t := after.tasks[t]]
  {
  }

  /** Within the sixty seconds, and with nothing else done, a move can always be undone. */
  lemma MoveUndoneAtOnce(before: Db, item: Id, isTask: bool, request: MoveRequest, swept: set<Id>, now: int, sweptLater: set<Id>)
    requires MoveItem(before, item, isTask, request, swept).Ok?
    requires before.clock.now <= now < before.clock.now + UNDO_WINDOW
    ensures var moved := MoveItem(before, item, isTask, request, swept).value;
            UndoMove(moved.(clock := moved.clock.(now := now)), before.clock.next, sweptLater).Ok?
  {
    var moved := MoveItem(before, item, isTask, request, swept).value;
    SameGuards(before.cal.mappings, moved.cal.mappings, moved.undo.moves[before.clock.next].item.0);
  }

  /** Marking an event for synchronization changes nothing that a guard looks at. */
  lemma SameGuards(mappings: Mappings, after: Mappings, e: Id)
    requires forall m :: m in mappings <==> m in after
    requires forall m :: m in mappings ==>
      && mappings[m].canonical == after[m].canonical && mappings[m].calendar == after[m].calendar && mappings[m].remote == after[m].remote
    ensures GuardsOf(mappings, e) == GuardsOf(after, e)
  {
  }
}
