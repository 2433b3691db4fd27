/** What an edit of a task means to the owner (apps/api/src/store.rs:1122-1288): the row, its event
    and what Google is told, and the occurrence that completing adds or reopening removes. */
module TaskEdits {
  import opened Prelude
  import opened CivilTime
  import opened EventShape
  import opened Rows
  import opened SubtaskForest
  import opened RecurrenceLineage
  import opened Recurrence
  import opened Transactions
  import opened Effects
  import opened ScheduleMirror
  import opened TaskGraph
  import opened GraphSteps
  import opened MirrorSteps
  import opened WorkspaceTheorems

  // ---- a task and its event ----

  predicate HasTimes(row: Task) {
    row.content.timing.start.Some? && row.content.timing.end.Some?
  }

  /** `event` says what the task says, in the calendar for time blocks; besides, it is the event that
      the task had, with the next version, or a new and plain one. */
  ghost predicate ShowsTask(event: Event, k: Id, row: Task, block: Block, was: Option<Event>, now: int) {
    && event.task == Some(k) && event.calendar == block.calendar
    && event.body.text.title == row.content.text.title && event.body.text.description == row.content.text.description
    && row.content.timing.start == Some(event.body.span.start) && row.content.timing.end == Some(event.body.span.end)
    && event.body.span.timezone == block.timezone
    && match was
       case Some(had) =>
         && had.task == Some(k) && event.stamp == Stamp(had.stamp.version + 1, now)
         && event.body.text.location == had.body.text.location && event.body.text.attendees == had.body.text.attendees
         && event.body.span.allDay == had.body.span.allDay && event.body.rule == had.body.rule
       case None =>
         && event.stamp == Stamp(1, now) && event.body.text.location == "" && event.body.text.attendees == []
         && !event.body.span.allDay && event.body.rule == EventRule(Once, None)
  }

  function EventAtMost(events: Events, e: Id): Option<Event> {
    if e in events then Some(events[e]) else None
  }

  /** `e` is the one event of the task, which keeps the one it had. */
  ghost predicate IsTaskEvent(events: Events, after: Events, e: Id, k: Id, row: Task, block: Block, now: int) {
    && e in after && ShowsTask(after[e], k, row, block, EventAtMost(events, e), now)
    && (forall f :: f in after && after[f].task == Some(k) ==> f == e)
    && (forall f :: f in events && events[f].task == Some(k) ==> f == e)
  }

  /** A task with times has exactly one event, and any other has none. */
  ghost predicate HasEvent(events: Events, after: Events, k: Id, row: Task, block: Block, now: int) {
    if HasTimes(row) then exists e :: IsTaskEvent(events, after, e, k, row, block, now)
    else forall f :: f in after ==> after[f].task != Some(k)
  }

  /** What becomes of a mapping when task `t` is written: that of another event is left alone; that of
      an event that stays says that it has changed, that of one that goes or leaves its calendar, that
      it is gone, if the calendar is Google's. */
  ghost predicate MappingFollows(cal: CalendarTables, was: Mapping, row: Mapping, t: Id, task: Task, block: Block) {
    var e := was.canonical;
    if e.None? || e.value !in cal.events || cal.events[e.value].task != Some(t) then row == was
    else
      var c := cal.events[e.value].calendar;
      if HasTimes(task) && c == block.calendar then if IsGoogle(cal, c) then SaysChanged(was, row) else row == was
      else if IsGoogle(cal, c) then SaysDeleted(was, row)
      else !HasTimes(task) || was.calendar == c ==> row == was.(canonical := None)
  }

  ghost predicate MappingsFollow(cal: CalendarTables, after: Mappings, t: Id, task: Task, block: Block) {
    && (forall m :: m in after <==> m in cal.mappings)
    && (forall m :: m in cal.mappings ==> MappingFollows(cal, cal.mappings[m], after[m], t, task, block))
  }

  /** Every event but those of `t` is as it was, and there is none but these. */
  ghost predicate OtherEventsLeft(events: Events, after: Events, t: Id) {
    && (forall f :: f in events && events[f].task != Some(t) ==> f in after && after[f] == events[f])
    && (forall f :: f in after ==> after[f].task == Some(t) || (f in events && events[f].task != Some(t)))
  }

  /** Calendars, conflicts, the account, the receipts of deletions and the time are as before. */
  predicate SettingsLeft(db: Db, after: Db) {
    && after.cal.calendars == db.cal.calendars && after.cal.conflicts == db.cal.conflicts && after.cal.account == db.cal.account
    && after.undo.deletes == db.undo.deletes && after.clock.now == db.clock.now
  }

  ghost predicate Synced(db: Db, after: Db, t: Id, row: Task, block: Block) {
    && after.tasks == db.tasks
    && OtherEventsLeft(db.cal.events, after.cal.events, t)
    && HasEvent(db.cal.events, after.cal.events, t, row, block, db.clock.now)
    && MappingsFollow(db.cal, after.cal.mappings, t, row, block)
    && SettingsLeft(db, after) && db.clock.next <= after.clock.next
  }

  lemma CutMapping(db: Db, t: Id, m: Id)
    requires t in db.tasks && !HasTimes(db.tasks[t]) && m in db.cal.mappings
    ensures forall block :: MappingFollows(db.cal, db.cal.mappings[m], RemoveTaskEvents(db, {t}).cal.mappings[m], t, db.tasks[t], block)
  {
    var linked := EventsOf(db.cal.events, {t});
    var e := db.cal.mappings[m].canonical;
    if e.Some? {
      var id := e.value;
      assert id in linked <==> id in db.cal.events && db.cal.events[id].task == Some(t);
      assert In(e, linked) <==> id in linked;
    }
  }

  lemma KeptMapping(db: Db, t: Id, block: Block, m: Id)
    requires t in db.tasks && HasTimes(db.tasks[t]) && m in db.cal.mappings
    ensures MappingFollows(db.cal, db.cal.mappings[m], SyncTaskEvent(db, t, block).cal.mappings[m], t, db.tasks[t], block)
  {
    var timing := db.tasks[t].content.timing;
    var linked := EventsOf(db.cal.events, {t});
    var moved := set e | e in linked && db.cal.events[e].calendar != block.calendar;
    var marked := Mark(db.cal, moved, true);
    var left := Detach(marked, moved);
    var events := UpsertEvents(db.cal.events, t, db.tasks[t], timing.start.value, timing.end.value, block, db.clock);
    var after := Mark(left.(events := events), linked, false);
    assert SyncTaskEvent(db, t, block).cal == after;
    var e := db.cal.mappings[m].canonical;
    if e.Some? {
      var id := e.value;
      assert id in linked <==> id in db.cal.events && db.cal.events[id].task == Some(t);
      assert In(e, linked) <==> id in linked;
      assert In(e, moved) <==> id in moved;
      if id in linked {
        assert id in events && events[id].calendar == block.calendar;
      }
    }
  }

  lemma SyncedMappings(db: Db, t: Id, block: Block)
    requires t in db.tasks
    ensures MappingsFollow(db.cal, SyncTaskEvent(db, t, block).cal.mappings, t, db.tasks[t], block)
  {
    forall m | m in db.cal.mappings
      ensures MappingFollows(db.cal, db.cal.mappings[m], SyncTaskEvent(db, t, block).cal.mappings[m], t, db.tasks[t], block)
    {
      if HasTimes(db.tasks[t]) {
        KeptMapping(db, t, block, m);
      } else {
        CutMapping(db, t, m);
      }
    }
  }

  lemma SyncedEvents(db: Db, t: Id, block: Block)
    requires t in db.tasks && OneEvent(db.cal.events) && db.clock.next !in db.cal.events
    ensures var after := SyncTaskEvent(db, t, block).cal.events;
            OtherEventsLeft(db.cal.events, after, t) && HasEvent(db.cal.events, after, t, db.tasks[t], block, db.clock.now)
  {
    var events, row, after := db.cal.events, db.tasks[t], SyncTaskEvent(db, t, block).cal.events;
    var linked := EventsOf(events, {t});
    if HasTimes(row) {
      var e := if linked == {} then db.clock.next else Only(linked).value;
      assert e in events ==> e in linked;
      forall f | f in events && events[f].task == Some(t)
        ensures f == e
      {
        assert f in linked;
      }
      assert IsTaskEvent(events, after, e, t, row, block, db.clock.now);
    }
  }

  lemma SyncMeans(db: Db, t: Id, block: Block)
    requires t in db.tasks && OneEvent(db.cal.events) && db.clock.next !in db.cal.events
    ensures Synced(db, SyncTaskEvent(db, t, block), t, db.tasks[t], block)
  {
    SyncedEvents(db, t, block);
    SyncedMappings(db, t, block);
    SyncLeaves(db, t, block);
  }

  // ---- an edit ----

  predicate Completes(was: Task, request: TaskRequest) {
    !was.Done() && request.status.Completed? && !request.content.cadence.Once?
  }

  predicate Reopens(was: Task, request: TaskRequest) {
    was.Done() && !request.status.Completed?
  }

  /** What the next occurrence is made from after the edit: what the task handed on before, if the edit
      is about one occurrence, and otherwise the edit itself. */
  function NextFrom(was: Task, request: TaskRequest, scope: Option<EditScope>): (Content, Option<Id>) {
    if Exceptional(was, request, scope) then HandedOn(was.content, was.place.project, was.template)
    else (request.content, request.project)
  }

  /** The row has what was asked for at its next version; it keeps its source, its position and the
      time at which it was first completed. */
  ghost predicate RowEdited(was: Task, row: Task, request: TaskRequest, scope: Option<EditScope>, now: int) {
    && row.content == request.content
    && row.place == Place(request.project, request.parent, was.place.source)
    && row.progress.status == request.status && row.progress.position == was.progress.position
    && (!request.status.Completed? ==> row.progress.completedAt.None?)
    && (request.status.Completed? && was.progress.completedAt.Some? ==> row.progress.completedAt == was.progress.completedAt)
    && (request.status.Completed? && was.progress.completedAt.None? ==> row.progress.completedAt == Some(now))
    && row.stamp == Stamp(was.stamp.version + 1, now)
    && HandsOn(was, request, scope, row.template)
  }

  /** An unfinished occurrence after `t`, due on the cadence, with everything at the same distance from
      the deadline. */
  ghost predicate IsNext(next: Task, t: Id, from: (Content, Option<Id>), position: int, now: int) {
    && next.place == Place(from.1, None, Some(t))
    && next.content.text == from.0.text && next.content.cadence == from.0.cadence
    && from.0.timing.due.Some? && next.content.timing.due.Some?
    && OnCadence(from.0.timing.due.value, next.content.timing.due.value, from.0.cadence)
    && SameDistances(from.0.timing, Instant(from.0.timing.due.value), next.content.timing, Instant(next.content.timing.due.value))
    && next.template == Template(None, None) && next.progress == Progress(Todo, None, position) && next.stamp == Stamp(1, now)
  }

  ghost predicate NextAdded(db: Db, after: Db, t: Id, s: Id, from: (Content, Option<Id>), block: Block)
    requires t in after.tasks
  {
    && s !in db.tasks && s in after.tasks && after.tasks == db.tasks[t := after.tasks[t]][s := after.tasks[s]]
    && IsNext(after.tasks[s], t, from, block.position, db.clock.now)
    && HasEvent(db.cal.events, after.cal.events, s, after.tasks[s], block, db.clock.now)
    && (forall f :: f in after.cal.events ==> f in db.cal.events || In(after.cal.events[f].task, {t, s}))
    && (forall f :: f in db.cal.events && db.cal.events[f].task != Some(t) ==>
          f in after.cal.events && after.cal.events[f] == db.cal.events[f])
    && MappingsFollow(db.cal, after.cal.mappings, t, after.tasks[t], block)
  }

  /** The event belongs to an occurrence after `t`. */
  predicate OfNext(db: Db, e: Id, t: Id) {
    e in db.cal.events && In(db.cal.events[e].task, SuccessorsOf(db.tasks, t))
  }

  /** The occurrences after `t` are gone with their events, whose mappings name nothing any more. */
  ghost predicate NextRemoved(db: Db, after: Db, t: Id, block: Block)
    requires t in after.tasks
  {
    && (forall k :: k in after.tasks <==> k in db.tasks && db.tasks[k].place.source != Some(t))
    && (forall k :: k in after.tasks && k != t ==> after.tasks[k] == db.tasks[k])
    && (forall f :: f in db.cal.events && db.cal.events[f].task != Some(t) ==> (f in after.cal.events <==> !OfNext(db, f, t)))
    && (forall f :: f in after.cal.events && after.cal.events[f].task != Some(t) ==> f in db.cal.events && after.cal.events[f] == db.cal.events[f])
    && (forall m :: m in after.cal.mappings <==> m in db.cal.mappings)
    && (forall m :: m in db.cal.mappings ==>
          var was, row := db.cal.mappings[m], after.cal.mappings[m];
          if was.canonical.Some? && OfNext(db, was.canonical.value, t) then row == was.(canonical := None)
          else MappingFollows(db.cal, was, row, t, after.tasks[t], block))
  }

  /** Only the task, its event and its mapping. */
  ghost predicate OnlyTask(db: Db, after: Db, t: Id, block: Block)
    requires t in after.tasks
  {
    && after.tasks == db.tasks[t := after.tasks[t]]
    && OtherEventsLeft(db.cal.events, after.cal.events, t)
    && MappingsFollow(db.cal, after.cal.mappings, t, after.tasks[t], block)
  }

  /** The row and its event are what was asked for; of the other tasks only the occurrence that
      completing adds or reopening removes is another one. */
  ghost predicate TaskEdited(db: Db, after: Db, t: Id, request: TaskRequest, scope: Option<EditScope>, block: Block) {
    && t in db.tasks && t in after.tasks
    && RowEdited(db.tasks[t], after.tasks[t], request, scope, db.clock.now)
    && HasEvent(db.cal.events, after.cal.events, t, after.tasks[t], block, db.clock.now)
    && SettingsLeft(db, after)
    && if Completes(db.tasks[t], request) then exists s :: NextAdded(db, after, t, s, NextFrom(db.tasks[t], request, scope), block)
       else if Reopens(db.tasks[t], request) then NextRemoved(db, after, t, block)
       else OnlyTask(db, after, t, block)
  }

  /** The fields and the parent fit, and so do version and scope. */
  ghost predicate Checked(db: Db, t: Id, request: TaskRequest, scope: Option<EditScope>) {
    && ValidFields(request.content, request.parent) && request.expected >= 1 && request.parent != Some(t)
    && ValidRelations(db, request.project, request.parent)
    && t in db.tasks && ValidUpdate(db.tasks, t, request) && Preparable(db.tasks[t], request, scope)
  }

  /** Besides, a task that is reopened has no occurrence after it that was touched, and one that
      recurs and is completed has a next date. */
  ghost predicate Acceptable(db: Db, t: Id, request: TaskRequest, scope: Option<EditScope>) {
    && Checked(db, t, request, scope)
    && (Reopens(db.tasks[t], request) ==>
          forall k :: k in db.tasks && db.tasks[k].place.source == Some(t) ==>
            db.tasks[k].progress.status.Todo? && db.tasks[k].stamp.version == 1)
    && (Completes(db.tasks[t], request) ==>
          var from := NextFrom(db.tasks[t], request, scope).0;
          from.timing.due.Some? && NextDue(from.timing.due.value, from.cadence).Some?)
  }

  // ---- the proof ----

  /** The row that is written for an accepted request. */
  function RowFor(db: Db, t: Id, request: TaskRequest, scope: Option<EditScope>): Task
    requires t in db.tasks && Prepared(db.tasks[t], request, scope).Ok?
  {
    UpdatedRow(db.tasks[t], request, Prepared(db.tasks[t], request, scope).value, db.clock.now)
  }

  lemma RowIsEdited(db: Db, t: Id, request: TaskRequest, scope: Option<EditScope>)
    requires t in db.tasks && Preparable(db.tasks[t], request, scope)
    ensures Prepared(db.tasks[t], request, scope).Ok?
    ensures var row := RowFor(db, t, request, scope);
            && RowEdited(db.tasks[t], row, request, scope, db.clock.now)
            && HandedOn(row.content, row.place.project, row.template) == NextFrom(db.tasks[t], request, scope)
  {
    PreparedMeans(db.tasks[t], request, scope);
  }

  lemma NextIsNext(t: Id, row: Task, position: int, now: int)
    ensures var from := HandedOn(row.content, row.place.project, row.template);
            && (NextOccurrence(t, row, position, now).Ok? <==>
                  from.0.timing.due.Some? && NextDue(from.0.timing.due.value, from.0.cadence).Some?)
            && (NextOccurrence(t, row, position, now).Ok? ==> IsNext(NextOccurrence(t, row, position, now).value, t, from, position, now))
  {
    HandedOnIsSource(row);
    if NextOccurrence(t, row, position, now).Ok? {
      NextOccurrenceKeepsDistances(t, row, position, now);
      NextOccurrenceIsFresh(t, row, position, now);
    }
  }

  /** `tasks` may be anything that has the task. */
  lemma PutMeans(db: Db, t: Id, row: Task, block: Block)
    requires MirrorOf(db) && t in db.tasks
    ensures var put := db.(tasks := db.tasks[t := row]);
            Synced(put, SyncTaskEvent(put, t, block), t, row, block) && MirrorOf(SyncTaskEvent(put, t, block))
  {
    SyncMeans(db.(tasks := db.tasks[t := row]), t, block);
    MirrorByPut(db, t, row, block);
  }

  lemma PlainEdit(db: Db, t: Id, row: Task, block: Block)
    requires MirrorOf(db) && t in db.tasks
    ensures var after := SyncTaskEvent(db.(tasks := db.tasks[t := row]), t, block);
            && t in after.tasks && after.tasks[t] == row && OnlyTask(db, after, t, block) && SettingsLeft(db, after)
            && HasEvent(db.cal.events, after.cal.events, t, row, block, db.clock.now)
  {
    PutMeans(db, t, row, block);
  }

  /** A new task brings at most one new event, and touches no mapping. */
  ghost predicate Inserted(db: Db, after: Db, row: Task, block: Block) {
    && db.clock.next !in db.tasks && after.tasks == db.tasks[db.clock.next := row]
    && OtherEventsLeft(db.cal.events, after.cal.events, db.clock.next)
    && (forall f :: f in db.cal.events ==> db.cal.events[f].task != Some(db.clock.next))
    && HasEvent(db.cal.events, after.cal.events, db.clock.next, row, block, db.clock.now)
    && (forall m :: m in after.cal.mappings <==> m in db.cal.mappings)
    && (forall m :: m in db.cal.mappings ==> after.cal.mappings[m] == db.cal.mappings[m])
    && SettingsLeft(db, after)
  }

  lemma InsertMeans(db: Db, row: Task, block: Block)
    requires MirrorOf(db)
    ensures Inserted(db, InsertTask(db, row, block), row, block)
  {
    var s, put, after := db.clock.next, WithNew(db, row), InsertTask(db, row, block);
    SyncMeans(put, s, block);
    forall f | f in db.cal.events
      ensures db.cal.events[f].task != Some(s)
    {
      assert Faithful(db.tasks, db.cal.events[f]);
    }
    forall m | m in db.cal.mappings
      ensures after.cal.mappings[m] == db.cal.mappings[m]
    {
      assert MappingFollows(put.cal, db.cal.mappings[m], after.cal.mappings[m], s, row, block);
    }
  }

  lemma EventStays(events: Events, mid: Events, after: Events, s: Id, t: Id, row: Task, block: Block, now: int)
    requires HasEvent(events, mid, t, row, block, now) && OtherEventsLeft(mid, after, s) && s != t
    requires forall f :: f in mid ==> mid[f].task != Some(s)
    ensures HasEvent(events, after, t, row, block, now)
  {
    if HasTimes(row) {
      var e :| IsTaskEvent(events, mid, e, t, row, block, now);
      assert IsTaskEvent(events, after, e, t, row, block, now);
    }
  }

  lemma NewEventStays(events: Events, mid: Events, after: Events, s: Id, row: Task, block: Block, now: int, bound: Id)
    requires HasEvent(mid, after, s, row, block, now)
    requires forall f :: f in events ==> events[f].task != Some(s) && f < bound
    requires forall f :: f in mid ==> mid[f].task != Some(s)
    requires forall f :: f in after && f !in mid ==> f >= bound
    ensures HasEvent(events, after, s, row, block, now)
  {
    if HasTimes(row) {
      var e :| IsTaskEvent(mid, after, e, s, row, block, now);
      assert IsTaskEvent(events, after, e, s, row, block, now);
    }
  }

  /** Events that a transaction adds have new ids. */
  lemma AddedIsNew(db: Db, row: Task, block: Block)
    requires MirrorOf(db)
    ensures forall f :: f in InsertTask(db, row, block).cal.events && f !in db.cal.events ==> f >= db.clock.next
  {
  }

  /** First the task is written, then the next occurrence. */
  lemma WrittenThenNext(db: Db, mid: Db, after: Db, t: Id, row: Task, next: Task, from: (Content, Option<Id>), block: Block)
    requires MirrorOf(db) && t in db.tasks && Synced(db.(tasks := db.tasks[t := row]), mid, t, row, block)
    requires Inserted(mid, after, next, block) && forall f :: f in after.cal.events && f !in mid.cal.events ==> f >= mid.clock.next
    requires IsNext(next, t, from, block.position, db.clock.now)
    ensures t in after.tasks && after.tasks[t] == row
    ensures HasEvent(db.cal.events, after.cal.events, t, row, block, db.clock.now)
    ensures NextAdded(db, after, t, mid.clock.next, from, block)
  {
    var s := mid.clock.next;
    EventStays(db.cal.events, mid.cal.events, after.cal.events, s, t, row, block, db.clock.now);
    forall f | f in db.cal.events
      ensures db.cal.events[f].task != Some(s)
    {
      assert Faithful(db.tasks, db.cal.events[f]);
    }
    NewEventStays(db.cal.events, mid.cal.events, after.cal.events, s, next, block, db.clock.now, s);
  }

  lemma CompletingEdit(db: Db, t: Id, row: Task, block: Block)
    requires MirrorOf(db) && t in db.tasks && NextOccurrence(t, row, block.position, db.clock.now).Ok?
    ensures var mid := SyncTaskEvent(db.(tasks := db.tasks[t := row]), t, block);
            var next := NextOccurrence(t, row, block.position, db.clock.now).value;
            var after := InsertTask(mid, next, block);
            && t in after.tasks && after.tasks[t] == row && SettingsLeft(db, after)
            && HasEvent(db.cal.events, after.cal.events, t, row, block, db.clock.now)
            && NextAdded(db, after, t, mid.clock.next, HandedOn(row.content, row.place.project, row.template), block)
  {
    var mid := SyncTaskEvent(db.(tasks := db.tasks[t := row]), t, block);
    var next := NextOccurrence(t, row, block.position, db.clock.now).value;
    var after := InsertTask(mid, next, block);
    PutMeans(db, t, row, block);
    InsertMeans(mid, next, block);
    AddedIsNew(mid, next, block);
    NextIsNext(t, row, block.position, db.clock.now);
    WrittenThenNext(db, mid, after, t, row, next, HandedOn(row.content, row.place.project, row.template), block);
  }

  // ---- reopening ----

  /** `left` is `db` without the occurrences after `t`, their events and what names these. */
  ghost predicate Without(db: Db, left: Db, t: Id) {
    && t in left.tasks
    && (forall k :: k in left.tasks <==> k in db.tasks && db.tasks[k].place.source != Some(t))
    && (forall k :: k in left.tasks ==> left.tasks[k] == db.tasks[k])
    && (forall f :: f in left.cal.events <==> f in db.cal.events && !OfNext(db, f, t))
    && (forall f :: f in left.cal.events ==> left.cal.events[f] == db.cal.events[f])
    && (forall m :: m in left.cal.mappings <==> m in db.cal.mappings)
    && (forall m :: m in db.cal.mappings ==>
          var was := db.cal.mappings[m];
          left.cal.mappings[m] ==
            if was.canonical.Some? && OfNext(db, was.canonical.value, t) then was.(canonical := None) else was)
    && SettingsLeft(db, left) && left.clock == db.clock
  }

  lemma DroppedCalendar(db: Db, t: Id)
    ensures var left := DropTasks(db, SuccessorsOf(db.tasks, t));
            && (forall f :: f in left.cal.events <==> f in db.cal.events && !OfNext(db, f, t))
            && (forall f :: f in left.cal.events ==> left.cal.events[f] == db.cal.events[f])
            && (forall m :: m in left.cal.mappings <==> m in db.cal.mappings)
            && (forall m :: m in db.cal.mappings ==>
                  var was := db.cal.mappings[m];
                  left.cal.mappings[m] ==
                    if was.canonical.Some? && OfNext(db, was.canonical.value, t) then was.(canonical := None) else was)
            && SettingsLeft(db, left) && left.clock == db.clock
  {
    var gone := EventsOf(db.cal.events, SuccessorsOf(db.tasks, t));
    forall f
      ensures f in gone <==> OfNext(db, f, t)
    {
    }
    forall m | m in db.cal.mappings && db.cal.mappings[m].canonical.Some?
      ensures In(db.cal.mappings[m].canonical, gone) <==> OfNext(db, db.cal.mappings[m].canonical.value, t)
    {
      var e := db.cal.mappings[m].canonical.value;
      assert e in gone <==> OfNext(db, e, t);
    }
  }

  lemma DroppedTasks(tasks: Tasks, t: Id)
    requires Lines(tasks) && t in tasks
    requires forall k :: k in SuccessorsOf(tasks, t) ==> tasks[k].progress.status.Todo?
    ensures var left := RemoveTasks(tasks, SuccessorsOf(tasks, t));
            && t in left
            && (forall k :: k in left <==> k in tasks && tasks[k].place.source != Some(t))
            && (forall k :: k in left ==> left[k] == tasks[k])
  {
    forall k | k in tasks
      ensures !In(tasks[k].place.source, SuccessorsOf(tasks, t))
    {
      if tasks[k].place.source.Some? {
        assert SourceDone(tasks, k, tasks[k].place.source.value);
      }
    }
    assert tasks[t].place.source == Some(t) ==> SourceDone(tasks, t, t);
  }

  lemma DroppedNext(db: Db, t: Id)
    requires Lines(db.tasks) && t in db.tasks && RemoveNext(db, t).Ok?
    ensures Without(db, RemoveNext(db, t).value, t)
  {
    DroppedCalendar(db, t);
    DroppedTasks(db.tasks, t);
  }

  lemma RemovedEvents(db: Db, left: Db, after: Db, t: Id, row: Task, block: Block)
    requires Without(db, left, t) && t !in SuccessorsOf(db.tasks, t)
    requires forall f :: f in db.cal.events ==> f < db.clock.next
    requires OtherEventsLeft(left.cal.events, after.cal.events, t)
    requires HasEvent(left.cal.events, after.cal.events, t, row, block, db.clock.now)
    requires forall f :: f in after.cal.events && f !in left.cal.events ==> f >= db.clock.next
    ensures HasEvent(db.cal.events, after.cal.events, t, row, block, db.clock.now)
    ensures forall f :: f in db.cal.events && db.cal.events[f].task != Some(t) ==> (f in after.cal.events <==> !OfNext(db, f, t))
    ensures forall f :: f in after.cal.events && after.cal.events[f].task != Some(t) ==> f in db.cal.events && after.cal.events[f] == db.cal.events[f]
  {
    if HasTimes(row) {
      var e :| IsTaskEvent(left.cal.events, after.cal.events, e, t, row, block, db.clock.now);
      assert IsTaskEvent(db.cal.events, after.cal.events, e, t, row, block, db.clock.now);
    }
  }

  lemma RemovedMapping(db: Db, left: Db, was: Mapping, row: Mapping, t: Id, task: Task, block: Block)
    requires Without(db, left, t) && t !in SuccessorsOf(db.tasks, t)
    requires if was.canonical.Some? && OfNext(db, was.canonical.value, t)
             then MappingFollows(left.cal, was.(canonical := None), row, t, task, block)
             else MappingFollows(left.cal, was, row, t, task, block)
    ensures if was.canonical.Some? && OfNext(db, was.canonical.value, t) then row == was.(canonical := None)
            else MappingFollows(db.cal, was, row, t, task, block)
  {
  }

  /** First the occurrences after it are removed, then the task is written. */
  lemma RemovedThenWritten(db: Db, left: Db, after: Db, t: Id, row: Task, block: Block)
    requires Without(db, left, t) && t !in SuccessorsOf(db.tasks, t)
    requires forall f :: f in db.cal.events ==> f < db.clock.next
    requires Synced(left.(tasks := left.tasks[t := row]), after, t, row, block)
    requires forall f :: f in after.cal.events && f !in left.cal.events ==> f >= db.clock.next
    ensures t in after.tasks && after.tasks[t] == row && NextRemoved(db, after, t, block)
    ensures HasEvent(db.cal.events, after.cal.events, t, row, block, db.clock.now) && SettingsLeft(db, after)
  {
    RemovedEvents(db, left, after, t, row, block);
    forall m | m in db.cal.mappings
      ensures var was, now := db.cal.mappings[m], after.cal.mappings[m];
              if was.canonical.Some? && OfNext(db, was.canonical.value, t) then now == was.(canonical := None)
              else MappingFollows(db.cal, was, now, t, row, block)
    {
      assert MappingFollows(left.cal, left.cal.mappings[m], after.cal.mappings[m], t, row, block);
      RemovedMapping(db, left, db.cal.mappings[m], after.cal.mappings[m], t, row, block);
    }
  }

  lemma SyncAddsNew(db: Db, t: Id, block: Block)
    requires t in db.tasks
    ensures forall f :: f in SyncTaskEvent(db, t, block).cal.events && f !in db.cal.events ==> f >= db.clock.next
  {
  }

  lemma ReopeningEdit(db: Db, t: Id, row: Task, block: Block)
    requires MirrorOf(db) && Lines(db.tasks) && t in db.tasks && RemoveNext(db, t).Ok?
    ensures var left := RemoveNext(db, t).value;
            && t in left.tasks
            && var after := SyncTaskEvent(left.(tasks := left.tasks[t := row]), t, block);
               && t in after.tasks && after.tasks[t] == row && NextRemoved(db, after, t, block) && SettingsLeft(db, after)
               && HasEvent(db.cal.events, after.cal.events, t, row, block, db.clock.now)
  {
    var left := RemoveNext(db, t).value;
    DroppedNext(db, t);
    MirrorByDrop(db, SuccessorsOf(db.tasks, t));
    PutMeans(left, t, row, block);
    SyncAddsNew(left.(tasks := left.tasks[t := row]), t, block);
    assert t !in SuccessorsOf(db.tasks, t);
    RemovedThenWritten(db, left, SyncTaskEvent(left.(tasks := left.tasks[t := row]), t, block), t, row, block);
  }

  // ---- acceptance ----

  /** A written row that completes a recurring task is stopped only by a missing next date. */
  lemma WriteIs(db: Db, t: Id, row: Task, wasDone: bool, block: Block)
    requires t in db.tasks && (!wasDone ==> NoSuccessor(db.tasks, t)) && row.place.source != Some(t)
    ensures var mid := SyncTaskEvent(db.(tasks := db.tasks[t := row]), t, block);
            var outcome := WriteTask(db, t, row, wasDone, block);
            if !wasDone && row.Done() && row.Recurring() then
              var next := NextOccurrence(t, row, block.position, db.clock.now);
              if next.Ok? then outcome == Ok(InsertTask(mid, next.value, block)) else outcome.Err?
            else outcome == Ok(mid)
  {
    var put := db.(tasks := db.tasks[t := row]);
    SyncLeaves(put, t, block);
    var written := SyncTaskEvent(put, t, block);
    if SuccessorsOf(written.tasks, t) != {} {
      var k := Member(SuccessorsOf(written.tasks, t));
      assert k in written.tasks && written.tasks[k].place.source == Some(t);
      assert k != t ==> db.tasks[k].place.source == Some(t);
    }
  }

  lemma UpdateIs(db: Db, t: Id, request: TaskRequest, scope: Option<EditScope>, block: Block)
    ensures var outcome := UpdateTask(db, t, request, scope, block);
            if !Checked(db, t, request, scope) then outcome.Err?
            else
              && Prepared(db.tasks[t], request, scope).Ok?
              && var row := RowFor(db, t, request, scope);
                 if Reopens(db.tasks[t], request) then
                   if RemoveNext(db, t).Err? then outcome.Err? else outcome == WriteTask(RemoveNext(db, t).value, t, row, true, block)
                 else outcome == WriteTask(db, t, row, db.tasks[t].Done(), block)
  {
    if t in db.tasks {
      PreparedMeans(db.tasks[t], request, scope);
    }
  }

  lemma ReopenableExactly(db: Db, t: Id)
    ensures RemoveNext(db, t).Ok? <==>
              forall k :: k in db.tasks && db.tasks[k].place.source == Some(t) ==>
                db.tasks[k].progress.status.Todo? && db.tasks[k].stamp.version == 1
  {
    var next := SuccessorsOf(db.tasks, t);
    assert forall k :: k in next <==> k in db.tasks && db.tasks[k].place.source == Some(t);
  }

  lemma OwnSourceNever(tasks: Tasks, t: Id)
    requires Lines(tasks) && t in tasks
    ensures tasks[t].place.source != Some(t)
  {
    assert tasks[t].place.source == Some(t) ==> SourceDone(tasks, t, t);
  }

  /** What reopening writes after the occurrences that follow are removed. */
  ghost function Reopened(left: Db, t: Id, row: Task, block: Block): Db {
    SyncTaskEvent(left.(tasks := left.tasks[t := row]), t, block)
  }

  lemma ReopeningIs(db: Db, t: Id, request: TaskRequest, scope: Option<EditScope>, block: Block)
    requires Inv(db) && Checked(db, t, request, scope) && Reopens(db.tasks[t], request)
    ensures Prepared(db.tasks[t], request, scope).Ok?
    ensures UpdateTask(db, t, request, scope, block).Ok? <==> RemoveNext(db, t).Ok?
    ensures RemoveNext(db, t).Ok? ==>
              UpdateTask(db, t, request, scope, block).value == Reopened(RemoveNext(db, t).value, t, RowFor(db, t, request, scope), block)
  {
    UpdateIs(db, t, request, scope, block);
    if RemoveNext(db, t).Ok? {
      DroppedNext(db, t);
      OwnSourceNever(db.tasks, t);
      WriteIs(RemoveNext(db, t).value, t, RowFor(db, t, request, scope), true, block);
    }
  }

  /** Of an edit that reopens. */
  lemma ReopenedIsEdited(db: Db, after: Db, t: Id, row: Task, request: TaskRequest, scope: Option<EditScope>, block: Block)
    requires t in db.tasks && Reopens(db.tasks[t], request) && RowEdited(db.tasks[t], row, request, scope, db.clock.now)
    requires t in after.tasks && after.tasks[t] == row && NextRemoved(db, after, t, block) && SettingsLeft(db, after)
    requires HasEvent(db.cal.events, after.cal.events, t, row, block, db.clock.now)
    ensures TaskEdited(db, after, t, request, scope, block)
  {
  }

  lemma ReopeningMeans(db: Db, t: Id, request: TaskRequest, scope: Option<EditScope>, block: Block)
    requires Inv(db) && Checked(db, t, request, scope) && Reopens(db.tasks[t], request) && RemoveNext(db, t).Ok?
    ensures UpdateTask(db, t, request, scope, block).Ok?
    ensures TaskEdited(db, UpdateTask(db, t, request, scope, block).value, t, request, scope, block)
  {
    ReopeningIs(db, t, request, scope, block);
    var row := RowFor(db, t, request, scope);
    RowIsEdited(db, t, request, scope);
    ReopeningEdit(db, t, row, block);
    ReopenedIsEdited(db, Reopened(RemoveNext(db, t).value, t, row, block), t, row, request, scope, block);
  }

  lemma WritingMeans(db: Db, t: Id, request: TaskRequest, scope: Option<EditScope>, block: Block)
    requires Inv(db) && Checked(db, t, request, scope) && !Reopens(db.tasks[t], request)
    ensures UpdateTask(db, t, request, scope, block).Ok? <==> Acceptable(db, t, request, scope)
    ensures UpdateTask(db, t, request, scope, block).Ok? ==>
              TaskEdited(db, UpdateTask(db, t, request, scope, block).value, t, request, scope, block)
  {
    var row := RowFor(db, t, request, scope);
    var was := db.tasks[t];
    UpdateIs(db, t, request, scope, block);
    RowIsEdited(db, t, request, scope);
    OwnSourceNever(db.tasks, t);
    if !was.Done() {
      UnfinishedHasNone(db.tasks, t);
    }
    WriteIs(db, t, row, was.Done(), block);
    NextIsNext(t, row, block.position, db.clock.now);
    if Completes(was, request) {
      if NextOccurrence(t, row, block.position, db.clock.now).Ok? {
        CompletingEdit(db, t, row, block);
      }
    } else {
      PlainEdit(db, t, row, block);
    }
  }

  /** An edit is accepted exactly when it is acceptable, and then the task, its event, what Google is
      told, and the other tasks are what it asked for. */
  lemma UpdateTaskMeans(db: Db, t: Id, request: TaskRequest, scope: Option<EditScope>, block: Block)
    requires Inv(db)
    ensures UpdateTask(db, t, request, scope, block).Ok? <==> Acceptable(db, t, request, scope)
    ensures UpdateTask(db, t, request, scope, block).Ok? ==>
              TaskEdited(db, UpdateTask(db, t, request, scope, block).value, t, request, scope, block)
  {
    if !Checked(db, t, request, scope) {
      UpdateIs(db, t, request, scope, block);
    } else if Reopens(db.tasks[t], request) {
      ReopeningIs(db, t, request, scope, block);
      ReopenableExactly(db, t);
      if RemoveNext(db, t).Ok? {
        ReopeningMeans(db, t, request, scope, block);
      }
    } else {
      WritingMeans(db, t, request, scope, block);
    }
  }
}
