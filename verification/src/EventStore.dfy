/** The event operations of apps/api/src/calendar_store.rs:242-481: what they mean to the owner, and
    how they run, statement by statement on a copy of the tables. */
module EventStore {
  import opened Prelude
  import opened EventShape
  import opened Rows
  import opened Transactions
  import opened Effects
  import opened Workspace
  import opened WorkspaceTheorems

  // ---- what an edit or a deletion of an event means ----

  ghost predicate Editable(db: Db, e: Id, expected: int) {
    e in db.cal.events && Unwritable(db.cal, db.cal.events[e].calendar).None? && db.cal.events[e].stamp.version == expected
  }

  /** The event has exactly the new values and the next version; its task follows; Google is told,
      or, when the event leaves one of its calendars, told of a deletion there. */
  ghost predicate EventEdited(db: Db, after: Db, e: Id, calendar: Id, body: EventBody) {
    && e in db.cal.events
    && var was := db.cal.events[e];
       && after.cal.events == db.cal.events[e := Event(calendar, was.task, body, Stamp(was.stamp.version + 1, db.clock.now))]
       && TaskFollows(db, after, was.task, Some(body.span.start), Some(body.span.end))
       && OtherMappingsLeft(db, after, e)
       && (IsGoogle(db.cal, was.calendar) ==>
             if calendar == was.calendar then ToBeWritten(db, after, e) else ToBeDeleted(db, after, e))
       && after.side == db.side && after.undo == db.undo && after.clock == db.clock
  }

  /** The task that the event is linked to exists. */
  ghost predicate LinkHolds(db: Db, e: Id) {
    e in db.cal.events && db.cal.events[e].task.Some? ==> db.cal.events[e].task.value in db.tasks
  }

  lemma InvAfterStep(db: Db, step: EventStep)
    requires Inv(db)
    ensures Inv(NextEvent(db, step))
  {
    InvKept(db, OnEvents(step));
  }

  lemma UpdateEventWrites(db: Db, e: Id, calendar: Id, body: EventBody, expected: int)
    requires LinkHolds(db, e) && UpdateEvent(db, e, calendar, body, expected).Ok?
    ensures EventEdited(db, UpdateEvent(db, e, calendar, body, expected).value, e, calendar, body)
  {
  }

  lemma UpdateEventMeans(db: Db, e: Id, calendar: Id, body: EventBody, expected: int)
    requires Inv(db)
    ensures UpdateEvent(db, e, calendar, body, expected).Ok? <==>
              ValidSpan(body) && Unwritable(db.cal, calendar).None? && Editable(db, e, expected)
    ensures UpdateEvent(db, e, calendar, body, expected).Ok? ==>
              var after := UpdateEvent(db, e, calendar, body, expected).value;
              EventEdited(db, after, e, calendar, body) && Inv(after)
  {
    if UpdateEvent(db, e, calendar, body, expected).Ok? {
      UpdateEventWrites(db, e, calendar, body, expected);
      InvAfterStep(db, EditEvent(e, calendar, body, expected));
    }
  }

  /** The event is gone, its task has no schedule any more, and Google is told. */
  ghost predicate EventDeleted(db: Db, after: Db, e: Id) {
    && e in db.cal.events
    && var was := db.cal.events[e];
       && after.cal.events == db.cal.events - {e}
       && TaskFollows(db, after, was.task, None, None)
       && OtherMappingsLeft(db, after, e)
       && (IsGoogle(db.cal, was.calendar) ==> ToBeDeleted(db, after, e))
       && after.undo.deletes == db.undo.deletes && after.clock == db.clock
  }

  lemma DeleteEventWrites(db: Db, e: Id, expected: int)
    requires LinkHolds(db, e) && DeleteEvent(db, e, expected).Ok?
    ensures EventDeleted(db, DeleteEvent(db, e, expected).value, e)
  {
  }

  lemma DeleteEventMeans(db: Db, e: Id, expected: int)
    requires Inv(db)
    ensures DeleteEvent(db, e, expected).Ok? <==> Editable(db, e, expected)
    ensures DeleteEvent(db, e, expected).Ok? ==>
              var after := DeleteEvent(db, e, expected).value;
              EventDeleted(db, after, e) && Inv(after)
  {
    if DeleteEvent(db, e, expected).Ok? {
      DeleteEventWrites(db, e, expected);
      InvAfterStep(db, RemoveEvent(e, expected));
    }
  }

  // ---- what a pull means ----

  /** A linked task gets the event's title, description and schedule and the next version; no other
      column of it changes, and no other task does. */
  ghost predicate TaskRetold(db: Db, after: Db, task: Option<Id>, body: EventBody) {
    match task
    case None => after.tasks == db.tasks
    case Some(t) =>
      && t in db.tasks && t in after.tasks && after.tasks == db.tasks[t := after.tasks[t]]
      && var was, row := db.tasks[t], after.tasks[t];
         && row.content.text.title == body.text.title && row.content.text.description == body.text.description
         && row.content.text.priority == was.content.text.priority && row.content.text.labels == was.content.text.labels
         && row.content.timing == Timing(was.content.timing.due, Some(body.span.start), Some(body.span.end), was.content.timing.remind)
         && row.content.cadence == was.content.cadence && row.place == was.place && row.template == was.template
         && row.progress == was.progress && row.stamp == Stamp(was.stamp.version + 1, db.clock.now)
  }

  /** The event has exactly the pulled values and the next version, its task is told, and nothing is
      marked for Google. */
  ghost predicate EventPulled(db: Db, after: Db, e: Id, calendar: Id, body: EventBody) {
    && e in db.cal.events
    && var was := db.cal.events[e];
       && after.cal == db.cal.(events := db.cal.events[e := Event(calendar, was.task, body, Stamp(was.stamp.version + 1, db.clock.now))])
       && TaskRetold(db, after, was.task, body)
       && after.side == db.side && after.undo == db.undo && after.clock == db.clock
  }

  lemma PullUpdateWrites(db: Db, e: Id, calendar: Id, body: EventBody)
    requires LinkHolds(db, e) && e in db.cal.events && ValidSpan(body)
    ensures PullUpdate(db, e, calendar, body).Ok? && EventPulled(db, PullUpdate(db, e, calendar, body).value, e, calendar, body)
  {
  }

  lemma PullUpdateMeans(db: Db, e: Id, calendar: Id, body: EventBody)
    requires Inv(db)
    ensures PullUpdate(db, e, calendar, body).Ok? <==> e !in db.cal.events || ValidSpan(body)
    ensures PullUpdate(db, e, calendar, body).Ok? ==>
              var after := PullUpdate(db, e, calendar, body).value;
              Inv(after) && if e in db.cal.events then EventPulled(db, after, e, calendar, body) else after == db
  {
    InvAfterStep(db, PulledEvent(e, calendar, body));
    if e in db.cal.events && ValidSpan(body) {
      PullUpdateWrites(db, e, calendar, body);
    }
  }

  /** The event is gone and its task has no schedule any more; what named the event names nothing, and
      Google, where it is gone already, is not told. */
  ghost predicate EventPulledAway(db: Db, after: Db, e: Id) {
    && e in db.cal.events
    && after.cal.events == db.cal.events - {e}
    && TaskFollows(db, after, db.cal.events[e].task, None, None)
    && OtherMappingsLeft(db, after, e)
    && (forall m :: m in db.cal.mappings && db.cal.mappings[m].canonical == Some(e) ==>
          after.cal.mappings[m] == db.cal.mappings[m].(canonical := None))
    && after.undo.deletes == db.undo.deletes && after.clock == db.clock
  }

  lemma PullDeleteMeans(db: Db, e: Id)
    requires Inv(db)
    ensures var after := PullDelete(db, e);
            Inv(after) && if e in db.cal.events then EventPulledAway(db, after, e) else after == db
  {
    InvAfterStep(db, PulledGone(e));
    if e in db.cal.events {
      PullDeleteWrites(db, e);
    }
  }

  lemma PullDeleteWrites(db: Db, e: Id)
    requires LinkHolds(db, e) && e in db.cal.events
    ensures EventPulledAway(db, PullDelete(db, e), e)
  {
  }

  // ---- the operations ----

  method UpdateCalendarEvent(store: Store, e: Id, calendar: Id, body: EventBody, expected: int) returns (r: Result<(), AppError>)
    modifies store
    ensures var done := UpdateEvent(old(store.db), e, calendar, body, expected);
            && r.Ok? == done.Ok?
            && (r.Ok? ==> store.db == done.value)
            && (r.Err? ==> store.db == old(store.db) && r.error == done.error)
    ensures Inv(old(store.db)) ==>
              && (r.Ok? <==> ValidSpan(body) && Unwritable(old(store.db).cal, calendar).None? && Editable(old(store.db), e, expected))
              && (r.Ok? ==> EventEdited(old(store.db), store.db, e, calendar, body) && Inv(store.db))
  {
    if Inv(store.db) {
      UpdateEventMeans(store.db, e, calendar, body, expected);
    }
    if !ValidSpan(body) {
      return Err(Validation);
    }
    var tx := store.db;
    var unwritable := Unwritable(tx.cal, calendar);
    if unwritable.Some? {
      return Err(unwritable.value);
    }
    if e !in tx.cal.events {
      return Err(NotFound);
    }
    var previous := tx.cal.events[e];
    unwritable := Unwritable(tx.cal, previous.calendar);
    if unwritable.Some? {
      return Err(unwritable.value);
    }
    if previous.stamp.version != expected {
      return Err(Changed);
    }
    var row := Event(calendar, previous.task, body, Bump(previous.stamp, tx.clock.now));
    if row.task.Some? && row.task.value in tx.tasks {
      var t := row.task.value;
      tx := tx.(tasks := tx.tasks[t := Scheduled(tx.tasks[t], Some(body.span.start), Some(body.span.end), tx.clock.now)]);
    }
    var cal := tx.cal;
    if previous.calendar != calendar {
      cal := Mark(cal, {e}, true);
      cal := Detach(cal, {e});
    }
    cal := cal.(events := cal.events[e := row]);
    cal := Mark(cal, {e}, false);
    store.db := tx.(cal := cal);
    return Ok(());
  }

  method DeleteCalendarEvent(store: Store, e: Id, expected: int) returns (r: Result<(), AppError>)
    modifies store
    ensures var done := DeleteEvent(old(store.db), e, expected);
            && r.Ok? == done.Ok?
            && (r.Ok? ==> store.db == done.value)
            && (r.Err? ==> store.db == old(store.db) && r.error == done.error)
    ensures Inv(old(store.db)) ==>
              && (r.Ok? <==> Editable(old(store.db), e, expected))
              && (r.Ok? ==> EventDeleted(old(store.db), store.db, e) && Inv(store.db))
  {
    if Inv(store.db) {
      DeleteEventMeans(store.db, e, expected);
    }
    var tx := store.db;
    if e !in tx.cal.events {
      return Err(NotFound);
    }
    var existing := tx.cal.events[e];
    if existing.stamp.version != expected {
      return Err(Changed);
    }
    var unwritable := Unwritable(tx.cal, existing.calendar);
    if unwritable.Some? {
      return Err(unwritable.value);
    }
    var cal := Mark(tx.cal, {e}, true);
    tx := DropEvents(tx.(cal := cal), {e});
    if existing.task.Some? && existing.task.value in tx.tasks {
      var t := existing.task.value;
      tx := tx.(tasks := tx.tasks[t := Scheduled(tx.tasks[t], None, None, tx.clock.now)]);
    }
    store.db := tx;
    return Ok(());
  }
}
