/** The mirror between a scheduled task and its event (apps/api/src/calendar_store.rs:332-350,
    410-426,483-542, apps/api/src/calendar_move_store.rs:327-343): at most one event is linked
    to a task, and it has the task's scheduled start and end. */
module ScheduleMirror {
  import opened Prelude
  import opened Rows
  import opened Transactions

  predicate Matches(task: Task, event: Event) {
    task.content.timing.start == Some(event.body.span.start) && task.content.timing.end == Some(event.body.span.end)
  }

  ghost predicate Mirrored(tasks: Tasks, events: Events) {
    forall e :: e in events ==> Faithful(tasks, events[e])
  }

  predicate Faithful(tasks: Tasks, event: Event) {
    event.task.Some? ==> event.task.value in tasks && Matches(tasks[event.task.value], event)
  }

  ghost predicate OneEvent(events: Events) {
    forall e, f :: e in events && f in events && events[e].task.Some? && events[e].task == events[f].task ==> e == f
  }

  /** What a deletion or a move can put back is mirrored too. */
  ghost predicate DeletesMirrored(deletes: DeleteReceipts) {
    forall r :: r in deletes ==> CoreMirrored(deletes[r].snapshot.core)
  }

  predicate CoreMirrored(core: SnapshotCore) {
    core.event.Some? ==> core.event.value.1.task == Some(core.id) && Matches(core.task, core.event.value.1)
  }

  ghost predicate MovesMirrored(moves: MoveReceipts) {
    forall r :: r in moves ==> MoveMirrored(moves[r])
  }

  predicate MoveMirrored(r: MoveReceipt) {
    r.item.1.Some? ==> r.before.taskStart == Some(r.before.start) && r.before.taskEnd == Some(r.before.end)
  }

  ghost predicate Mirror(tasks: Tasks, events: Events, undo: UndoTables) {
    Mirrored(tasks, events) && OneEvent(events) && DeletesMirrored(undo.deletes) && MovesMirrored(undo.moves)
  }

  // ---- what keeps it ----

  /** A task is written, and its event with the same schedule. */
  lemma UpsertMirrors(tasks: Tasks, events: Events, t: Id, row: Task, start: int, end: int, block: Block, clock: Clock)
    requires OneEvent(events) && clock.next !in events
    requires forall e :: e in events && events[e].task != Some(t) ==> Faithful(tasks, events[e])
    requires t in tasks && tasks[t] == row
    requires row.content.timing.start == Some(start) && row.content.timing.end == Some(end)
    ensures Mirrored(tasks, UpsertEvents(events, t, row, start, end, block, clock))
    ensures OneEvent(UpsertEvents(events, t, row, start, end, block, clock))
  {
    var after := UpsertEvents(events, t, row, start, end, block, clock);
    if EventsOf(events, {t}) == {} {
      assert forall e :: e in events ==> e !in EventsOf(events, {t});
    } else {
      assert forall e :: e in after ==> after[e].task == events[e].task;
    }
  }

  /** Events disappear. */
  lemma FewerEventsMirror(tasks: Tasks, events: Events, gone: set<Id>)
    requires OneEvent(events)
    requires forall e :: e in events && e !in gone ==> Faithful(tasks, events[e])
    ensures Mirrored(tasks, events - gone) && OneEvent(events - gone)
  {
  }

  /** Tasks disappear with their events. */
  lemma RemoveMirrors(tasks: Tasks, events: Events, gone: set<Id>)
    requires Mirrored(tasks, events) && OneEvent(events)
    ensures Mirrored(RemoveTasks(tasks, gone), events - EventsOf(events, gone)) && OneEvent(events - EventsOf(events, gone))
  {
    var after, left := RemoveTasks(tasks, gone), events - EventsOf(events, gone);
    forall e | e in left
      ensures Faithful(after, left[e])
    {
      assert e in events && Faithful(tasks, events[e]);
      assert e !in EventsOf(events, gone);
      if events[e].task.Some? {
        var t := events[e].task.value;
        assert after[t].content == tasks[t].content;
      }
    }
  }

  /** One event and its task get the same new schedule. */
  lemma RetimeMirrors(tasks: Tasks, events: Events, e: Id, row: Event, at: int)
    requires Mirrored(tasks, events) && OneEvent(events) && e in events && row.task == events[e].task
    ensures var after := Reschedule(tasks, row.task, Some(row.body.span.start), Some(row.body.span.end), at);
            Mirrored(after, events[e := row]) && OneEvent(events[e := row])
  {
    var after := Reschedule(tasks, row.task, Some(row.body.span.start), Some(row.body.span.end), at);
    var now := events[e := row];
    forall f | f in now
      ensures Faithful(after, now[f])
    {
      assert f != e && row.task.Some? ==> events[f].task != row.task;
      assert Faithful(tasks, events[f]);
    }
  }

  /** An event disappears and its task loses its schedule. */
  lemma UnscheduleMirrors(tasks: Tasks, events: Events, e: Id, now: int)
    requires Mirrored(tasks, events) && OneEvent(events) && e in events
    ensures var after := Reschedule(tasks, events[e].task, None, None, now);
            Mirrored(after, events - {e}) && OneEvent(events - {e})
  {
    var after := Reschedule(tasks, events[e].task, None, None, now);
    var left := events - {e};
    forall f | f in left
      ensures Faithful(after, left[f])
    {
      assert events[f].task.Some? ==> events[f].task != events[e].task;
      assert Faithful(tasks, events[f]);
    }
  }

  /** Schedules and tasks are as before. */
  ghost predicate SameSchedules(before: Tasks, after: Tasks) {
    forall t :: t in before ==>
      && t in after && after[t].content.timing.start == before[t].content.timing.start
      && after[t].content.timing.end == before[t].content.timing.end
  }

  lemma SameSchedulesMirror(before: Tasks, after: Tasks, events: Events)
    requires Mirrored(before, events) && SameSchedules(before, after)
    ensures Mirrored(after, events)
  {
    forall e | e in events
      ensures Faithful(after, events[e])
    {
      assert Faithful(before, events[e]);
      if events[e].task.Some? {
        var t := events[e].task.value;
        assert t in after && after[t].content.timing.start == before[t].content.timing.start;
      }
    }
  }
}
