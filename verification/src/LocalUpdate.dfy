/** When the store accepts the update of a task that the Google Tasks synchronization wants
    (apps/api/src/google_tasks_sync.rs:391-430): the deadline is converted, and the versioned edit of
    the task is made with everything but title, deadline and status as it is. The protocol's
    `Accepts` says the same of what it knows about a task. */
module LocalUpdate {
  import opened Prelude
  import opened CivilTime
  import opened Rows
  import opened SubtaskForest
  import opened RecurrenceLineage
  import opened Recurrence
  import opened Transactions
  import opened TaskGraph
  import opened GraphSteps
  import opened WorkspaceTheorems
  import opened SharedFields
  import D = Deadline
  import P = TasksProtocol
  import TaskEdits

  // ---- the update ----

  /** Deadlines are converted in microseconds. */
  function Micros(due: Option<Moment>): Option<int> {
    if due.None? then None else Some(Instant(due.value) * D.SECOND)
  }

  /** `google_task_fields` */
  function FieldsOf(task: Task, off: D.Offset): TaskFields {
    TaskFields(task.content.text.title, D.Projected(off, Micros(task.content.timing.due)), task.Done())
  }

  function StatusFor(task: Task, merged: TaskFields): Status {
    if merged.completed == task.Done() then task.progress.status
    else if merged.completed then Completed else Todo
  }

  function RequestFor(task: Task, merged: TaskFields, due: Option<Moment>): TaskRequest {
    TaskRequest(task.place.project, task.place.parent,
                Content(task.content.text.(title := merged.title), task.content.timing.(due := due), task.content.cadence),
                StatusFor(task, merged), task.stamp.version)
  }

  /** The deadline for the merged day. */
  function NewDeadline(task: Task, merged: TaskFields, off: D.Offset, pick: int -> int): Result<Option<int>, D.Refusal> {
    D.NewDue(off, pick, merged.date, Micros(task.content.timing.due))
  }

  /** `due` is the converted deadline, if there is one. */
  ghost function WriteMerged(db: Db, t: Id, merged: TaskFields, due: Option<Moment>, off: D.Offset, pick: int -> int, block: Block): Outcome
    requires t in db.tasks
  {
    if NewDeadline(db.tasks[t], merged, off, pick).Err? then Err(Validation)
    else UpdateTask(db, t, RequestFor(db.tasks[t], merged, due), None, block)
  }

  // ---- what it turns on ----

  /** The columns that are written back as they are pass the checks, by the checks of the tables. */
  predicate Sound(db: Db, task: Task) {
    && |task.content.text.description| <= 10000 && ValidSchedule(task.content.timing.start, task.content.timing.end)
    && task.stamp.version >= 1 && (task.place.project.Some? ==> task.place.project.value in db.side.projects)
  }

  /** The row that the update would write. */
  function RowFor(db: Db, t: Id, merged: TaskFields, due: Option<Moment>): Task
    requires t in db.tasks
  {
    var task := db.tasks[t];
    UpdatedRow(task, RequestFor(task, merged, due), if task.Recurring() then task.template else Template(None, None), db.clock.now)
  }

  /** The protocol's knowledge of task `t` is right, as far as `merged` is concerned. */
  ghost predicate Describes(local: P.Local, db: Db, t: Id, merged: TaskFields, due: Option<Moment>, off: D.Offset, pick: int -> int, block: Block)
    requires t in db.tasks
  {
    var task := db.tasks[t];
    && local.fields == FieldsOf(task, off)
    && (local.terms.sound <==> Sound(db, task))
    && (local.terms.recurs <==> task.Recurring())
    && (local.terms.blocked <==> RemoveNext(db, t).Err?)
    && (merged.date.Some? ==>
          && (merged.date.value in local.terms.skipped <==> D.Convert(off, pick, merged.date, Micros(task.content.timing.due)).Err?)
          && (merged.date.value in local.terms.last <==> NextOccurrence(t, RowFor(db, t, merged, due), block.position, db.clock.now).Err?))
  }

  // ---- the edit, check by check ----

  lemma RelationsHold(db: Db, t: Id, merged: TaskFields, due: Option<Moment>)
    requires Inv(db) && t in db.tasks && Sound(db, db.tasks[t])
    ensures var request := RequestFor(db.tasks[t], merged, due);
            && request.parent != Some(t) && ValidRelations(db, request.project, request.parent)
            && ValidUpdate(db.tasks, t, request) && (db.tasks[t].Recurring() ==> request.parent.None?)
  {
    var tasks, task := db.tasks, db.tasks[t];
    assert Forest(tasks);
    if task.place.parent.Some? {
      var p := task.place.parent.value;
      assert Fits(task, tasks[p]);
      ParentLeadsAway(tasks, t, p);
    }
  }

  lemma ParentLeadsAway(tasks: Tasks, t: Id, p: Id)
    requires Acyclic(tasks) && t in tasks && tasks[t].place.parent == Some(p) && p in tasks
    ensures p != t && !Reaches(tasks, p, t)
  {
    forall n: nat
      ensures Up(tasks, p, n) != Some(t)
    {
      assert Up(tasks, t, n + 1) == Up(tasks, p, n);
    }
    assert Up(tasks, p, 0) == Some(p);
  }

  lemma FieldsHold(db: Db, t: Id, merged: TaskFields, due: Option<Moment>)
    requires Inv(db) && t in db.tasks && 1 <= |merged.title| <= 240
    ensures var task, request := db.tasks[t], RequestFor(db.tasks[t], merged, due);
            Sound(db, task) ==> (ValidFields(request.content, request.parent) <==> (task.Recurring() ==> due.Some?))
  {
    if Sound(db, db.tasks[t]) {
      RelationsHold(db, t, merged, due);
    }
  }

  /** A sound row passes the checks exactly with a deadline, if it recurs; then the reopening and
      the next occurrence decide. */
  lemma UpdateIs(db: Db, t: Id, merged: TaskFields, due: Option<Moment>, block: Block)
    requires Inv(db) && t in db.tasks && 1 <= |merged.title| <= 240 && Sound(db, db.tasks[t])
    ensures var task, row := db.tasks[t], RowFor(db, t, merged, due);
            var outcome := UpdateTask(db, t, RequestFor(task, merged, due), None, block);
            if task.Recurring() && due.None? then outcome.Err?
            else if task.Done() && !row.Done() then
              if RemoveNext(db, t).Err? then outcome.Err? else outcome == WriteTask(RemoveNext(db, t).value, t, row, true, block)
            else outcome == WriteTask(db, t, row, task.Done(), block)
  {
    RelationsHold(db, t, merged, due);
    FieldsHold(db, t, merged, due);
  }

  lemma UnsoundIsRefused(db: Db, t: Id, merged: TaskFields, due: Option<Moment>, block: Block)
    requires t in db.tasks && !Sound(db, db.tasks[t])
    ensures UpdateTask(db, t, RequestFor(db.tasks[t], merged, due), None, block).Err?
  {
  }

  lemma WriteIs(db: Db, t: Id, row: Task, wasDone: bool, block: Block)
    requires t in db.tasks && (!wasDone ==> NoSuccessor(db.tasks, t)) && row.place.source != Some(t)
    ensures WriteTask(db, t, row, wasDone, block).Ok? <==>
              (!wasDone && row.Done() && row.Recurring() ==> NextOccurrence(t, row, block.position, db.clock.now).Ok?)
  {
    var put := db.(tasks := db.tasks[t := row]);
    SyncLeaves(put, t, block);
    var written := SyncTaskEvent(put, t, block);
    if SuccessorsOf(written.tasks, t) != {} {
      var k := Member(SuccessorsOf(written.tasks, t));
      assert k in written.tasks && written.tasks[k].place.source == Some(t);
      assert k != t ==> db.tasks[k].place.source == Some(t);
    }
  }

  // ---- the tie ----

  lemma DeadlineIs(task: Task, merged: TaskFields, off: D.Offset, pick: int -> int)
    ensures var fields := FieldsOf(task, off);
            var converted := D.Convert(off, pick, merged.date, Micros(task.content.timing.due));
            NewDeadline(task, merged, off, pick).Err? <==> merged.date.Some? && merged.date != fields.date && converted.Err?
    ensures NewDeadline(task, merged, off, pick).Ok? ==> (NewDeadline(task, merged, off, pick).value.Some? <==> merged.date.Some?)
  {
  }

  lemma SoundUpdateIsAccepted(local: P.Local, db: Db, t: Id, merged: TaskFields, due: Option<Moment>, off: D.Offset, pick: int -> int, block: Block)
    requires Inv(db) && t in db.tasks && 1 <= |merged.title| <= 240 && Sound(db, db.tasks[t])
    requires NewDeadline(db.tasks[t], merged, off, pick) == Ok(Micros(due)) && Describes(local, db, t, merged, due, off, pick, block)
    ensures UpdateTask(db, t, RequestFor(db.tasks[t], merged, due), None, block).Ok? <==> P.Accepts(local, merged)
  {
    var task, row := db.tasks[t], RowFor(db, t, merged, due);
    DeadlineIs(task, merged, off, pick);
    UpdateIs(db, t, merged, due, block);
    assert row.place.source != Some(t) by {
      assert Lines(db.tasks);
      assert task.place.source == Some(t) ==> SourceDone(db.tasks, t, t);
    }
    if task.Done() && !row.Done() {
      if RemoveNext(db, t).Ok? {
        var left := RemoveNext(db, t).value;
        DropLeaves(db, SuccessorsOf(db.tasks, t));
        WriteIs(left, t, row, true, block);
      }
    } else {
      if !task.Done() {
        UnfinishedHasNone(db.tasks, t);
      }
      WriteIs(db, t, row, task.Done(), block);
    }
  }

  /** The store accepts a merged value for a task exactly when the protocol's condition holds of a
      right description of that task: the columns are sound, a recurring task keeps a deadline, the
      zone does not skip the hour, the next occurrence does not stand in the way of reopening, and a
      completed recurring task has a next occurrence. */
  lemma AcceptedExactly(local: P.Local, db: Db, t: Id, merged: TaskFields, due: Option<Moment>, off: D.Offset, pick: int -> int, block: Block)
    requires Inv(db) && t in db.tasks && 1 <= |merged.title| <= 240 && Describes(local, db, t, merged, due, off, pick, block)
    requires NewDeadline(db.tasks[t], merged, off, pick).Ok? ==> NewDeadline(db.tasks[t], merged, off, pick) == Ok(Micros(due))
    ensures WriteMerged(db, t, merged, due, off, pick, block).Ok? <==> P.Accepts(local, merged)
  {
    DeadlineIs(db.tasks[t], merged, off, pick);
    if NewDeadline(db.tasks[t], merged, off, pick).Ok? {
      if Sound(db, db.tasks[t]) {
        SoundUpdateIsAccepted(local, db, t, merged, due, off, pick, block);
      } else {
        UnsoundIsRefused(db, t, merged, due, block);
      }
    }
  }

  // ---- what is stored ----

  /** The row shows the merged fields and is otherwise the row of before, at its next version; its
      deadline is the same instant if the day is the same. */
  ghost predicate MergeStored(was: Task, row: Task, merged: TaskFields, off: D.Offset, now: int) {
    && FieldsOf(row, off) == merged && row.stamp == Stamp(was.stamp.version + 1, now)
    && row.content.text == was.content.text.(title := merged.title) && row.content.cadence == was.content.cadence
    && row.content.timing == was.content.timing.(due := row.content.timing.due)
    && (merged.date == FieldsOf(was, off).date ==> Micros(row.content.timing.due) == Micros(was.content.timing.due))
    && row.place == was.place && row.progress.position == was.progress.position
    && (was.Done() == merged.completed ==> row.progress.status == was.progress.status)
    && (was.Recurring() && was.template.saved.Some? ==> row.template == was.template)
  }

  lemma EditedShowsMerge(was: Task, row: Task, merged: TaskFields, due: Option<Moment>, off: D.Offset, pick: int -> int, now: int)
    requires NewDeadline(was, merged, off, pick) == Ok(Micros(due))
    requires TaskEdits.RowEdited(was, row, RequestFor(was, merged, due), None, now)
    ensures MergeStored(was, row, merged, off, now)
  {
    D.WrittenDayProjectsBack(off, pick, merged.date, Micros(was.content.timing.due));
  }

  /** An accepted merge is stored: the task then shows exactly the merged fields. */
  lemma MergedIsStored(db: Db, t: Id, merged: TaskFields, due: Option<Moment>, off: D.Offset, pick: int -> int, block: Block)
    requires Inv(db) && t in db.tasks && NewDeadline(db.tasks[t], merged, off, pick) == Ok(Micros(due))
    requires WriteMerged(db, t, merged, due, off, pick, block).Ok?
    ensures var after := WriteMerged(db, t, merged, due, off, pick, block).value;
            t in after.tasks && MergeStored(db.tasks[t], after.tasks[t], merged, off, db.clock.now)
  {
    var request := RequestFor(db.tasks[t], merged, due);
    var outcome := UpdateTask(db, t, request, None, block);
    assert WriteMerged(db, t, merged, due, off, pick, block) == outcome;
    TaskEdits.UpdateTaskMeans(db, t, request, None, block);
    EditedIs(db, outcome.value, t, request, block);
    EditedShowsMerge(db.tasks[t], outcome.value.tasks[t], merged, due, off, pick, db.clock.now);
  }

  lemma EditedIs(db: Db, after: Db, t: Id, request: TaskRequest, block: Block)
    requires t in db.tasks && TaskEdits.TaskEdited(db, after, t, request, None, block)
    ensures t in after.tasks && TaskEdits.RowEdited(db.tasks[t], after.tasks[t], request, None, db.clock.now)
  {
  }

  // ---- the import ----

  /** `import_google_task` stores a row with the listed title, the converted day and the status. */
  predicate StoresListed(row: Task, listed: TaskFields, off: D.Offset, pick: int -> int) {
    && row.content.text.title == listed.title && row.Done() == listed.completed
    && D.Convert(off, pick, listed.date, None) == Ok(Micros(row.content.timing.due))
  }

  /** The row of an imported task shows exactly what was listed. */
  lemma ImportShowsListed(row: Task, listed: TaskFields, off: D.Offset, pick: int -> int)
    requires StoresListed(row, listed, off, pick)
    ensures FieldsOf(row, off) == listed
  {
    D.WrittenDayProjectsBack(off, pick, listed.date, None);
  }
}
