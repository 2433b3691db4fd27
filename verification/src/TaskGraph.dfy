/** Every transaction keeps the task graph: the subtask forest and the recurrence lineage
    (apps/api/src/store.rs:956-1504, apps/api/src/task_delete_store.rs:141-518). */
module TaskGraph {
  import opened Prelude
  import opened Rows
  import opened SubtaskForest
  import opened RecurrenceLineage
  import opened Transactions

  /** A deleted subtask still fits the parent it was deleted under. */
  ghost predicate Fitting(deletes: DeleteReceipts) {
    forall r :: r in deletes && Row(deletes[r]).place.parent.Some? ==> FitsKept(deletes[r], Row(deletes[r]).place.parent.value)
  }

  ghost predicate FitsKept(r: DeleteReceipt, p: Id) {
    p in Kept(r) && Fits(Row(r), Kept(r)[p])
  }

  /** Every id in use is below the next one. */
  ghost predicate IdsBelow(tasks: Tasks, deletes: DeleteReceipts, next: Id) {
    && (forall t :: t in tasks ==> t < next)
    && (forall r :: r in deletes ==> r < next && Gone(deletes[r]) < next)
    && (forall r, k :: r in deletes && k in Kept(deletes[r]) ==> k < next)
  }

  ghost predicate Graph(tasks: Tasks, deletes: DeleteReceipts, next: Id) {
    Forest(tasks) && Lineage(tasks, deletes) && Fitting(deletes) && IdsBelow(tasks, deletes, next)
  }

  lemma NextGrows(tasks: Tasks, deletes: DeleteReceipts, next: Id, later: Id)
    requires Graph(tasks, deletes, next) && next <= later
    ensures Graph(tasks, deletes, later)
  {
  }

  // ---- creating ----

  lemma CreateKeeps(tasks: Tasks, deletes: DeleteReceipts, next: Id, row: Task)
    requires Graph(tasks, deletes, next) && row.stamp.version == 1 && row.place.source.None?
    requires row.place.parent.Some? ==> row.place.parent.value in tasks && Fits(row, tasks[row.place.parent.value])
    ensures Graph(tasks[next := row], deletes, next + 1)
  {
    GrownKeepsForest(tasks, tasks[next := row], next);
    InsertKeepsLineage(tasks, deletes, next, row);
  }

  // ---- writing one row ----

  /** An edit that passed validation. */
  ghost predicate Admissible(tasks: Tasks, t: Id, row: Task) {
    && t in tasks
    && row.place.source == tasks[t].place.source && row.stamp.version > tasks[t].stamp.version
    && (row.place.parent.Some? ==>
          && row.place.parent.value in tasks && row.place.parent.value != t
          && Fits(row, tasks[row.place.parent.value])
          && !Reaches(tasks, row.place.parent.value, t))
    && (HasChildren(tasks, t) ==> row.place.project == tasks[t].place.project && !row.Recurring())
  }

  lemma WriteKeeps(tasks: Tasks, deletes: DeleteReceipts, next: Id, t: Id, row: Task)
    requires Graph(tasks, deletes, next) && Admissible(tasks, t, row)
    requires !row.Done() ==> NoSuccessor(tasks, t)
    ensures Graph(tasks[t := row], deletes, next)
    ensures forall r :: r in deletes && From(deletes[r], t) ==> Kept(deletes[r])[t].stamp.version < row.stamp.version
  {
    ReplaceKeepsForest(tasks, t, row);
    RaiseKeepsLineage(tasks, deletes, t, row);
  }

  /** The row stays in its place and keeps its status; its version rises. */
  lemma TouchKeeps(tasks: Tasks, deletes: DeleteReceipts, next: Id, t: Id, row: Task)
    requires Graph(tasks, deletes, next) && t in tasks
    requires row.place == tasks[t].place && row.content.cadence == tasks[t].content.cadence
    requires row.Done() == tasks[t].Done() && row.stamp.version > tasks[t].stamp.version
    ensures Graph(tasks[t := row], deletes, next)
  {
    SameShapeKeepsForest(tasks, tasks[t := row]);
    SameLinesKeepLineage(tasks, tasks[t := row], deletes);
  }

  /** An unfinished task has no successor. */
  lemma UnfinishedHasNone(tasks: Tasks, t: Id)
    requires Lines(tasks) && t in tasks && !tasks[t].Done()
    ensures NoSuccessor(tasks, t) && SuccessorsOf(tasks, t) == {}
  {
    forall k | k in tasks
      ensures tasks[k].place.source != Some(t)
    {
      assert tasks[k].place.source == Some(t) ==> SourceDone(tasks, k, t);
    }
  }

  /** The next occurrence of a task that was just completed. */
  lemma NextKeeps(tasks: Tasks, deletes: DeleteReceipts, next: Id, t: Id, row: Task)
    requires Graph(tasks, deletes, next) && t in tasks && tasks[t].Done() && NoSuccessor(tasks, t)
    requires forall r :: r in deletes && From(deletes[r], t) ==> Kept(deletes[r])[t].stamp.version < tasks[t].stamp.version
    requires row.place.source == Some(t) && row.place.parent.None? && row.Recurring() && row.stamp.version == 1
    ensures Graph(tasks[next := row], deletes, next + 1)
  {
    GrownKeepsForest(tasks, tasks[next := row], next);
    InsertKeepsLineage(tasks, deletes, next, row);
  }

  // ---- removing ----

  lemma RemoveKeeps(tasks: Tasks, deletes: DeleteReceipts, next: Id, gone: set<Id>)
    requires Graph(tasks, deletes, next)
    requires forall k :: k in tasks && k !in gone ==> !In(tasks[k].place.parent, gone)
    ensures Graph(RemoveTasks(tasks, gone), deletes, next)
  {
    RemoveKeepsForest(tasks, gone);
    RemoveKeepsLineage(tasks, deletes, gone);
  }

  lemma ChildlessIsClosed(tasks: Tasks, t: Id)
    requires !HasChildren(tasks, t)
    ensures forall k :: k in tasks ==> !In(tasks[k].place.parent, {t})
  {
  }

  /** Reopening removes only occurrences that nobody touched; they recur, so nothing hangs under
      them. */
  lemma UntouchedIsChildless(tasks: Tasks, t: Id, next: set<Id>)
    requires Forest(tasks) && Lines(tasks) && next == SuccessorsOf(tasks, t)
    requires forall k :: k in next ==> tasks[k].stamp.version == 1
    ensures forall k :: k in next ==> !HasChildren(tasks, k)
    ensures forall k :: k in tasks ==> !In(tasks[k].place.parent, next)
  {
    forall k | k in tasks
      ensures !In(tasks[k].place.parent, next)
    {
      if tasks[k].place.parent.Some? {
        var p := tasks[k].place.parent.value;
        assert Fits(tasks[k], tasks[p]);
        assert tasks[p].stamp.version != 1 || tasks[p].place.source != Some(t);
      }
    }
    forall k | k in next
      ensures !HasChildren(tasks, k)
    {
      assert forall c :: c in tasks && tasks[c].place.parent == Some(k) ==> In(tasks[c].place.parent, next);
    }
  }

  lemma ProjectIsClosed(tasks: Tasks, p: Id)
    requires Related(tasks)
    ensures forall k :: k in tasks && k !in TasksOfProject(tasks, p) ==> !In(tasks[k].place.parent, TasksOfProject(tasks, p))
  {
    forall k | k in tasks && k !in TasksOfProject(tasks, p)
      ensures !In(tasks[k].place.parent, TasksOfProject(tasks, p))
    {
      if tasks[k].place.parent.Some? {
        var q := tasks[k].place.parent.value;
        assert Fits(tasks[k], tasks[q]);
      }
    }
  }

  // ---- many rows at once ----

  lemma RowsKeep(tasks: Tasks, after: Tasks, deletes: DeleteReceipts, next: Id)
    requires Graph(tasks, deletes, next) && SameShape(tasks, after) && SameLines(tasks, after)
    ensures Graph(after, deletes, next)
  {
    SameShapeKeepsForest(tasks, after);
    SameLinesKeepLineage(tasks, after, deletes);
  }

  lemma FewerReceiptsKeep(tasks: Tasks, deletes: DeleteReceipts, fewer: DeleteReceipts, next: Id)
    requires Graph(tasks, deletes, next)
    requires forall r :: r in fewer ==> r in deletes && fewer[r] == deletes[r]
    ensures Graph(tasks, fewer, next)
  {
    FewerReceiptsKeepLineage(tasks, deletes, fewer);
  }

  // ---- reversible deletion and undo ----

  lemma DeleteKeeps(tasks: Tasks, deletes: DeleteReceipts, next: Id, t: Id, r: DeleteReceipt)
    requires Graph(tasks, deletes, next) && Written(tasks, t, r) && !HasChildren(tasks, t)
    requires forall k :: k in Kept(r) ==> k in tasks && Kept(r)[k] == tasks[k]
    requires tasks[t].place.parent.Some? ==> tasks[t].place.parent.value in Kept(r)
    ensures Graph(RemoveTasks(tasks, {t}), deletes[next := r], next + 1)
  {
    ChildlessIsClosed(tasks, t);
    RemoveKeepsForest(tasks, {t});
    DeleteKeepsLineage(tasks, deletes, t, next, r);
    if tasks[t].place.parent.Some? {
      var p := tasks[t].place.parent.value;
      assert Fits(tasks[t], tasks[p]);
      assert FitsKept(r, p);
    }
  }

  lemma UndoKeeps(tasks: Tasks, deletes: DeleteReceipts, next: Id, id: Id, now: int)
    requires Graph(tasks, deletes, next) && id in deletes && Intact(tasks, deletes[id])
    ensures Graph(RestoreTasks(tasks, deletes[id].snapshot, now), deletes - {id}, next)
  {
    var r := deletes[id];
    var after := RestoreTasks(tasks, r.snapshot, now);
    UndoIsFree(tasks, deletes, id);
    UndoKeepsLineage(tasks, deletes, id, now);
    if Row(r).place.parent.Some? {
      var p := Row(r).place.parent.value;
      assert FitsKept(r, p);
      assert tasks[p] == Kept(r)[p];
    }
    GrownKeepsForest(tasks, after, Gone(r));
  }
}
