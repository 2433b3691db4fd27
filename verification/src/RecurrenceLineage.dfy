/** Recurrence lineage (migrations/0004_recurrence_lineage.sql:2-6): which task a successor was
    created for, among the stored tasks and among the deletions that can still be undone. */
module RecurrenceLineage {
  import opened Prelude
  import opened Rows

  /** A successor's source exists, is older and is completed. */
  ghost predicate SourcesDone(tasks: Tasks) {
    forall t :: t in tasks && tasks[t].place.source.Some? ==> SourceDone(tasks, t, tasks[t].place.source.value)
  }

  ghost predicate SourceDone(tasks: Tasks, t: Id, s: Id) {
    s in tasks && s < t && tasks[s].Done()
  }

  ghost predicate OneSuccessor(tasks: Tasks) {
    forall t, u :: t in tasks && u in tasks && tasks[t].place.source.Some? && tasks[t].place.source == tasks[u].place.source ==> t == u
  }

  /** A successor nobody has touched still recurs. */
  ghost predicate YoungRecur(tasks: Tasks) {
    forall t :: t in tasks ==>
      && tasks[t].stamp.version >= 1
      && (tasks[t].place.source.Some? && tasks[t].stamp.version == 1 ==> tasks[t].Recurring())
  }

  ghost predicate NoSuccessor(tasks: Tasks, s: Id) {
    forall t :: t in tasks ==> tasks[t].place.source != Some(s)
  }

  ghost predicate Lines(tasks: Tasks) {
    SourcesDone(tasks) && OneSuccessor(tasks) && YoungRecur(tasks)
  }

  // ---- receipts ----

  function Gone(r: DeleteReceipt): Id {
    r.snapshot.core.id
  }

  function Row(r: DeleteReceipt): Task {
    r.snapshot.core.task
  }

  function Kept(r: DeleteReceipt): Tasks {
    r.snapshot.guards.tasks
  }

  function Heirs(r: DeleteReceipt): Tasks {
    r.snapshot.owned.successors
  }

  predicate From(r: DeleteReceipt, s: Id) {
    Row(r).place.source == Some(s) && s in Kept(r)
  }

  /** A receipt was written in a state with proper lineage. */
  ghost predicate Proper(r: DeleteReceipt) {
    && Row(r).stamp.version >= 1
    && (Row(r).place.source.Some? ==>
          var s := Row(r).place.source.value;
          s in Kept(r) && s < Gone(r) && Kept(r)[s].Done())
    && (forall k :: k in Heirs(r) ==>
          k > Gone(r) && Heirs(r)[k].place.source == Some(Gone(r)) && Heirs(r)[k].stamp.version >= 1 && Row(r).Done())
    && (forall k, l :: k in Heirs(r) && l in Heirs(r) ==> k == l)
  }

  ghost predicate AllProper(receipts: DeleteReceipts) {
    forall r :: r in receipts ==> Proper(receipts[r])
  }

  /** A deleted task is not stored, and is held by one receipt. */
  ghost predicate Absent(tasks: Tasks, receipts: DeleteReceipts) {
    && (forall r :: r in receipts ==> Gone(receipts[r]) !in tasks)
    && (forall r, q :: r in receipts && q in receipts && Gone(receipts[r]) == Gone(receipts[q]) ==> r == q)
  }

  /** The receipt's source row can be at the version the receipt saw only as long as it has no
      other successor. */
  ghost predicate Reserved(tasks: Tasks, r: DeleteReceipt, s: Id)
    requires s in Kept(r)
  {
    s in tasks ==>
      && tasks[s].stamp.version >= Kept(r)[s].stamp.version
      && (tasks[s].stamp.version == Kept(r)[s].stamp.version ==> NoSuccessor(tasks, s))
  }

  ghost predicate AllReserved(tasks: Tasks, receipts: DeleteReceipts) {
    forall r, s :: r in receipts && From(receipts[r], s) ==> Reserved(tasks, receipts[r], s)
  }

  /** Two receipts with one source saw it at different versions, and a source that was deleted
      itself was not older than any receipt saw it. */
  ghost predicate Apart(receipts: DeleteReceipts) {
    && (forall r, q, s :: r in receipts && q in receipts && From(receipts[r], s) && From(receipts[q], s) && r != q ==>
          Kept(receipts[r])[s].stamp.version != Kept(receipts[q])[s].stamp.version)
    && (forall r, q, s :: r in receipts && q in receipts && From(receipts[r], s) && Gone(receipts[q]) == s ==>
          Row(receipts[q]).stamp.version >= Kept(receipts[r])[s].stamp.version)
  }

  ghost predicate Lineage(tasks: Tasks, receipts: DeleteReceipts) {
    && Lines(tasks)
    && AllProper(receipts) && Absent(tasks, receipts)
    && AllReserved(tasks, receipts) && Apart(receipts)
  }

  // ---- what keeps it ----

  /** A row is written with a higher version; it keeps its source and, if it has a successor,
      stays completed. */
  lemma RaiseKeepsLineage(tasks: Tasks, receipts: DeleteReceipts, t: Id, row: Task)
    requires Lineage(tasks, receipts) && t in tasks
    requires row.place.source == tasks[t].place.source && row.stamp.version > tasks[t].stamp.version
    requires !row.Done() ==> NoSuccessor(tasks, t)
    ensures Lineage(tasks[t := row], receipts)
    ensures forall r :: r in receipts && From(receipts[r], t) ==> Kept(receipts[r])[t].stamp.version < row.stamp.version
  {
    var after := tasks[t := row];
    assert Lines(after);
    forall r, s | r in receipts && From(receipts[r], s)
      ensures Reserved(after, receipts[r], s)
    {
      assert Reserved(tasks, receipts[r], s);
      assert s in tasks && NoSuccessor(tasks, s) ==> NoSuccessor(after, s);
    }
  }

  /** Sources and completion are as before, and no version is lower. */
  ghost predicate SameLines(before: Tasks, after: Tasks) {
    && (forall k :: k in after <==> k in before)
    && forall k :: k in before ==>
         && after[k].place.source == before[k].place.source
         && after[k].stamp.version >= before[k].stamp.version
         && after[k].Done() == before[k].Done()
         && after[k].Recurring() == before[k].Recurring()
  }

  lemma SameLinesKeepLineage(tasks: Tasks, after: Tasks, receipts: DeleteReceipts)
    requires Lineage(tasks, receipts) && SameLines(tasks, after)
    ensures Lineage(after, receipts)
  {
    forall t | t in after && after[t].place.source.Some?
      ensures SourceDone(after, t, after[t].place.source.value)
    {
      assert SourceDone(tasks, t, tasks[t].place.source.value);
      assert after[after[t].place.source.value].Done();
    }
    assert YoungRecur(after);
    forall r, s | r in receipts && From(receipts[r], s)
      ensures Reserved(after, receipts[r], s)
    {
      assert Reserved(tasks, receipts[r], s);
      assert NoSuccessor(tasks, s) ==> NoSuccessor(after, s);
    }
  }

  /** A new task is nobody's successor, or that of a completed task that has none and that no
      receipt saw at its present version. */
  lemma InsertKeepsLineage(tasks: Tasks, receipts: DeleteReceipts, t: Id, row: Task)
    requires Lineage(tasks, receipts) && t !in tasks
    requires forall r :: r in receipts ==> Gone(receipts[r]) != t && !From(receipts[r], t)
    requires row.stamp.version == 1
    requires row.place.source.Some? ==>
               var s := row.place.source.value;
               && SourceDone(tasks, t, s) && NoSuccessor(tasks, s) && row.Recurring()
               && forall r :: r in receipts && From(receipts[r], s) ==> Kept(receipts[r])[s].stamp.version < tasks[s].stamp.version
    ensures Lineage(tasks[t := row], receipts)
  {
    var after := tasks[t := row];
    forall u | u in after && after[u].place.source.Some?
      ensures SourceDone(after, u, after[u].place.source.value)
    {
      if u != t {
        assert SourceDone(tasks, u, tasks[u].place.source.value);
      }
    }
    assert OneSuccessor(after);
    assert YoungRecur(after);
    forall r, s | r in receipts && From(receipts[r], s)
      ensures Reserved(after, receipts[r], s)
    {
      assert Reserved(tasks, receipts[r], s);
      assert NoSuccessor(tasks, s) && row.place.source != Some(s) ==> NoSuccessor(after, s);
    }
  }

  lemma RemoveKeepsLineage(tasks: Tasks, receipts: DeleteReceipts, gone: set<Id>)
    requires Lineage(tasks, receipts)
    ensures Lineage(RemoveTasks(tasks, gone), receipts)
  {
    var after := RemoveTasks(tasks, gone);
    forall u | u in after && after[u].place.source.Some?
      ensures SourceDone(after, u, after[u].place.source.value)
    {
      assert SourceDone(tasks, u, tasks[u].place.source.value);
    }
    assert OneSuccessor(after);
    assert YoungRecur(after);
    forall r, s | r in receipts && From(receipts[r], s)
      ensures Reserved(after, receipts[r], s)
    {
      assert Reserved(tasks, receipts[r], s);
      assert NoSuccessor(tasks, s) ==> NoSuccessor(after, s);
    }
  }

  lemma FewerReceiptsKeepLineage(tasks: Tasks, receipts: DeleteReceipts, fewer: DeleteReceipts)
    requires Lineage(tasks, receipts)
    requires forall r :: r in fewer ==> r in receipts && fewer[r] == receipts[r]
    ensures Lineage(tasks, fewer)
  {
  }

  /** What a reversible deletion of `t` writes down about its relatives. */
  ghost predicate Written(tasks: Tasks, t: Id, r: DeleteReceipt) {
    && t in tasks && Gone(r) == t && Row(r) == tasks[t]
    && (tasks[t].place.source.Some? ==>
          var s := tasks[t].place.source.value; s in tasks && s in Kept(r) && Kept(r)[s] == tasks[s])
    && (forall k :: k in Heirs(r) <==> k in tasks && tasks[k].place.source == Some(t))
    && (forall k :: k in Heirs(r) ==> Heirs(r)[k] == tasks[k])
  }

  lemma WrittenIsProper(tasks: Tasks, t: Id, r: DeleteReceipt)
    requires Lines(tasks) && Written(tasks, t, r)
    ensures Proper(r)
  {
    if tasks[t].place.source.Some? {
      assert SourceDone(tasks, t, tasks[t].place.source.value);
    }
    forall k | k in Heirs(r)
      ensures k > t && tasks[t].Done()
    {
      assert SourceDone(tasks, k, t);
    }
  }

  lemma DeleteKeepsApart(tasks: Tasks, receipts: DeleteReceipts, t: Id, id: Id, r: DeleteReceipt)
    requires Lineage(tasks, receipts) && Written(tasks, t, r) && id !in receipts
    ensures Apart(receipts[id := r])
  {
    forall q, s | q in receipts && From(receipts[q], s)
      ensures Reserved(tasks, receipts[q], s)
    {
    }
    if tasks[t].place.source.Some? {
      assert !NoSuccessor(tasks, tasks[t].place.source.value);
    }
  }

  /** A reversible deletion. */
  lemma DeleteKeepsLineage(tasks: Tasks, receipts: DeleteReceipts, t: Id, id: Id, r: DeleteReceipt)
    requires Lineage(tasks, receipts) && Written(tasks, t, r) && id !in receipts
    ensures Lineage(RemoveTasks(tasks, {t}), receipts[id := r])
  {
    var after, all := RemoveTasks(tasks, {t}), receipts[id := r];
    RemoveKeepsLineage(tasks, receipts, {t});
    WrittenIsProper(tasks, t, r);
    DeleteKeepsApart(tasks, receipts, t, id, r);
    forall q, s | q in all && From(all[q], s)
      ensures Reserved(after, all[q], s)
    {
      if q != id {
        assert Reserved(after, receipts[q], s);
      } else if s in after {
        assert NoSuccessor(after, s);
      }
    }
  }

  // ---- undoing a deletion ----

  /** The rows a receipt names are as the deletion left them. */
  ghost predicate Intact(tasks: Tasks, r: DeleteReceipt) {
    && (forall s :: s in Kept(r) ==> s in tasks && tasks[s] == Kept(r)[s])
    && (forall k :: k in Heirs(r) ==> k in tasks && tasks[k] == WithoutSource(Heirs(r)[k]))
  }

  /** No index stands in the way: the task's id is free and its source has no other successor. */
  lemma UndoIsFree(tasks: Tasks, receipts: DeleteReceipts, id: Id)
    requires Lineage(tasks, receipts) && id in receipts && Intact(tasks, receipts[id])
    ensures Gone(receipts[id]) !in tasks
    ensures Row(receipts[id]).place.source.Some? ==> NoSuccessor(tasks, Row(receipts[id]).place.source.value)
    ensures NoSuccessor(tasks, Gone(receipts[id]))
  {
    var r := receipts[id];
    if Row(r).place.source.Some? {
      assert From(r, Row(r).place.source.value);
      assert Reserved(tasks, r, Row(r).place.source.value);
    }
    forall t | t in tasks
      ensures tasks[t].place.source != Some(Gone(r))
    {
      assert tasks[t].place.source.Some? ==> SourceDone(tasks, t, tasks[t].place.source.value);
    }
  }

  lemma UndoKeepsSources(tasks: Tasks, receipts: DeleteReceipts, id: Id, now: int)
    requires Lineage(tasks, receipts) && id in receipts && Intact(tasks, receipts[id])
    ensures SourcesDone(RestoreTasks(tasks, receipts[id].snapshot, now))
  {
    var r := receipts[id];
    var after := RestoreTasks(tasks, r.snapshot, now);
    UndoIsFree(tasks, receipts, id);
    assert Proper(r);
    forall u | u in after && after[u].place.source.Some?
      ensures SourceDone(after, u, after[u].place.source.value)
    {
      if u != Gone(r) && u !in Heirs(r) {
        assert SourceDone(tasks, u, tasks[u].place.source.value);
      } else if u == Gone(r) {
        assert tasks[Row(r).place.source.value] == Kept(r)[Row(r).place.source.value];
      }
    }
  }

  lemma UndoKeepsLines(tasks: Tasks, receipts: DeleteReceipts, id: Id, now: int)
    requires Lineage(tasks, receipts) && id in receipts && Intact(tasks, receipts[id])
    ensures Lines(RestoreTasks(tasks, receipts[id].snapshot, now))
  {
    var after := RestoreTasks(tasks, receipts[id].snapshot, now);
    UndoIsFree(tasks, receipts, id);
    UndoKeepsSources(tasks, receipts, id, now);
    assert Proper(receipts[id]);
    assert OneSuccessor(after);
    assert YoungRecur(after);
  }

  lemma UndoKeepsReserved(tasks: Tasks, receipts: DeleteReceipts, id: Id, now: int, q: Id, s: Id)
    requires Lineage(tasks, receipts) && id in receipts && Intact(tasks, receipts[id])
    requires q in receipts && q != id && From(receipts[q], s)
    ensures Reserved(RestoreTasks(tasks, receipts[id].snapshot, now), receipts[q], s)
  {
    var r := receipts[id];
    var after := RestoreTasks(tasks, r.snapshot, now);
    assert Proper(r);
    if s in after && s != Gone(r) && s !in Heirs(r) {
      assert Reserved(tasks, receipts[q], s);
      if tasks[s].stamp.version == Kept(receipts[q])[s].stamp.version {
        assert NoSuccessor(tasks, s);
        assert !From(r, s);
        assert NoSuccessor(after, s);
      }
    } else if s in Heirs(r) {
      assert Reserved(tasks, receipts[q], s);
    }
  }

  /** Undoing a deletion. */
  lemma UndoKeepsLineage(tasks: Tasks, receipts: DeleteReceipts, id: Id, now: int)
    requires Lineage(tasks, receipts) && id in receipts && Intact(tasks, receipts[id])
    ensures Lineage(RestoreTasks(tasks, receipts[id].snapshot, now), receipts - {id})
  {
    var after, left := RestoreTasks(tasks, receipts[id].snapshot, now), receipts - {id};
    UndoKeepsLines(tasks, receipts, id, now);
    FewerReceiptsKeepLineage(tasks, receipts, left);
    forall q, s | q in left && From(left[q], s)
      ensures Reserved(after, left[q], s)
    {
      UndoKeepsReserved(tasks, receipts, id, now, q, s);
    }
  }
}
