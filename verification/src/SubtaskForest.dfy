/** The subtask forest (apps/api/src/store.rs:1534-1657): parent and child share a project, no
    recurring task has either, and following parents never returns to where it started. */
module SubtaskForest {
  import opened Prelude
  import opened Rows

  /** The ancestor `n` steps up. */
  function Up(tasks: Tasks, t: Id, n: nat): Option<Id>
    decreases n
  {
    if t !in tasks then None
    else if n == 0 then Some(t)
    else if tasks[t].place.parent.None? then None
    else Up(tasks, tasks[t].place.parent.value, n - 1)
  }

  ghost predicate Reaches(tasks: Tasks, from: Id, to: Id) {
    exists n: nat :: Up(tasks, from, n) == Some(to)
  }

  ghost predicate Acyclic(tasks: Tasks) {
    forall t, n: nat :: n > 0 ==> Up(tasks, t, n) != Some(t)
  }

  /** A task and the parent it names. */
  predicate Fits(child: Task, parent: Task) {
    child.place.project == parent.place.project && !child.Recurring() && !parent.Recurring()
  }

  predicate Related(tasks: Tasks) {
    forall t :: t in tasks && tasks[t].place.parent.Some? ==>
      && tasks[t].place.parent.value in tasks
      && Fits(tasks[t], tasks[tasks[t].place.parent.value])
  }

  ghost predicate Forest(tasks: Tasks) {
    Related(tasks) && Acyclic(tasks)
  }

  lemma {:induction false} UpStep(tasks: Tasks, t: Id, n: nat)
    ensures Up(tasks, t, n + 1) ==
              match Up(tasks, t, n)
              case None => None
              case Some(u) => if u in tasks && tasks[u].place.parent.Some? then Up(tasks, tasks[u].place.parent.value, 0) else None
    decreases n
  {
    if n == 0 {
      assert t in tasks && tasks[t].place.parent.Some? ==> Up(tasks, t, 1) == Up(tasks, tasks[t].place.parent.value, 0);
    } else if t in tasks && tasks[t].place.parent.Some? {
      UpStep(tasks, tasks[t].place.parent.value, n - 1);
    }
  }

  lemma {:induction false} UpPlus(tasks: Tasks, t: Id, n: nat, m: nat)
    ensures Up(tasks, t, n + m) == match Up(tasks, t, n) case None => None case Some(u) => Up(tasks, u, m)
    decreases n
  {
    if n > 0 && t in tasks && tasks[t].place.parent.Some? {
      UpPlus(tasks, tasks[t].place.parent.value, n - 1, m);
    }
  }

  lemma {:induction false} UpIsTask(tasks: Tasks, t: Id, n: nat)
    ensures Up(tasks, t, n).Some? ==> Up(tasks, t, n).value in tasks
    decreases n
  {
    if n > 0 && t in tasks && tasks[t].place.parent.Some? {
      UpIsTask(tasks, tasks[t].place.parent.value, n - 1);
    }
  }

  // ---- the parent-chain query ----

  /** `seen` is closed under parents. */
  lemma {:induction false} ClosedHoldsAncestors(tasks: Tasks, seen: set<Id>, t: Id, n: nat)
    requires forall k :: k in seen ==> k in tasks && (tasks[k].place.parent.Some? && tasks[k].place.parent.value in tasks ==> tasks[k].place.parent.value in seen)
    requires t in seen
    ensures Up(tasks, t, n).Some? ==> Up(tasks, t, n).value in seen
    decreases n
  {
    if n > 0 && tasks[t].place.parent.Some? && tasks[t].place.parent.value in tasks {
      ClosedHoldsAncestors(tasks, seen, tasks[t].place.parent.value, n - 1);
    }
  }

  /** The recursive query collects the rows on the way up from `parent`; it is true exactly when
      `task` is among them. Nothing is assumed of the table: the union stops at a row seen before. */
  method CreatesCycle(tasks: Tasks, parent: Id, task: Id) returns (found: bool)
    ensures found <==> Reaches(tasks, parent, task)
  {
    var chain: set<Id> := {};
    var current := Some(parent);
    ghost var steps: nat := 0;
    while current.Some? && current.value in tasks && current.value !in chain
      invariant chain <= tasks.Keys
      invariant forall k :: k in chain ==> Reaches(tasks, parent, k)
      invariant forall k :: k in chain && tasks[k].place.parent.Some? ==>
                  tasks[k].place.parent.value in chain || current == tasks[k].place.parent
      invariant parent in chain || (current == Some(parent) && chain == {})
      invariant current.Some? && current.value in tasks ==> Up(tasks, parent, steps) == current
      decreases tasks.Keys - chain
    {
      var id := current.value;
      assert Reaches(tasks, parent, id);
      UpStep(tasks, parent, steps);
      chain := chain + {id};
      current := tasks[id].place.parent;
      steps := steps + 1;
    }
    found := task in chain;
    if parent in chain {
      forall n: nat | Up(tasks, parent, n) == Some(task)
        ensures task in chain
      {
        ClosedHoldsAncestors(tasks, chain, parent, n);
      }
    }
  }

  // ---- what keeps the forest ----

  /** A way up that avoids `t` does not see what changes at `t`. */
  lemma {:induction false} UpElsewhere(before: Tasks, after: Tasks, t: Id, from: Id, n: nat)
    requires forall k :: k != t ==> (k in after <==> k in before)
    requires forall k :: k != t && k in before ==> after[k].place.parent == before[k].place.parent
    requires forall i: nat :: i < n ==> Up(after, from, i) != Some(t)
    requires t in before && t in after
    ensures Up(after, from, n) == Some(t) ==> Up(before, from, n) == Some(t)
    decreases n
  {
    if n > 0 && from in after {
      assert Up(after, from, 0) == Some(from);
      if after[from].place.parent.Some? {
        var p := after[from].place.parent.value;
        forall i: nat | i < n - 1
          ensures Up(after, p, i) != Some(t)
        {
          assert Up(after, from, i + 1) == Up(after, p, i);
        }
        UpElsewhere(before, after, t, p, n - 1);
      }
    }
  }

  /** The first visit to `t` on a way up. */
  lemma {:induction false} FirstVisit(tasks: Tasks, from: Id, t: Id, n: nat) returns (m: nat)
    requires Up(tasks, from, n) == Some(t)
    ensures m <= n && Up(tasks, from, m) == Some(t)
    ensures forall i: nat :: i < m ==> Up(tasks, from, i) != Some(t)
    decreases n
  {
    m := n;
    if i: nat :| i < n && Up(tasks, from, i) == Some(t) {
      m := FirstVisit(tasks, from, t, i);
    }
  }

  /** A way up that avoids `t` is the same before and after. */
  lemma {:induction false} UpAvoiding(before: Tasks, after: Tasks, t: Id, from: Id, n: nat)
    requires forall k :: k != t ==> (k in after <==> k in before)
    requires forall k :: k != t && k in before ==> after[k].place.parent == before[k].place.parent
    requires t in after && forall i: nat :: i <= n ==> Up(after, from, i) != Some(t)
    ensures Up(after, from, n) == Up(before, from, n)
    decreases n
  {
    assert from in after ==> Up(after, from, 0) == Some(from);
    if n > 0 && from in after && after[from].place.parent.Some? {
      var p := after[from].place.parent.value;
      forall i: nat | i <= n - 1
        ensures Up(after, p, i) != Some(t)
      {
        assert Up(after, from, i + 1) == Up(after, p, i);
      }
      UpAvoiding(before, after, t, p, n - 1);
    }
  }

  lemma ReturnsToChanged(tasks: Tasks, t: Id, row: Task, n: nat)
    requires t in tasks && n > 0 && Up(tasks[t := row], t, n) == Some(t)
    ensures row.place.parent.Some? && Reaches(tasks, row.place.parent.value, t)
  {
    var after := tasks[t := row];
    var p := row.place.parent.value;
    assert Up(after, p, n - 1) == Some(t);
    var m := FirstVisit(after, p, t, n - 1);
    UpElsewhere(tasks, after, t, p, m);
  }

  /** A cycle through `x` avoids `t`, and was there before, or leads from `t`'s new parent to `t`. */
  lemma NoNewCycle(tasks: Tasks, t: Id, row: Task, x: Id, n: nat)
    requires Acyclic(tasks) && t in tasks && n > 0
    requires row.place.parent.None? || !Reaches(tasks, row.place.parent.value, t)
    ensures Up(tasks[t := row], x, n) != Some(x)
  {
    var after := tasks[t := row];
    if Up(after, x, n) == Some(x) {
      if i: nat :| i <= n && Up(after, x, i) == Some(t) {
        UpPlus(after, x, i, n - i);
        UpPlus(after, t, n - i, i);
        ReturnsToChanged(tasks, t, row, n);
      } else {
        UpAvoiding(tasks, after, t, x, n);
      }
    }
  }

  /** Giving `t` another parent closes a cycle exactly when that parent reaches `t`. */
  lemma NewParentExactly(tasks: Tasks, t: Id, row: Task)
    requires Acyclic(tasks) && t in tasks
    ensures Acyclic(tasks[t := row]) <==>
              (row.place.parent.None? || !Reaches(tasks, row.place.parent.value, t))
  {
    var after := tasks[t := row];
    if row.place.parent.Some? && Reaches(tasks, row.place.parent.value, t) {
      var p := row.place.parent.value;
      var n: nat :| Up(tasks, p, n) == Some(t);
      var m := FirstVisit(tasks, p, t, n);
      UpElsewhere(after, tasks, t, p, m);
      assert Up(after, t, m + 1) == Up(after, p, m);
    } else {
      forall x, n: nat | n > 0
        ensures Up(after, x, n) != Some(x)
      {
        NoNewCycle(tasks, t, row, x, n);
      }
    }
  }

  /** One task more; the others keep their places. */
  ghost predicate Grown(tasks: Tasks, after: Tasks, t: Id) {
    && t !in tasks && (forall k :: k in after <==> k in tasks || k == t)
    && forall k :: k in tasks ==>
         && after[k].place.parent == tasks[k].place.parent
         && after[k].place.project == tasks[k].place.project
         && after[k].content.cadence == tasks[k].content.cadence
  }

  lemma {:induction false} UpWithout(tasks: Tasks, after: Tasks, t: Id, from: Id, n: nat)
    requires Related(tasks) && Grown(tasks, after, t) && from != t
    ensures Up(after, from, n) == Up(tasks, from, n) && Up(after, from, n) != Some(t)
    decreases n
  {
    if n > 0 && from in tasks && tasks[from].place.parent.Some? {
      var p := tasks[from].place.parent.value;
      assert p in tasks;
      UpWithout(tasks, after, t, p, n - 1);
    }
  }

  lemma GrownRelated(tasks: Tasks, after: Tasks, t: Id)
    requires Related(tasks) && Grown(tasks, after, t)
    requires after[t].place.parent.Some? ==> after[t].place.parent.value in tasks && Fits(after[t], tasks[after[t].place.parent.value])
    ensures Related(after)
  {
    forall k | k in after && after[k].place.parent.Some?
      ensures after[k].place.parent.value in after && Fits(after[k], after[after[k].place.parent.value])
    {
      var p := after[k].place.parent.value;
      if k != t {
        assert Fits(tasks[k], tasks[p]);
      }
      assert after[p].content.cadence == tasks[p].content.cadence && after[p].place.project == tasks[p].place.project;
    }
  }

  /** Nothing points to a new task, so it closes no cycle. */
  lemma GrownKeepsForest(tasks: Tasks, after: Tasks, t: Id)
    requires Forest(tasks) && Grown(tasks, after, t)
    requires after[t].place.parent.Some? ==> after[t].place.parent.value in tasks && Fits(after[t], tasks[after[t].place.parent.value])
    ensures Forest(after)
  {
    GrownRelated(tasks, after, t);
    forall x, n: nat | n > 0
      ensures Up(after, x, n) != Some(x)
    {
      if x == t {
        if after[t].place.parent.Some? {
          UpWithout(tasks, after, t, after[t].place.parent.value, n - 1);
        }
      } else {
        UpWithout(tasks, after, t, x, n);
      }
    }
  }

  /** A changed row keeps the forest if it fits its parent, does not move under itself, and
      keeps project and cadence for its children. */
  lemma ReplaceKeepsForest(tasks: Tasks, t: Id, row: Task)
    requires Forest(tasks) && t in tasks
    requires row.place.parent.Some? ==>
               && row.place.parent.value in tasks && row.place.parent.value != t
               && Fits(row, tasks[row.place.parent.value])
               && !Reaches(tasks, row.place.parent.value, t)
    requires HasChildren(tasks, t) ==> row.place.project == tasks[t].place.project && !row.Recurring()
    ensures Forest(tasks[t := row])
  {
    NewParentExactly(tasks, t, row);
  }

  /** Same tasks, same parents, projects and cadences. */
  ghost predicate SameShape(before: Tasks, after: Tasks) {
    && (forall k :: k in after <==> k in before)
    && forall k :: k in before ==>
         && after[k].place.parent == before[k].place.parent
         && after[k].place.project == before[k].place.project
         && after[k].content.cadence == before[k].content.cadence
  }

  lemma {:induction false} UpSameShape(before: Tasks, after: Tasks, t: Id, n: nat)
    requires SameShape(before, after)
    ensures Up(after, t, n) == Up(before, t, n)
    decreases n
  {
    if n > 0 && t in before && before[t].place.parent.Some? {
      UpSameShape(before, after, before[t].place.parent.value, n - 1);
    }
  }

  lemma SameShapeKeepsForest(before: Tasks, after: Tasks)
    requires Forest(before) && SameShape(before, after)
    ensures Forest(after)
  {
    forall t, n: nat | n > 0
      ensures Up(after, t, n) != Some(t)
    {
      UpSameShape(before, after, t, n);
    }
    assert Acyclic(after);
    forall t | t in after && after[t].place.parent.Some?
      ensures after[t].place.parent.value in after && Fits(after[t], after[after[t].place.parent.value])
    {
      var p := before[t].place.parent.value;
      assert Fits(before[t], before[p]);
      assert after[p].content.cadence == before[p].content.cadence;
      assert after[p].place.project == before[p].place.project;
    }
  }

  lemma {:induction false} UpOfRemaining(tasks: Tasks, gone: set<Id>, t: Id, n: nat)
    ensures Up(RemoveTasks(tasks, gone), t, n).Some? ==> Up(RemoveTasks(tasks, gone), t, n) == Up(tasks, t, n)
    decreases n
  {
    if n > 0 && t in tasks && t !in gone && tasks[t].place.parent.Some? {
      UpOfRemaining(tasks, gone, tasks[t].place.parent.value, n - 1);
    }
  }

  /** Removing tasks whose children all go too keeps the forest. */
  lemma RemoveKeepsForest(tasks: Tasks, gone: set<Id>)
    requires Forest(tasks)
    requires forall k :: k in tasks && k !in gone ==> !In(tasks[k].place.parent, gone)
    ensures Forest(RemoveTasks(tasks, gone))
  {
    forall t, n: nat | n > 0
      ensures Up(RemoveTasks(tasks, gone), t, n) != Some(t)
    {
      UpOfRemaining(tasks, gone, t, n);
    }
    assert Acyclic(RemoveTasks(tasks, gone));
    var after := RemoveTasks(tasks, gone);
    forall t | t in after && after[t].place.parent.Some?
      ensures after[t].place.parent.value in after && Fits(after[t], after[after[t].place.parent.value])
    {
      var p := tasks[t].place.parent.value;
      assert Fits(tasks[t], tasks[p]);
      assert after[p].content == tasks[p].content && after[p].place.project == tasks[p].place.project;
    }
  }
}
