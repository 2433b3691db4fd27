/** One pass over a link, undisturbed or cut off by a crash and run again
    (apps/api/src/google_tasks_sync.rs:330-434). A pass computes one value for both copies, the
    automatic merge or what the owner chose, sends it to Google if Google does not have it, updates
    the task if that does not have it, and records it as the new baseline. Google and the store may
    each refuse the value. */
module TasksPass {
  import opened Prelude
  import opened SharedFields
  import opened TasksClient
  import opened TasksProtocol
  import opened TasksSafety
  import opened TasksTheorems

  /** What one batch does for link `l`, whose remote task is `id`. */
  function Pass(l: LinkId, id: RemoteId): seq<Step> {
    [ Scan(Begin), Scan(See(id, false)), Scan(Load),
      OnLink(Visit(l)), OnLink(FindTask), OnLink(Compare(false, 0)),
      OnLink(Patch(true, true)), OnLink(WriteLocal), OnLink(Record), Scan(Finish) ]
  }

  // ---- what a pass finds ----

  /** Both copies of link `l` are there to be compared. */
  ghost predicate Comparable(w: World, l: LinkId, id: RemoteId) {
    && Inv(w)
    && l in w.db.links
    && w.db.links[l].phase.Linked? && w.db.links[l].external == Some(id)
    && w.db.links[l].task in w.db.tasks && !Held(w, w.db.links[l].task)
    && id in w.db.remote && Look(w.db.remote[id], false).Usable()
  }

  ghost function TaskOf(w: World, l: LinkId): Local
    requires l in w.db.links && w.db.links[l].task in w.db.tasks
  {
    w.db.tasks[w.db.links[l].task]
  }

  /** The two copies can be merged, and the merge is `m`. */
  ghost predicate Mergeable(w: World, l: LinkId, id: RemoteId, m: TaskFields) {
    && Comparable(w, l, id)
    && Reconcile(w.db.links[l].baseline, TaskOf(w, l).fields, w.db.remote[id].fields.value) == Ok(m)
  }

  /** The copies diverge, and the owner chose between exactly these; `m` is what that asks for. */
  ghost predicate Chosen(w: World, l: LinkId, id: RemoteId, choice: Choice, m: TaskFields) {
    && Comparable(w, l, id)
    && var row, task, remote := w.db.links[l], TaskOf(w, l), w.db.remote[id];
       && Reconcile(row.baseline, task.fields, remote.fields.value).Err?
       && row.choice == Some(choice) && Authorised(row, task.version, task.fields, Look(remote, false))
       && m == Resolve(row.baseline, task.fields, remote.fields.value, choice)
  }

  /** The copies diverge, and nobody has answered. */
  ghost predicate Unanswered(w: World, l: LinkId, id: RemoteId) {
    && Comparable(w, l, id)
    && var row, task, remote := w.db.links[l], TaskOf(w, l), w.db.remote[id];
       && Reconcile(row.baseline, task.fields, remote.fields.value).Err?
       && !DisputeCurrent(row, task.version, task.fields, Look(remote, false))
  }

  /** The pass computes `m`. */
  ghost predicate Computes(w: World, l: LinkId, id: RemoteId, m: TaskFields) {
    Mergeable(w, l, id, m) || exists choice :: Chosen(w, l, id, choice, m)
  }

  /** Google has `m`, or takes it as it is. */
  ghost predicate GoogleTakes(w: World, id: RemoteId, m: TaskFields)
    requires id in w.db.remote
  {
    w.db.remote[id].fields == Some(m) || (Sendable(m) && Echo(m, w.db.remote[id].fields) == m)
  }

  /** The task has `m`, or the store accepts it. */
  ghost predicate StoreTakes(w: World, l: LinkId, m: TaskFields)
    requires l in w.db.links && w.db.links[l].task in w.db.tasks
  {
    TaskOf(w, l).fields == m || Accepts(TaskOf(w, l), m)
  }

  /** Task, remote task and baseline are all `m`. */
  ghost predicate Settled(w: World, l: LinkId, id: RemoteId, m: TaskFields) {
    && Comparable(w, l, id)
    && TaskOf(w, l).fields == m && w.db.remote[id].fields == Some(m) && w.db.links[l].baseline == m
  }

  /** The link asks about exactly the present copies, and has no answer. */
  ghost predicate Asks(w: World, l: LinkId, id: RemoteId) {
    && l in w.db.links && id in w.db.remote && w.db.links[l].task in w.db.tasks
    && var row, task, remote := w.db.links[l], TaskOf(w, l), w.db.remote[id];
       row.choice.None? && DisputeCurrent(row, task.version, task.fields, Look(remote, false))
  }

  // ---- the pass, statement by statement ----

  /** An undisturbed pass after its first `n` statements. */
  function After(w: World, n: nat, l: LinkId, id: RemoteId): World
    requires n <= |Pass(l, id)|
  {
    Run(w, Pass(l, id)[..n])
  }

  lemma {:induction false} RunOneMore(w: World, steps: seq<Step>, n: nat)
    requires n < |steps|
    ensures Run(w, steps[..n + 1]) == Next(Run(w, steps[..n]), steps[n])
    decreases n
  {
    assert steps[..n + 1][0] == steps[0] && steps[..n + 1][1..] == steps[1..][..n];
    if n > 0 {
      assert steps[..n][0] == steps[0] && steps[..n][1..] == steps[1..][..n - 1];
      RunOneMore(Next(w, steps[0]), steps[1..], n - 1);
    }
  }

  lemma AfterOneMore(w: World, n: nat, l: LinkId, id: RemoteId)
    requires n < |Pass(l, id)|
    ensures After(w, n + 1, l, id) == Next(After(w, n, l, id), Pass(l, id)[n])
  {
    RunOneMore(w, Pass(l, id), n);
  }

  lemma WholePass(w: World, l: LinkId, id: RemoteId)
    ensures After(w, 10, l, id) == Run(w, Pass(l, id))
  {
    assert Pass(l, id)[..10] == Pass(l, id);
  }

  /** Nothing but the worker has changed. */
  ghost predicate OnlyWorker(w: World, after: World) {
    after.db == w.db && after.hist == w.hist && after.next == w.next
  }

  /** Where the worker stands until it compares. */
  ghost predicate Stands(w: World, n: nat, l: LinkId, id: RemoteId)
    requires Comparable(w, l, id)
  {
    var task, remote := TaskOf(w, l), w.db.remote[id];
    var listed := w.worker.Busy? && id in w.worker.ctx.snapshot && w.worker.ctx.snapshot[id] == Look(remote, false);
    if n == 0 then w.worker.Idle?
    else if n == 1 then w.worker.Busy? && w.worker.at == Listing
    else if n == 2 then listed && w.worker.at == Listing
    else if n == 3 then listed && w.worker.at == Ready
    else if n == 4 then listed && w.worker.at == On(l, Unheld)
    else listed && w.worker.at == On(l, Found(task.version, task.fields))
  }

  lemma Opens(w: World, n: nat, l: LinkId, id: RemoteId)
    requires Comparable(w, l, id) && n < 5 && Stands(w, n, l, id)
    ensures var w' := Next(w, Pass(l, id)[n]); OnlyWorker(w, w') && Comparable(w', l, id) && Stands(w', n + 1, l, id)
  {
    InvKept(w, Pass(l, id)[n]);
  }

  /** Reading changes nothing. */
  lemma {:induction false} Opened(w: World, n: nat, l: LinkId, id: RemoteId)
    requires Comparable(w, l, id) && w.worker.Idle? && n <= 5
    ensures var w' := After(w, n, l, id); OnlyWorker(w, w') && Comparable(w', l, id) && Stands(w', n, l, id)
  {
    if n > 0 {
      Opened(w, n - 1, l, id);
      AfterOneMore(w, n - 1, l, id);
      Opens(After(w, n - 1, l, id), n - 1, l, id);
    }
  }

  ghost predicate Planned(w: World, l: LinkId, id: RemoteId, m: TaskFields)
    requires Comparable(w, l, id)
  {
    var task := TaskOf(w, l);
    w.worker.Busy? && w.worker.at == On(l, Compared(Plan(task.version, task.fields, id, Look(w.db.remote[id], false), m)))
  }

  lemma Compares(w: World, l: LinkId, id: RemoteId, m: TaskFields)
    requires Computes(w, l, id, m) && Stands(w, 5, l, id)
    ensures var w' := Next(w, OnLink(Compare(false, 0))); OnlyWorker(w, w') && Comparable(w', l, id) && Planned(w', l, id, m)
  {
    InvKept(w, OnLink(Compare(false, 0)));
  }

  lemma SameRows(w: World, w': World, l: LinkId, id: RemoteId, m: TaskFields)
    requires Computes(w, l, id, m) && w'.db == w.db && Inv(w')
    ensures Computes(w', l, id, m)
    ensures forall choice :: Chosen(w, l, id, choice, m) ==> Chosen(w', l, id, choice, m)
    ensures Mergeable(w, l, id, m) ==> Mergeable(w', l, id, m)
  {
    if !Mergeable(w, l, id, m) {
      var choice :| Chosen(w, l, id, choice, m);
      assert Chosen(w', l, id, choice, m);
    }
  }

  lemma Computed(w: World, l: LinkId, id: RemoteId, m: TaskFields)
    requires Computes(w, l, id, m) && w.worker.Idle?
    ensures var w' := After(w, 6, l, id); OnlyWorker(w, w') && Comparable(w', l, id) && Planned(w', l, id, m)
  {
    Opened(w, 5, l, id);
    AfterOneMore(w, 5, l, id);
    SameRows(w, After(w, 5, l, id), l, id, m);
    Compares(After(w, 5, l, id), l, id, m);
  }

  /** Google has the value and said so; the task is still to be written. */
  ghost predicate Half(w: World, l: LinkId, id: RemoteId, m: TaskFields) {
    && Comparable(w, l, id)
    && w.db.remote[id].fields == Some(m)
    && w.worker.Busy? && w.worker.at.On? && w.worker.at.link == l && w.worker.at.act.Patched?
    && var task, plan := TaskOf(w, l), w.worker.at.act.plan;
       && w.worker.at.act.etag == Some(w.db.remote[id].etag)
       && plan.version == task.version && plan.local == task.fields && plan.id == id && plan.merged == m
  }

  /** The worker has given up on this link. */
  predicate GaveUp(w: World) {
    w.worker.Busy? && w.worker.at == Ready
  }

  /** What the PATCH leaves: Google's own version of the value under a new ETag, unless Google has
      the value already or it is not fit to be sent. */
  ghost predicate PatchedFrom(w: World, after: World, id: RemoteId, m: TaskFields)
    requires id in w.db.remote
  {
    && after.db.links == w.db.links && after.db.tasks == w.db.tasks && after.db.receipts == w.db.receipts && after.db.now == w.db.now
    && if w.db.remote[id].fields == Some(m) || !Sendable(m) then OnlyWorker(w, after)
       else
         && id in after.db.remote && after.db.remote[id].fields == Some(Echo(m, w.db.remote[id].fields))
         && after.db.remote[id].etag == w.next && !after.db.remote[id].deleted && !after.db.remote[id].shared
  }

  lemma PatchesNothing(w: World, l: LinkId, id: RemoteId, m: TaskFields)
    requires Comparable(w, l, id) && Planned(w, l, id, m) && (w.db.remote[id].fields == Some(m) || !Sendable(m))
    ensures var w' := Next(w, OnLink(Patch(true, true)));
            OnlyWorker(w, w') && Comparable(w', l, id) && if GoogleTakes(w, id, m) then Half(w', l, id, m) else GaveUp(w')
  {
    InvKept(w, OnLink(Patch(true, true)));
  }

  lemma PatchesEcho(w: World, l: LinkId, id: RemoteId, m: TaskFields)
    requires Comparable(w, l, id) && Planned(w, l, id, m) && w.db.remote[id].fields != Some(m) && Sendable(m)
    ensures var w' := Next(w, OnLink(Patch(true, true)));
            PatchedFrom(w, w', id, m) && Comparable(w', l, id) && if GoogleTakes(w, id, m) then Half(w', l, id, m) else GaveUp(w')
  {
    InvKept(w, OnLink(Patch(true, true)));
  }

  lemma Patches(w: World, l: LinkId, id: RemoteId, m: TaskFields)
    requires Comparable(w, l, id) && Planned(w, l, id, m)
    ensures var w' := Next(w, OnLink(Patch(true, true)));
            PatchedFrom(w, w', id, m) && Comparable(w', l, id) && if GoogleTakes(w, id, m) then Half(w', l, id, m) else GaveUp(w')
  {
    if w.db.remote[id].fields == Some(m) || !Sendable(m) {
      PatchesNothing(w, l, id, m);
    } else {
      PatchesEcho(w, l, id, m);
    }
  }

  lemma PatchDone(w: World, l: LinkId, id: RemoteId, m: TaskFields)
    requires Computes(w, l, id, m) && w.worker.Idle?
    ensures var w' := After(w, 7, l, id);
            PatchedFrom(w, w', id, m) && Comparable(w', l, id) && if GoogleTakes(w, id, m) then Half(w', l, id, m) else GaveUp(w')
  {
    Computed(w, l, id, m);
    AfterOneMore(w, 6, l, id);
    Patches(After(w, 6, l, id), l, id, m);
  }

  // ---- a pass that both sides take ----

  /** Both copies have the value; it is still to be recorded. */
  ghost predicate Agreed(w: World, l: LinkId, id: RemoteId, m: TaskFields) {
    Comparable(w, l, id) && TaskOf(w, l).fields == m && w.db.remote[id].fields == Some(m)
  }

  lemma Writes(w: World, l: LinkId, id: RemoteId, m: TaskFields)
    requires Half(w, l, id, m) && StoreTakes(w, l, m)
    ensures var w' := Next(w, OnLink(WriteLocal));
            Agreed(w', l, id, m) && w'.worker.Busy? && w'.worker.at == On(l, Written(id, Some(w'.db.remote[id].etag), m))
  {
    InvKept(w, OnLink(WriteLocal));
  }

  lemma Records(w: World, l: LinkId, id: RemoteId, m: TaskFields)
    requires Agreed(w, l, id, m) && w.worker.Busy? && w.worker.at == On(l, Written(id, Some(w.db.remote[id].etag), m))
    ensures var w' := Next(w, OnLink(Record)); Settled(w', l, id, m) && GaveUp(w')
  {
    InvKept(w, OnLink(Record));
  }

  lemma Finishes(w: World, l: LinkId, id: RemoteId, m: TaskFields)
    requires Settled(w, l, id, m) && GaveUp(w)
    ensures Settled(Next(w, Scan(Finish)), l, id, m)
  {
    InvKept(w, Scan(Finish));
  }

  ghost predicate BothTake(w: World, l: LinkId, id: RemoteId, m: TaskFields)
    requires Comparable(w, l, id)
  {
    GoogleTakes(w, id, m) && StoreTakes(w, l, m)
  }

  lemma WriteDone(w: World, l: LinkId, id: RemoteId, m: TaskFields)
    requires Computes(w, l, id, m) && w.worker.Idle? && BothTake(w, l, id, m)
    ensures var w' := After(w, 8, l, id);
            Agreed(w', l, id, m) && w'.worker.Busy? && w'.worker.at == On(l, Written(id, Some(w'.db.remote[id].etag), m))
  {
    PatchDone(w, l, id, m);
    AfterOneMore(w, 7, l, id);
    Writes(After(w, 7, l, id), l, id, m);
  }

  /** Where the worker stands after `n` statements from the local update on. */
  ghost predicate Ends(w: World, n: nat, l: LinkId, id: RemoteId, m: TaskFields) {
    && Agreed(w, l, id, m)
    && (n == 8 ==> w.worker.Busy? && w.worker.at == On(l, Written(id, Some(w.db.remote[id].etag), m)))
    && (n > 8 ==> Settled(w, l, id, m)) && (n == 9 ==> GaveUp(w))
  }

  lemma {:induction false} RecordDone(w: World, n: nat, l: LinkId, id: RemoteId, m: TaskFields)
    requires Computes(w, l, id, m) && w.worker.Idle? && BothTake(w, l, id, m) && 8 <= n <= 10
    ensures Ends(After(w, n, l, id), n, l, id, m)
  {
    if n == 8 {
      WriteDone(w, l, id, m);
    } else {
      RecordDone(w, n - 1, l, id, m);
      EndsNext(w, n - 1, l, id, m);
    }
  }

  lemma EndsNext(w: World, n: nat, l: LinkId, id: RemoteId, m: TaskFields)
    requires 8 <= n < 10 && Ends(After(w, n, l, id), n, l, id, m)
    ensures Ends(After(w, n + 1, l, id), n + 1, l, id, m)
  {
    AfterOneMore(w, n, l, id);
    EndsFurther(After(w, n, l, id), n, l, id, m);
  }

  lemma EndsFurther(w: World, n: nat, l: LinkId, id: RemoteId, m: TaskFields)
    requires 8 <= n < 10 && Ends(w, n, l, id, m)
    ensures Ends(Next(w, Pass(l, id)[n]), n + 1, l, id, m)
  {
    if n == 8 {
      Records(w, l, id, m);
    } else {
      Finishes(w, l, id, m);
    }
  }

  lemma PassSettles(w: World, l: LinkId, id: RemoteId, m: TaskFields)
    requires Computes(w, l, id, m) && w.worker.Idle? && BothTake(w, l, id, m)
    ensures Settled(Run(w, Pass(l, id)), l, id, m)
  {
    RecordDone(w, 10, l, id, m);
    WholePass(w, l, id);
  }

  // ---- a pass that one side refuses ----

  /** The task and the link are as they were, and Google has its old value or its own version of the
      new one. */
  ghost predicate Unsettled(w: World, after: World, l: LinkId, id: RemoteId, m: TaskFields)
    requires id in w.db.remote
  {
    && after.db.tasks == w.db.tasks && l in w.db.links && l in after.db.links
    && after.db.links[l].task == w.db.links[l].task && after.db.links[l].baseline == w.db.links[l].baseline
    && after.db.links[l].phase == w.db.links[l].phase && after.db.links[l].external == w.db.links[l].external
    && id in after.db.remote
    && (after.db.remote[id].fields == w.db.remote[id].fields || after.db.remote[id].fields == Some(Echo(m, w.db.remote[id].fields)))
  }

  lemma NotSettled(w: World, after: World, l: LinkId, id: RemoteId, m: TaskFields)
    requires Comparable(w, l, id) && !BothTake(w, l, id, m) && Unsettled(w, after, l, id, m)
    requires Sendable(m) || after.db.remote[id].fields == w.db.remote[id].fields
    ensures !Settled(after, l, id, m)
  {
  }

  lemma RefusedWrite(w: World, l: LinkId, id: RemoteId, m: TaskFields)
    requires Half(w, l, id, m) && !StoreTakes(w, l, m)
    ensures var w' := Next(w, OnLink(WriteLocal)); OnlyWorker(w, w') && GaveUp(w')
  {
  }

  lemma NothingToDo(w: World)
    requires GaveUp(w)
    ensures Next(w, OnLink(WriteLocal)) == w && Next(w, OnLink(Record)) == w
    ensures OnlyWorker(w, Next(w, Scan(Finish))) && Next(w, Scan(Finish)).worker.Idle?
  {
  }

  /** From the PATCH on nothing happens any more. */
  lemma {:induction false} RefusedPass(w: World, n: nat, l: LinkId, id: RemoteId, m: TaskFields)
    requires Computes(w, l, id, m) && w.worker.Idle? && !BothTake(w, l, id, m) && 8 <= n <= 10
    ensures OnlyWorker(After(w, 7, l, id), After(w, n, l, id)) && (n < 10 ==> GaveUp(After(w, n, l, id)))
    ensures n == 10 ==> After(w, n, l, id).worker.Idle?
  {
    AfterOneMore(w, n - 1, l, id);
    if n == 8 {
      PatchDone(w, l, id, m);
      if GoogleTakes(w, id, m) {
        RefusedWrite(After(w, 7, l, id), l, id, m);
      } else {
        NothingToDo(After(w, 7, l, id));
      }
    } else {
      RefusedPass(w, n - 1, l, id, m);
      NothingToDo(After(w, n - 1, l, id));
    }
  }

  // ---- a divergence that nobody has answered ----

  ghost predicate Asked(w: World, after: World, l: LinkId, id: RemoteId) {
    && after.db.tasks == w.db.tasks && after.db.remote == w.db.remote && after.db.receipts == w.db.receipts && Asks(after, l, id)
    && l in w.db.links && after.db.links[l].task == w.db.links[l].task && after.db.links[l].baseline == w.db.links[l].baseline
    && after.db.links[l].phase == w.db.links[l].phase && after.db.links[l].external == w.db.links[l].external
  }

  lemma DivergenceCompares(w: World, l: LinkId, id: RemoteId)
    requires Unanswered(w, l, id) && Stands(w, 5, l, id)
    ensures var w' := Next(w, OnLink(Compare(false, 0))); Asked(w, w', l, id) && GaveUp(w')
  {
  }

  lemma PatchNothing(w: World)
    requires GaveUp(w)
    ensures Next(w, OnLink(Patch(true, true))) == w
  {
  }

  lemma {:induction false} DivergencePasses(w: World, n: nat, l: LinkId, id: RemoteId)
    requires Unanswered(w, l, id) && w.worker.Idle? && 6 <= n <= 10
    ensures Asked(w, After(w, n, l, id), l, id) && (if n < 10 then GaveUp(After(w, n, l, id)) else After(w, n, l, id).worker.Idle?)
  {
    AfterOneMore(w, n - 1, l, id);
    if n == 6 {
      Opened(w, 5, l, id);
      DivergenceCompares(After(w, 5, l, id), l, id);
    } else {
      DivergencePasses(w, n - 1, l, id);
      NothingToDo(After(w, n - 1, l, id));
      PatchNothing(After(w, n - 1, l, id));
    }
  }

  /** The pass asks the owner, and writes to neither copy. */
  lemma DivergenceIsAsked(w: World, l: LinkId, id: RemoteId)
    requires Unanswered(w, l, id) && w.worker.Idle?
    ensures Asked(w, Run(w, Pass(l, id)), l, id) && Run(w, Pass(l, id)).worker.Idle?
  {
    DivergencePasses(w, 10, l, id);
    WholePass(w, l, id);
  }
}
