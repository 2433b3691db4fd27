/** What every run of the batched scan keeps, and what a scan that reports complete has done. */
module ScanSafety {
  import opened Prelude
  import opened TasksScan

  // ---- the invariant ----

  /** Ids below the next one; the cursor is an id too. */
  ghost predicate Below(t: Tables) {
    && (forall k :: k in t.tasks ==> k < t.next)
    && (forall l :: l in t.links ==> l < t.next)
  }

  ghost predicate AllOk<K(!new)>(outcomes: map<K, bool>) {
    forall k :: k in outcomes ==> outcomes[k]
  }

  /** Every live link up to the cursor has been visited. */
  ghost predicate VisitedUpTo(links: Links, cursor: Option<LinkId>, visited: map<LinkId, bool>) {
    forall l :: l in links && links[l].live && !Beyond(l, cursor) ==> l in visited
  }

  ghost predicate CursorBelow(cursor: Option<LinkId>, next: int) {
    cursor.Some? ==> cursor.value < next
  }

  /** A log says what a checkpoint or batch with these cursors and errors has done. */
  ghost predicate LogFits(t: Tables, at: Cursors, errors: bool, log: Log) {
    && log.revision <= t.connection.change
    && CursorBelow(at.link, t.next)
    && VisitedUpTo(t.links, at.link, log.visited)
    && (errors <==> !AllOk(log.visited) || !AllOk(log.handled))
    && (forall l :: l in log.visited ==> !Beyond(l, at.link))
    && (forall id :: id in log.handled ==> !Beyond(id, at.imports))
    && log.start <= t.links.Keys
  }

  ghost predicate CheckpointFits(t: Tables, log: Log) {
    && (!t.connection.enabled ==> t.connection.checkpoint.None?)
    && (t.connection.checkpoint.Some? ==>
          var c := t.connection.checkpoint.value;
          c.revision == log.revision && LogFits(t, c.at, c.errors, log))
  }

  ghost predicate BatchFits(t: Tables, b: Batch) {
    LogFits(t, b.at, b.errors, b.log) && t.connection.enabled
  }

  /** Nothing changed since the scan began. */
  predicate Still(t: Tables, b: Batch) {
    t.connection.change == b.log.revision
  }

  ghost predicate AllLinked(t: Tables) {
    forall k :: k in t.tasks ==> Linked(t.links, k)
  }

  ghost predicate ActFits(t: Tables, act: Act) {
    match act
    case Started => true
    case Opened(b, _) => BatchFits(t, b) && b.at == b.from && !b.more
    case Preparing(b, _, tasks) =>
      && BatchFits(t, b) && b.at == b.from
      && (Still(t, b) && !b.more ==> forall k :: k in t.tasks ==> Linked(t.links, k) || k in tasks)
    case Visiting(b, _, _, links) =>
      && BatchFits(t, b) && b.at.imports == b.from.imports && links <= t.links.Keys && (forall l :: l in links ==> Beyond(l, b.at.link))
      && (Still(t, b) && !b.more ==> AllLinked(t))
      && (!b.more ==> forall l :: l in t.links && t.links[l].live && Beyond(l, b.at.link) ==> l in links)
      && (forall l, k :: l in t.links && t.links[l].live && Beyond(l, b.at.link) && l !in links && k in links ==> k < l)
    case Importing(b, _, imports) =>
      && BatchFits(t, b) && (forall id :: id in imports ==> Beyond(id, b.at.imports))
      && (Still(t, b) && !b.more ==> AllLinked(t) && forall l :: l in t.links && t.links[l].live ==> l in b.log.visited)
    case Finished(_) => true
  }

  /** Some job will go on, or was at it when it stopped; a job that has finished its batch does
      not count. */
  predicate GoesOn(jobs: Jobs, worker: Worker, j: JobId) {
    && j in jobs && !jobs[j].status.Succeeded?
    && !(worker.Busy? && worker.act.Finished? && worker.job == j)
  }

  ghost predicate Continued(w: World) {
    w.t.connection.checkpoint.Some? ==> exists j :: GoesOn(w.jobs, w.worker, j)
  }

  /** A job is pending until it is claimed for the first time. */
  predicate Counted(job: Job) {
    0 <= job.attempts <= MAX_ATTEMPTS && (job.status.Pending? ==> job.attempts == 0)
  }

  ghost predicate JobsBelow(w: World) {
    && (forall j :: j in w.jobs ==> j < w.t.next && Counted(w.jobs[j]))
    && (w.worker.Busy? ==> w.worker.job in w.jobs && w.jobs[w.worker.job].status.Running?)
  }

  ghost predicate Inv(w: World) {
    && Below(w.t) && JobsBelow(w) && CheckpointFits(w.t, w.log) && Continued(w)
    && (w.worker.Busy? ==> ActFits(w.t, w.worker.act))
  }

  // ---- every step keeps it ----

  lemma QueuedHasSlot(jobs: Jobs, j: JobId)
    ensures SlotTaken(Queued(jobs, j))
  {
    if !SlotTaken(jobs) {
      assert Queued(jobs, j)[j] == Job(Pending, true, 0);
    }
  }

  lemma ContinuedByQueueing(w: World, j: JobId)
    requires Continued(w) && j !in w.jobs
    ensures Continued(w.(jobs := Queued(w.jobs, j)))
  {
    if k :| GoesOn(w.jobs, w.worker, k) {
      assert GoesOn(Queued(w.jobs, j), w.worker, k);
    }
  }

  lemma InvByChanged(w: World)
    requires Inv(w)
    ensures Inv(Changed(w))
  {
    ContinuedByQueueing(w, w.t.next);
  }

  /** A new task spoils the scan in progress; the change that comes with it says so. */
  lemma InvByAdding(w: World)
    requires Inv(w)
    ensures Inv(NextOwner(w, AddTask))
  {
    var more := w.(t := w.t.(tasks := w.t.tasks + {w.t.next}, next := w.t.next + 1));
    if w.t.connection.enabled {
      ContinuedByQueueing(w, more.t.next);
      var after := Changed(more);
      assert after.t.connection.change == w.t.connection.change + 1;
      if w.worker.Busy? {
        assert ActFits(w.t, w.worker.act);
        assert ActFits(after.t, w.worker.act);
      }
    }
  }

  lemma InvByReturning(w: World, task: TaskId)
    requires Inv(w)
    ensures Inv(NextOwner(w, ReturnTask(task)))
  {
    if w.worker.Idle? && task < w.t.next {
      InvByChanged(w.(t := w.t.(tasks := w.t.tasks + {task})));
    }
  }

  lemma InvByRemoving(w: World, task: TaskId)
    requires Inv(w)
    ensures Inv(w.(t := w.t.(tasks := w.t.tasks - {task})))
  {
  }

  lemma InvByLinkFlags(w: World, l: LinkId, row: Link)
    requires Inv(w) && l in w.t.links && row.task == w.t.links[l].task && (row.live ==> w.t.links[l].live)
    ensures Inv(w.(t := w.t.(links := w.t.links[l := row])))
  {
    var after := w.t.links[l := row];
    assert forall k :: Linked(w.t.links, k) ==> Linked(after, k) by {
      forall k | Linked(w.t.links, k)
        ensures Linked(after, k)
      {
        var i :| i in w.t.links && w.t.links[i].task == k;
        assert after[i].task == k;
      }
    }
  }

  lemma InvByChoosing(w: World)
    requires Inv(w)
    ensures Inv(NextOwner(w, Choose))
  {
    if w.worker.Idle? && w.t.connection.enabled {
      if j :| GoesOn(w.jobs, w.worker, j) {
        assert GoesOn(NextOwner(w, Choose).jobs, w.worker, j);
      }
    }
  }

  lemma InvByAsking(w: World)
    requires Inv(w)
    ensures Inv(NextOwner(w, Ask))
  {
    if w.t.connection.enabled {
      if j :| GoesOn(w.jobs, w.worker, j) {
        assert GoesOn(NextOwner(w, Ask).jobs, w.worker, j);
      }
    }
  }

  lemma InvByOwner(w: World, step: OwnerStep)
    requires Inv(w)
    ensures Inv(NextOwner(w, step))
  {
    match step
    case AddTask => InvByAdding(w);
    case ReturnTask(task) => InvByReturning(w, task);
    case TouchTask(task) => InvByChanged(w);
    case RemoveTask(task) =>
      InvByRemoving(w, task);
      InvByChanged(w.(t := w.t.(tasks := w.t.tasks - {task})));
    case LeaveUnlinked(l) => if l in w.t.links { InvByLinkFlags(w, l, w.t.links[l].(live := false)); }
    case Choose => InvByChoosing(w);
    case Ask => InvByAsking(w);
    case Configure(enabled) =>
    case Differ(l, behind) => if l in w.t.links { InvByLinkFlags(w, l, w.t.links[l].(behind := behind)); }
  }

  lemma InvByClaim(w: World, j: JobId)
    requires Inv(w)
    ensures Inv(StepClaim(w, j)) && Inv(StepLock(w, j))
  {
    if k :| GoesOn(w.jobs, w.worker, k) {
      assert GoesOn(StepClaim(w, j).jobs, w.worker, k);
      assert GoesOn(w.jobs, StepLock(w, j).worker, k);
    }
  }

  /** The worker moves on to another statement of the same batch. */
  lemma InvByMoving(w: World, act: Act)
    requires Inv(w) && w.worker.Busy? && !w.worker.act.Finished? && !act.Finished? && ActFits(w.t, act)
    ensures Inv(At(w, act))
  {
    if k :| GoesOn(w.jobs, w.worker, k) {
      assert GoesOn(w.jobs, At(w, act).worker, k);
    }
  }

  lemma InvByRead(w: World, remote: Remotes)
    requires Inv(w)
    ensures Inv(StepRead(w, remote))
  {
    var after := StepRead(w, remote);
    if w.worker.Busy? && w.worker.act.Started? && w.t.connection.enabled {
      InvByMoving(w, after.worker.act);
    }
  }

  lemma InvByListTasks(w: World, listed: set<TaskId>)
    requires Inv(w)
    ensures Inv(StepListTasks(w, listed))
  {
    if w.worker.Busy? && w.worker.act.Opened? && FirstOf(listed, Unlinked(w.t)) {
      var b := w.worker.act.batch.(more := listed != Unlinked(w.t));
      assert forall k :: k in w.t.tasks ==> Linked(w.t.links, k) || k in Unlinked(w.t);
      InvByMoving(w, Preparing(b, w.worker.act.remote, listed));
    }
  }

  lemma LinkedGrows(links: Links, l: LinkId, row: Link, k: TaskId)
    requires l !in links && (Linked(links, k) || row.task == k)
    ensures Linked(links[l := row], k)
  {
    var after := links[l := row];
    if Linked(links, k) {
      var i :| i in links && links[i].task == k;
      assert after[i].task == k;
    } else {
      assert after[l].task == k;
    }
  }

  lemma InvByPrepare(w: World, task: TaskId)
    requires Inv(w)
    ensures Inv(StepPrepare(w, task))
  {
    if w.worker.Busy? && w.worker.act.Preparing? && task in w.worker.act.tasks {
      var row := Link(task, true, None, true, false);
      var rest := Preparing(w.worker.act.batch, w.worker.act.remote, w.worker.act.tasks - {task});
      var grown := w.(t := w.t.(links := w.t.links[w.t.next := row], next := w.t.next + 1));
      forall k | Linked(w.t.links, k) || k == task
        ensures Linked(grown.t.links, k)
      {
        LinkedGrows(w.t.links, w.t.next, row, k);
      }
      assert Inv(grown);
      InvByMoving(grown, rest);
    }
  }

  lemma InvByListLinks(w: World, listed: set<LinkId>)
    requires Inv(w)
    ensures Inv(StepListLinks(w, listed))
  {
    if w.worker.Busy? && w.worker.act.Preparing? && w.worker.act.tasks == {} {
      var b := w.worker.act.batch;
      var all := LiveBeyond(w.t.links, b.from.link);
      if FirstOf(listed, all) {
        InvByMoving(w, Visiting(b.(more := b.more || listed != all), w.worker.act.remote,
                                Known(Externals(w.t.links), References(w.t.links)), listed));
      }
    }
  }

  lemma OneMoreOutcome<K(!new)>(outcomes: map<K, bool>, k: K, ok: bool)
    requires k !in outcomes
    ensures AllOk(outcomes[k := ok]) <==> AllOk(outcomes) && ok
  {
    var after := outcomes[k := ok];
    assert after[k] == ok;
    forall j | j in outcomes
      ensures j in after && after[j] == outcomes[j]
    {
    }
  }

  lemma VisitMoves(t: Tables, b: Batch, remote: Remotes, known: Known, links: set<LinkId>, l: LinkId, ok: bool, more: Known)
    requires ActFits(t, Visiting(b, remote, known, links)) && Least(l, links) && Below(t)
    ensures ActFits(t, Visiting(b.(at := b.at.(link := Some(l)), errors := b.errors || !ok,
                                   log := b.log.(visited := b.log.visited[l := ok])), remote, more, links - {l}))
  {
    OneMoreOutcome(b.log.visited, l, ok);
  }

  /** The visit itself, before the changes to tasks that it may bring. */
  function VisitedOnly(w: World, l: LinkId, o: Visited): World
    requires w.worker.Busy? && w.worker.act.Visiting? && l in w.t.links
  {
    var Visiting(b, remote, known, links) := w.worker.act;
    var batch := b.(at := b.at.(link := Some(l)), errors := b.errors || !o.ok, log := b.log.(visited := b.log.visited[l := o.ok]));
    var found := if o.ok && o.external.Some? then {o.external.value} else {};
    At(w.(t := w.t.(links := w.t.links[l := VisitedRow(w.t.links[l], o)])),
       Visiting(batch, remote, known.(externals := known.externals + found), links - {l}))
  }

  lemma InvByVisitedOnly(w: World, l: LinkId, o: Visited)
    requires Inv(w) && w.worker.Busy? && w.worker.act.Visiting? && Least(l, w.worker.act.links)
    ensures l in w.t.links && Inv(VisitedOnly(w, l, o))
  {
    var Visiting(b, remote, known, links) := w.worker.act;
    var found := if o.ok && o.external.Some? then {o.external.value} else {};
    var more := known.(externals := known.externals + found);
    VisitMoves(w.t, b, remote, known, links, l, o.ok, more);
    InvByMoving(w, VisitedOnly(w, l, o).worker.act);
    InvByLinkFlags(At(w, VisitedOnly(w, l, o).worker.act), l, VisitedRow(w.t.links[l], o));
  }

  lemma InvByVisit(w: World, l: LinkId, o: Visited)
    requires Inv(w)
    ensures Inv(StepVisit(w, l, o))
  {
    if w.worker.Busy? && w.worker.act.Visiting? && Least(l, w.worker.act.links) {
      InvByVisitedOnly(w, l, o);
      var row := VisitedOnly(w, l, o);
      InvByChanged(row);
      InvByAdding(row);
      InvByAdding(Changed(row));
    }
  }

  lemma InvByListImports(w: World, listed: set<RemoteId>)
    requires Inv(w)
    ensures Inv(StepListImports(w, listed))
  {
    if w.worker.Busy? && w.worker.act.Visiting? && w.worker.act.links == {} {
      var Visiting(b, remote, known, _) := w.worker.act;
      var all := Candidates(remote, known, b.from.imports);
      if FirstOf(listed, all) {
        InvByMoving(w, Importing(b.(more := b.more || listed != all), remote, listed));
      }
    }
  }

  lemma InvByHandled(w: World, id: RemoteId)
    requires Inv(w) && w.worker.Busy? && w.worker.act.Importing? && Least(id, w.worker.act.imports) && id in w.worker.act.remote
    ensures var Importing(b, remote, imports) := w.worker.act;
            var usable := remote[id].usable;
            var batch := b.(at := b.at.(imports := Some(id)), errors := b.errors || !usable,
                            log := b.log.(handled := b.log.handled[id := usable]));
            Inv(At(w, Importing(batch, remote, imports - {id})))
  {
    var Importing(b, remote, imports) := w.worker.act;
    var usable := remote[id].usable;
    var batch := b.(at := b.at.(imports := Some(id)), errors := b.errors || !usable,
                    log := b.log.(handled := b.log.handled[id := usable]));
    OneMoreOutcome(b.log.handled, id, usable);
    InvByMoving(w, Importing(batch, remote, imports - {id}));
  }

  /** An imported task changes the revision, so its scan will not report complete. */
  lemma InvByImported(w: World, id: RemoteId)
    requires Inv(w) && w.worker.Busy? && w.worker.act.Importing?
    ensures var t := w.t;
            Inv(Changed(w.(t := t.(tasks := t.tasks + {t.next}, links := t.links[t.next + 1 := Link(t.next, true, Some(id), false, false)],
                                   next := t.next + 2))))
  {
    var row := Link(w.t.next, true, Some(id), false, false);
    var grown := w.(t := w.t.(tasks := w.t.tasks + {w.t.next}, links := w.t.links[w.t.next + 1 := row], next := w.t.next + 2));
    var after := Changed(grown);
    assert w.t.connection.enabled;
    ContinuedByQueueing(w, grown.t.next);
    assert Below(after.t) && JobsBelow(after) && Continued(after);
    assert CheckpointFits(after.t, after.log);
    assert ActFits(after.t, after.worker.act);
  }

  lemma InvByImport(w: World, id: RemoteId)
    requires Inv(w)
    ensures Inv(StepImport(w, id))
  {
    if w.worker.Busy? && w.worker.act.Importing? && Least(id, w.worker.act.imports) && id in w.worker.act.remote {
      InvByHandled(w, id);
      var Importing(b, remote, imports) := w.worker.act;
      var usable := remote[id].usable;
      var batch := b.(at := b.at.(imports := Some(id)), errors := b.errors || !usable,
                      log := b.log.(handled := b.log.handled[id := usable]));
      InvByImported(At(w, Importing(batch, remote, imports - {id})), id);
    }
  }

  lemma InvByFinish(w: World)
    requires Inv(w)
    ensures Inv(StepFinish(w))
  {
    if w.worker.Busy? && w.worker.act.Importing? && w.worker.act.imports == {} {
      var after := StepFinish(w);
      QueuedHasSlot(w.jobs, w.t.next);
      if after.t.connection.checkpoint.Some? {
        var j :| j in after.jobs && after.jobs[j].status.Pending? && after.jobs[j].slot;
        assert GoesOn(after.jobs, after.worker, j);
      }
    }
  }

  lemma InvByReport(w: World)
    requires Inv(w)
    ensures Inv(StepReport(w)) && Inv(StepFail(w)) && Inv(NextWork(w, Crash))
  {
    if k :| GoesOn(w.jobs, w.worker, k) {
      assert GoesOn(StepReport(w).jobs, StepReport(w).worker, k);
      assert GoesOn(StepFail(w).jobs, StepFail(w).worker, k);
      assert GoesOn(w.jobs, Idle, k);
    }
  }

  lemma InvByWork(w: World, step: WorkerStep)
    requires Inv(w)
    ensures Inv(NextWork(w, step))
  {
    match step
    case Claim(j) => InvByClaim(w, j);
    case Lock(j) => InvByClaim(w, j);
    case Read(remote) => InvByRead(w, remote);
    case ListTasks(listed) => InvByListTasks(w, listed);
    case Prepare(task) => InvByPrepare(w, task);
    case ListLinks(listed) => InvByListLinks(w, listed);
    case Visit(l, o) => InvByVisit(w, l, o);
    case ListImports(listed) => InvByListImports(w, listed);
    case Import(id) => InvByImport(w, id);
    case Finish => InvByFinish(w);
    case Report => InvByReport(w);
    case Fail => InvByReport(w);
    case Crash => InvByReport(w);
  }

  lemma InvKept(w: World, step: Step)
    requires Inv(w)
    ensures Inv(Next(w, step))
  {
    match step
    case Owner(o) => InvByOwner(w, o);
    case Works(s) => InvByWork(w, s);
  }

  lemma {:induction false} InvOfRun(w: World, steps: seq<Step>)
    requires Inv(w)
    ensures Inv(Run(w, steps))
    decreases |steps|
  {
    if steps != [] {
      InvKept(w, steps[0]);
      InvOfRun(Next(w, steps[0]), steps[1..]);
    }
  }

  lemma InvOfReachable(w: World)
    requires Reachable(w)
    ensures Inv(w)
  {
    var steps :| Run(Start(), steps) == w;
    InvOfRun(Start(), steps);
  }

  // ---- the theorems ----

  predicate Ends(w: World, report: Report) {
    w.worker.Busy? && w.worker.act.Importing? && w.worker.act.imports == {} && StepFinish(w).worker.act == Finished(report)
  }

  /** A scan that ends without a follow-up, successfully or not, has seen a workspace that did
      not change since it began: every task has a link, and every live link, among them those
      that were there at the start, was visited in one of its batches. */
  lemma EndedScanSawEverything(w: World, report: Report)
    requires Reachable(w) && Ends(w, report) && !report.Incomplete?
    ensures var log := w.worker.act.batch.log;
            && w.t.connection.change == log.revision
            && AllLinked(w.t)
            && log.start <= w.t.links.Keys
            && forall l :: l in w.t.links && w.t.links[l].live ==> l in log.visited
  {
    InvOfReachable(w);
  }

  /** A scan that ends reports complete exactly when no visit and no import of any of its batches
      failed; otherwise it surfaces the failure. */
  lemma CompleteScanHadNoError(w: World, report: Report)
    requires Reachable(w) && Ends(w, report) && !report.Incomplete?
    ensures var log := w.worker.act.batch.log;
            && (report.Complete? <==> AllOk(log.visited) && AllOk(log.handled))
            && (report.Unresolved? <==> !report.Complete?)
  {
    InvOfReachable(w);
  }

  /** A checkpoint is committed together with a pending continuation. */
  lemma CheckpointIsContinued(w: World)
    requires w.worker.Busy? && w.worker.act.Importing? && w.worker.act.imports == {}
    ensures StepFinish(w).t.connection.checkpoint.Some? ==> SlotTaken(StepFinish(w).jobs)
  {
    QueuedHasSlot(w.jobs, w.t.next);
  }

  /** A worker is at this job's batch. */
  predicate AtWork(w: World, j: JobId) {
    w.worker.Busy? && w.worker.job == j && !w.worker.act.Finished?
  }

  /** Claimed by a worker that waits for the lock, or that crashed. */
  predicate Abandoned(w: World, j: JobId) {
    j in w.jobs && w.jobs[j].status.Running? && !(w.worker.Busy? && w.worker.job == j)
  }

  /** Failed at its eighth attempt; nobody claims it any more. */
  predicate Exhausted(jobs: Jobs, j: JobId) {
    j in jobs && jobs[j].status.Failed? && jobs[j].attempts == MAX_ATTEMPTS
  }

  /** A checkpoint always has a job: one that can be claimed, one that a worker is at, one that
      was claimed and is waiting or crashed, or one that failed for the last time. */
  lemma CheckpointHasJob(w: World)
    requires Reachable(w) && w.t.connection.checkpoint.Some?
    ensures exists j :: j in w.jobs && (Claimable(w.jobs, j) || AtWork(w, j) || Abandoned(w, j) || Exhausted(w.jobs, j))
  {
    InvOfReachable(w);
    var j :| GoesOn(w.jobs, w.worker, j);
    assert Claimable(w.jobs, j) || AtWork(w, j) || Abandoned(w, j) || Exhausted(w.jobs, j);
  }

  // ---- the last attempt ----

  function Failures(j: JobId, n: nat): seq<Step> {
    if n == 0 then [] else [Works(Claim(j))] + ([Works(Lock(j))] + ([Works(Fail)] + Failures(j, n - 1)))
  }

  lemma OneFailure(w: World, j: JobId)
    requires w.worker.Idle? && Claimable(w.jobs, j)
    ensures var after := Next(Next(Next(w, Works(Claim(j))), Works(Lock(j))), Works(Fail));
            && after == w.(jobs := w.jobs[j := Job(Failed, w.jobs[j].slot, w.jobs[j].attempts + 1)])
  {
  }

  /** Whatever the reason, a job that fails as often as it may is exhausted, and the checkpoint
      stays where it is. */
  lemma {:induction false} FailuresExhaust(w: World, j: JobId, n: nat)
    requires w.worker.Idle? && j in w.jobs && (w.jobs[j].status.Pending? || w.jobs[j].status.Failed?)
    requires n > 0 && w.jobs[j].attempts + n == MAX_ATTEMPTS
    ensures var after := Run(w, Failures(j, n));
            && Exhausted(after.jobs, j) && after == w.(jobs := w.jobs[j := after.jobs[j]])
    decreases n
  {
    var after := w.(jobs := w.jobs[j := Job(Failed, w.jobs[j].slot, w.jobs[j].attempts + 1)]);
    OneFailure(w, j);
    var rest := Failures(j, n - 1);
    RunFirst(w, Works(Claim(j)), [Works(Lock(j))] + ([Works(Fail)] + rest));
    RunFirst(Next(w, Works(Claim(j))), Works(Lock(j)), [Works(Fail)] + rest);
    RunFirst(Next(Next(w, Works(Claim(j))), Works(Lock(j))), Works(Fail), rest);
    if n > 1 {
      FailuresExhaust(after, j, n - 1);
    }
  }

  lemma RunFirst(w: World, step: Step, rest: seq<Step>)
    ensures Run(w, [step] + rest) == Run(Next(w, step), rest)
  {
    assert ([step] + rest)[1..] == rest;
  }

  /** A continuation that is the only job left strands its checkpoint by failing eight times: no
      job can be claimed, none is running, and the cursor is still there. */
  lemma EightFailuresStrand(w: World, j: JobId)
    requires Reachable(w) && w.worker.Idle? && w.t.connection.checkpoint.Some?
    requires j in w.jobs && w.jobs[j].status.Pending? && forall k :: k in w.jobs && k != j ==> w.jobs[k].status.Succeeded?
    ensures var after := Run(w, Failures(j, MAX_ATTEMPTS));
            && after.t == w.t && after.worker.Idle?
            && forall k :: k in after.jobs ==> !Claimable(after.jobs, k) && !Abandoned(after, k)
  {
    InvOfReachable(w);
    FailuresExhaust(w, j, MAX_ATTEMPTS);
  }
}
