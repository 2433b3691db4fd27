/** One batch of the scan with its loops, and the end of scanning
    (apps/api/src/google_tasks_sync.rs:72-202). */
module ScanWorker {
  import opened Prelude
  import opened TasksScan
  import opened ScanSafety
  import opened ScanProgress

  method Smallest(s: set<int>) returns (x: int)
    requires s != {}
    ensures Least(x, s)
  {
    x := Pick(s);
    var rest := s - {x};
    while rest != {}
      invariant x in s && rest <= s
      invariant forall y :: y in s && y !in rest ==> x <= y
      decreases rest
    {
      var y := Pick(rest);
      rest := rest - {y};
      if y < x {
        x := y;
      }
    }
  }

  /** `ORDER BY id LIMIT 10` */
  method FirstTen(all: set<int>) returns (listed: set<int>)
    ensures FirstOf(listed, all)
  {
    listed := {};
    var rest := all;
    while rest != {} && |listed| < BATCH_SIZE
      invariant listed <= all && rest <= all && |listed| <= BATCH_SIZE
      invariant listed + rest == all && listed !! rest
      invariant forall a, b :: a in listed && b in rest ==> a < b
      decreases rest
    {
      var x := Smallest(rest);
      Shifted(listed, rest, x);
      listed := listed + {x};
      rest := rest - {x};
    }
    if rest == {} {
      NoneLeft(listed, rest);
    }
  }

  lemma Shifted<T>(listed: set<T>, rest: set<T>, x: T)
    requires x in rest && listed !! rest
    ensures (listed + {x}) + (rest - {x}) == listed + rest && (listed + {x}) !! (rest - {x})
  {
  }

  lemma NoneLeft<T>(listed: set<T>, rest: set<T>)
    requires rest == {}
    ensures listed + rest == listed
  {
  }

  lemma {:induction false} RunConcat(w: World, a: seq<Step>, b: seq<Step>)
    ensures Run(w, a + b) == Run(Run(w, a), b)
    decreases |a|
  {
    if a == [] {
      assert a + b == b;
    } else {
      assert (a + b)[0] == a[0] && (a + b)[1..] == a[1..] + b;
      RunConcat(Next(w, a[0]), a[1..], b);
    }
  }

  lemma RunOne(w: World, step: Step)
    ensures Run(w, [step]) == Next(w, step)
  {
    assert [step][1..] == [];
    assert Run(Next(w, step), []) == Next(w, step);
  }

  /** How far a batch has come between two of its statements, apart from the tables. */
  ghost predicate SameRound(a: Batch, b: Batch) {
    b.from == a.from && b.more == a.more && b.log.revision == a.log.revision
  }

  /** One undisturbed visit. */
  lemma VisitGoesOn(w: World, l: LinkId, o: Visited)
    requires Inv(w) && w.worker.Busy? && w.worker.act.Visiting? && Least(l, w.worker.act.links)
    ensures l in w.t.links
    ensures var Visiting(b, remote, known, links) := w.worker.act;
            var after := StepVisit(w, l, Undisturbed(o, w.t.links[l]));
            && Inv(after) && after.worker.Busy? && after.worker.job == w.worker.job && after.worker.act.Visiting?
            && after.worker.act.remote == remote && after.worker.act.links == links - {l}
            && SameRound(b, after.worker.act.batch)
            && after.worker.act.batch.at == Cursors(Some(l), b.at.imports)
            && known.externals <= after.worker.act.known.externals && after.worker.act.known.references == known.references
            && Ebb(remote, w.t, after.t)
            && SameLinks(w.t, after.t)
  {
    InvByVisit(w, l, Undisturbed(o, w.t.links[l]));
    EbbByVisit(w.worker.act.remote, w.t, l, o);
  }

  /** One undisturbed import. */
  lemma ImportGoesOn(w: World, id: RemoteId)
    requires Inv(w) && w.worker.Busy? && w.worker.act.Importing? && Least(id, w.worker.act.imports)
    requires forall x :: x in w.worker.act.imports ==> Unclaimed(w.worker.act.remote, w.t.links, x)
    ensures var Importing(b, remote, imports) := w.worker.act;
            var after := StepImport(w, id);
            && Inv(after) && after.worker.Busy? && after.worker.job == w.worker.job && after.worker.act.Importing?
            && after.worker.act.remote == remote && after.worker.act.imports == imports - {id}
            && SameRound(b, after.worker.act.batch)
            && after.worker.act.batch.at == Cursors(b.at.link, Some(id))
            && Ebb(remote, w.t, after.t)
            && (after.t.connection.change == w.t.connection.change ==> SameLinks(w.t, after.t))
            && (forall x :: x in after.worker.act.imports ==> Unclaimed(remote, after.t.links, x))
  {
    InvByImport(w, id);
    var remote := w.worker.act.remote;
    if remote[id].usable && !Taken(w.t.links, id) {
      EbbByImport(remote, w.t, id);
      assert forall l :: l in References(StepImport(w, id).t.links) <==> l in References(w.t.links);
    }
  }

  /** A listed task without the marker of one of our own creations. */
  predicate Unclaimed(remote: Remotes, links: Links, id: RemoteId) {
    id in remote && !(remote[id].marker.Some? && remote[id].marker.value in References(links))
  }

  /** From `first`, which has just listed its tasks, to `w`, some intents later. */
  ghost predicate Prepares(first: World, w: World) {
    && first.worker.Busy? && first.worker.act.Preparing? && w.worker.Busy? && w.worker.act.Preparing? && w.worker.job == first.worker.job
    && Inv(w)
    && w.worker.act.batch == first.worker.act.batch && w.worker.act.remote == first.worker.act.remote
    && (forall k :: k in first.worker.act.tasks ==> k in w.worker.act.tasks || Linked(w.t.links, k))
    && Ebb(first.worker.act.remote, first.t, w.t)
    && (first.worker.act.tasks == {} ==> w == first)
  }

  lemma PreparesGoOn(first: World, w: World, task: TaskId)
    requires Prepares(first, w) && task in w.worker.act.tasks
    ensures Prepares(first, StepPrepare(w, task))
    ensures StepPrepare(w, task).worker.act.tasks == w.worker.act.tasks - {task}
  {
    InvByPrepare(w, task);
    EbbByPrepare(first.worker.act.remote, w.t, task);
    EbbTwice(first.worker.act.remote, first.t, w.t, StepPrepare(w, task).t);
  }

  /** From `first`, which has just listed its links, to `w`, some visits later. */
  ghost predicate Visits(first: World, w: World) {
    && first.worker.Busy? && first.worker.act.Visiting? && w.worker.Busy? && w.worker.act.Visiting? && w.worker.job == first.worker.job
    && Inv(w)
    && VisitsOf(first.worker.act, w.worker.act)
    && Ebb(first.worker.act.remote, first.t, w.t) && SameLinks(first.t, w.t)
  }

  ghost predicate VisitsOf(a: Act, b: Act)
    requires a.Visiting? && b.Visiting?
  {
    && b.remote == a.remote && SameRound(a.batch, b.batch) && b.batch.at.imports == a.batch.at.imports
    && Later(a.batch.at.link, b.batch.at.link)
    && (forall l :: l in a.links ==> l in b.links || !Beyond(l, b.batch.at.link))
    && a.known.externals <= b.known.externals && b.known.references == a.known.references
  }

  lemma VisitsGoOn(first: World, w: World, l: LinkId, o: Visited)
    requires Visits(first, w) && Least(l, w.worker.act.links)
    ensures l in w.t.links && Visits(first, StepVisit(w, l, Undisturbed(o, w.t.links[l])))
    ensures StepVisit(w, l, Undisturbed(o, w.t.links[l])).worker.act.links == w.worker.act.links - {l}
  {
    VisitGoesOn(w, l, o);
    var after := StepVisit(w, l, Undisturbed(o, w.t.links[l]));
    assert ActFits(w.t, w.worker.act);
    EbbTwice(first.worker.act.remote, first.t, w.t, after.t);
    SameLinksTwice(first.t, w.t, after.t);
  }

  lemma LinksExist(first: World, w: World)
    requires Visits(first, w)
    ensures forall l :: l in w.worker.act.links ==> l in w.t.links
  {
    assert ActFits(w.t, w.worker.act);
  }

  /** From `first`, which has just listed its imports, to `w`, some imports later. */
  ghost predicate Imports(first: World, w: World) {
    && first.worker.Busy? && first.worker.act.Importing? && w.worker.Busy? && w.worker.act.Importing? && w.worker.job == first.worker.job
    && Inv(w)
    && ImportsOf(first.worker.act, w.worker.act)
    && (forall x :: x in w.worker.act.imports ==> Unclaimed(w.worker.act.remote, w.t.links, x))
    && Ebb(first.worker.act.remote, first.t, w.t)
    && (w.t.connection.change == first.t.connection.change ==> SameLinks(first.t, w.t))
  }

  ghost predicate ImportsOf(a: Act, b: Act)
    requires a.Importing? && b.Importing?
  {
    && b.remote == a.remote && SameRound(a.batch, b.batch) && b.batch.at.link == a.batch.at.link
    && Later(a.batch.at.imports, b.batch.at.imports)
    && (forall x :: x in a.imports ==> x in b.imports || !Beyond(x, b.batch.at.imports))
    && (forall x :: x in b.imports ==> Beyond(x, b.batch.at.imports))
  }

  lemma ImportsGoOn(first: World, w: World, id: RemoteId)
    requires Imports(first, w) && Least(id, w.worker.act.imports)
    ensures Imports(first, StepImport(w, id))
    ensures StepImport(w, id).worker.act.imports == w.worker.act.imports - {id}
  {
    ImportGoesOn(w, id);
    EbbTwice(first.worker.act.remote, first.t, w.t, StepImport(w, id).t);
    if StepImport(w, id).t.connection.change == first.t.connection.change {
      SameLinksTwice(first.t, w.t, StepImport(w, id).t);
    }
  }

  // ---- a whole batch ----

  /** The batch that `a` opens. */
  ghost predicate Opens(a: Tables, b: Batch) {
    && b.from == CursorsOf(a.connection) && b.at == b.from
    && b.log.revision == (if a.connection.checkpoint.Some? then a.connection.checkpoint.value.revision else a.connection.change)
  }

  ghost predicate ListedTasks(a: Tables, w: World, remote: Remotes, tasks: set<TaskId>) {
    && w.t == a && w.worker.Busy? && w.worker.act.Preparing? && w.worker.act.remote == remote && w.worker.act.tasks == tasks
    && FirstOf(tasks, Unlinked(a)) && Opens(a, w.worker.act.batch) && w.worker.act.batch.more == (tasks != Unlinked(a))
  }

  ghost predicate ListedLinks(p: World, w: World, links: set<LinkId>) {
    && p.worker.Busy? && p.worker.act.Preparing? && w.t == p.t && w.worker.Busy?
    && var b := p.worker.act.batch;
       var all := LiveBeyond(p.t.links, b.from.link);
       && FirstOf(links, all)
       && w.worker.act == Visiting(b.(more := b.more || links != all), p.worker.act.remote, KnownIn(p.t.links), links)
  }

  ghost predicate ListedImports(v: World, w: World, imports: set<RemoteId>) {
    && v.worker.Busy? && v.worker.act.Visiting? && w.t == v.t && w.worker.Busy?
    && var Visiting(b, remote, known, _) := v.worker.act;
       var all := Candidates(remote, known, b.from.imports);
       && FirstOf(imports, all)
       && w.worker.act == Importing(b.(more := b.more || imports != all), remote, imports)
  }

  lemma SomeListed(listed: set<int>, all: set<int>) returns (x: int)
    requires FirstOf(listed, all) && all != {}
    ensures x in listed
  {
    if listed == {} {
      assert false;
    }
    x := Member(listed);
  }

  lemma FewerCandidates(remote: Remotes, a: Links, known: Known, cursor: Option<RemoteId>)
    requires Externals(a) <= known.externals && known.references == References(a)
    ensures Candidates(remote, known, cursor) <= Candidates(remote, KnownIn(a), cursor)
  {
  }

  /** The statements of an undisturbed batch, one list after the other. */
  lemma BatchAdvances(a: Tables, p0: World, p1: World, v0: World, v1: World, i0: World, i1: World,
                      remote: Remotes, tasks: set<TaskId>, links: set<LinkId>, imports: set<RemoteId>)
    requires ListedTasks(a, p0, remote, tasks) && Prepares(p0, p1) && p1.worker.act.tasks == {}
    requires ListedLinks(p1, v0, links) && Visits(v0, v1) && v1.worker.act.links == {}
    requires ListedImports(v1, i0, imports) && Imports(i0, i1) && i1.worker.act.imports == {}
    ensures Advanced(remote, a, i1.t, i1.worker.act.batch)
  {
    EbbTwice(remote, a, p1.t, v1.t);
    EbbTwice(remote, a, v1.t, i1.t);
    if i1.t.connection.change == a.connection.change {
      if Unlinked(a) != {} {
        var x := SomeListed(tasks, Unlinked(a));
        assert Linked(p1.t.links, x);
        assert x !in Unlinked(i1.t);
      } else {
        assert tasks == {};
        QuietBatchAdvances(a, v0, v1, i0, i1, remote, links, imports);
      }
    }
  }

  lemma QuietBatchAdvances(a: Tables, v0: World, v1: World, i0: World, i1: World,
                           remote: Remotes, links: set<LinkId>, imports: set<RemoteId>)
    requires v0.t == a && Visits(v0, v1) && v1.worker.act.links == {} && v0.worker.act.remote == remote
    requires var b := v0.worker.act.batch;
             var all := LiveBeyond(a.links, b.from.link);
             && Opens(a, b) && b.more == (links != all) && FirstOf(links, all)
             && v0.worker.act.known == KnownIn(a.links) && v0.worker.act.links == links
    requires ListedImports(v1, i0, imports) && Imports(i0, i1) && i1.worker.act.imports == {}
    requires i1.t.connection.change == i0.t.connection.change
    ensures var b, from := i1.worker.act.batch, CursorsOf(a.connection);
            && SameLinks(a, i1.t) && Later(from.link, b.at.link) && Later(from.imports, b.at.imports)
            && (b.more ==>
                  || (exists x :: x in Candidates(remote, KnownIn(a.links), from.imports) && !Beyond(x, b.at.imports))
                  || (exists x :: x in LiveBeyond(a.links, from.link) && !Beyond(x, b.at.link)))
  {
    var from := CursorsOf(a.connection);
    var all := LiveBeyond(a.links, from.link);
    var known := v1.worker.act.known;
    SameLinksTwice(a, v1.t, i1.t);
    if links != all {
      assert links != {};
      var x := SomeListed(links, all);
      assert x in LiveBeyond(a.links, from.link) && !Beyond(x, i1.worker.act.batch.at.link);
    } else if imports != Candidates(remote, known, from.imports) {
      FewerCandidates(remote, a.links, known, from.imports);
      var x := SomeListed(imports, Candidates(remote, known, from.imports));
      assert x in Candidates(remote, KnownIn(a.links), from.imports) && !Beyond(x, i1.worker.act.batch.at.imports);
    }
  }

  /** The job is claimed and the lock is free. */
  predicate Ready(w: World, job: JobId) {
    w.worker.Idle? && w.t.connection.enabled && job in w.jobs && w.jobs[job].status.Running?
  }

  ghost predicate CanStart(w: World, job: JobId) {
    Inv(w) && Ready(w, job)
  }

  lemma ReferencesStay(p1: World, v0: World, v1: World, links: set<LinkId>)
    requires ListedLinks(p1, v0, links) && Visits(v0, v1)
    requires p1.worker.act.batch.at == p1.worker.act.batch.from
    ensures forall l :: l in References(v1.t.links) ==> l in v1.worker.act.known.references
    ensures v1.worker.act.batch.at.imports == v1.worker.act.batch.from.imports
  {
  }

  /** What the last two statements of a batch leave. */
  lemma FinishedBatch(w: World)
    requires Inv(w) && w.worker.Busy? && w.worker.act.Importing? && w.worker.act.imports == {}
    ensures var done := StepFinish(w);
            var after := StepReport(done);
            && done.worker.Busy? && done.worker.act.Finished?
            && Inv(after) && after.worker.Idle? && after.t == done.t && after.t.connection.enabled == w.t.connection.enabled
            && (done.worker.act.report.Incomplete? ==> SlotTaken(after.jobs))
            && (!done.worker.act.report.Incomplete? ==> after.t.connection.checkpoint.None?)
  {
    var done := StepFinish(w);
    InvByFinish(w);
    InvByReport(done);
    QueuedHasSlot(w.jobs, w.t.next);
    if done.worker.act.report.Incomplete? {
      var j :| j in done.jobs && done.jobs[j].status.Pending? && done.jobs[j].slot;
      assert j in StepReport(done).jobs && StepReport(done).jobs[j] == done.jobs[j];
    }
  }

  lemma CandidatesAreUnclaimed(remote: Remotes, known: Known, links: Links, cursor: Option<RemoteId>)
    requires forall l :: l in References(links) ==> l in known.references
    ensures forall x :: x in Candidates(remote, known, cursor) ==> Unclaimed(remote, links, x)
  {
    forall x | x in Candidates(remote, known, cursor)
      ensures Unclaimed(remote, links, x)
    {
      if remote[x].marker.Some? {
        var l := remote[x].marker.value;
        assert l !in known.references;
      }
    }
  }

  class TasksWorker {
    var world: World

    constructor (world: World)
      ensures this.world == world
    {
      this.world := world;
    }

    method Perform(step: WorkerStep, ghost done: seq<Step>, ghost from: World) returns (ghost steps: seq<Step>)
      requires world == Run(from, done)
      modifies this
      ensures world == NextWork(old(world), step)
      ensures steps == done + [Works(step)] && world == Run(from, steps)
    {
      steps := done + [Works(step)];
      RunConcat(from, done, [Works(step)]);
      RunOne(world, Works(step));
      world := NextWork(world, step);
    }

    method PrepareTasks(ghost done: seq<Step>, ghost from: World) returns (ghost steps: seq<Step>)
      requires Prepares(world, world) && world == Run(from, done)
      modifies this
      ensures Prepares(old(world), world) && world.worker.act.tasks == {} && world == Run(from, steps)
    {
      steps := done;
      while world.worker.act.tasks != {}
        invariant Prepares(old(world), world) && world == Run(from, steps)
        decreases world.worker.act.tasks
      {
        var task := Smallest(world.worker.act.tasks);
        PreparesGoOn(old(world), world, task);
        steps := Perform(Prepare(task), steps, from);
      }
    }

    method VisitLink(l: LinkId, o: Visited, ghost first: World, ghost done: seq<Step>, ghost from: World) returns (ghost steps: seq<Step>)
      requires Visits(first, world) && Least(l, world.worker.act.links) && l in world.t.links && world == Run(from, done)
      modifies this
      ensures Visits(first, world) && world.worker.act.links == old(world).worker.act.links - {l} && world == Run(from, steps)
    {
      ghost var after := StepVisit(world, l, Undisturbed(o, world.t.links[l]));
      VisitsGoOn(first, world, l, o);
      steps := Perform(Visit(l, Undisturbed(o, world.t.links[l])), done, from);
      assert world == after;
    }

    method VisitLinks(outcome: LinkId -> Visited, ghost done: seq<Step>, ghost from: World) returns (ghost steps: seq<Step>)
      requires Visits(world, world) && world == Run(from, done)
      modifies this
      ensures Visits(old(world), world) && world.worker.act.links == {} && world == Run(from, steps)
    {
      steps := done;
      while world.worker.act.links != {}
        invariant Visits(old(world), world) && world == Run(from, steps)
        decreases world.worker.act.links
      {
        var l := Smallest(world.worker.act.links);
        LinksExist(old(world), world);
        steps := VisitLink(l, outcome(l), old(world), steps, from);
      }
    }

    method ImportTasks(ghost done: seq<Step>, ghost from: World) returns (ghost steps: seq<Step>)
      requires Imports(world, world) && world == Run(from, done)
      modifies this
      ensures Imports(old(world), world) && world.worker.act.imports == {} && world == Run(from, steps)
    {
      steps := done;
      while world.worker.act.imports != {}
        invariant Imports(old(world), world) && world == Run(from, steps)
        decreases world.worker.act.imports
      {
        var id := Smallest(world.worker.act.imports);
        ImportsGoOn(old(world), world, id);
        steps := Perform(Import(id), steps, from);
      }
    }

    method Open(job: JobId, remote: Remotes, ghost done: seq<Step>, ghost from: World) returns (ghost steps: seq<Step>, ghost tasks: set<TaskId>)
      requires CanStart(world, job) && world == Run(from, done)
      modifies this
      ensures Inv(world) && world == Run(from, steps) && world.worker.Busy? && world.worker.job == job
      ensures world.jobs == old(world).jobs && ListedTasks(old(world).t, world, remote, tasks)
    {
      ghost var w := world;
      InvByClaim(w, job);
      InvByRead(StepLock(w, job), remote);
      steps := Perform(Lock(job), done, from);
      steps := Perform(Read(remote), steps, from);
      var listed := FirstTen(Unlinked(world.t));
      InvByListTasks(world, listed);
      steps := Perform(ListTasks(listed), steps, from);
      tasks := listed;
    }

    method ListForVisits(ghost done: seq<Step>, ghost from: World) returns (ghost steps: seq<Step>, ghost links: set<LinkId>)
      requires Inv(world) && world.worker.Busy? && world.worker.act.Preparing? && world.worker.act.tasks == {} && world == Run(from, done)
      modifies this
      ensures world == Run(from, steps) && world.worker.Busy? && world.worker.job == old(world).worker.job
      ensures ListedLinks(old(world), world, links) && Visits(world, world)
    {
      var listed := FirstTen(LiveBeyond(world.t.links, world.worker.act.batch.from.link));
      InvByListLinks(world, listed);
      steps := Perform(ListLinks(listed), done, from);
      links := listed;
    }

    method ListForImports(ghost done: seq<Step>, ghost from: World) returns (ghost steps: seq<Step>, ghost imports: set<RemoteId>)
      requires Inv(world) && world.worker.Busy? && world.worker.act.Visiting? && world.worker.act.links == {} && world == Run(from, done)
      requires forall l :: l in References(world.t.links) ==> l in world.worker.act.known.references
      requires world.worker.act.batch.at.imports == world.worker.act.batch.from.imports
      modifies this
      ensures world == Run(from, steps) && world.worker.Busy? && world.worker.job == old(world).worker.job
      ensures ListedImports(old(world), world, imports) && Imports(world, world)
    {
      var act := world.worker.act;
      var listed := FirstTen(Candidates(act.remote, act.known, act.batch.from.imports));
      CandidatesAreUnclaimed(act.remote, act.known, world.t.links, act.batch.from.imports);
      InvByListImports(world, listed);
      steps := Perform(ListImports(listed), done, from);
      imports := listed;
    }

    /** The three loops of a batch. */
    method Work(job: JobId, remote: Remotes, outcome: LinkId -> Visited) returns (ghost steps: seq<Step>)
      requires CanStart(world, job)
      modifies this
      ensures Inv(world) && world == Run(old(world), steps)
      ensures world.worker.Busy? && world.worker.act.Importing? && world.worker.act.imports == {}
      ensures Advanced(remote, old(world).t, world.t, world.worker.act.batch)
    {
      ghost var start := world;
      ghost var tasks, links, imports;
      steps, tasks := Open(job, remote, [], start);
      ghost var p0 := world;
      steps := PrepareTasks(steps, start);
      ghost var p1 := world;
      steps, links := ListForVisits(steps, start);
      ghost var v0 := world;
      steps := VisitLinks(outcome, steps, start);
      ghost var v1 := world;
      ReferencesStay(p1, v0, v1, links);
      steps, imports := ListForImports(steps, start);
      ghost var i0 := world;
      steps := ImportTasks(steps, start);
      BatchAdvances(start.t, p0, p1, v0, v1, i0, world, remote, tasks, links, imports);
    }

    /** `finish_google_tasks_batch`, and the end of the job. */
    method Conclude(ghost remote: Remotes, ghost done: seq<Step>, ghost from: World) returns (report: Report, ghost steps: seq<Step>)
      requires Inv(world) && world == Run(from, done)
      requires world.worker.Busy? && world.worker.act.Importing? && world.worker.act.imports == {}
      requires Advanced(remote, from.t, world.t, world.worker.act.batch)
      modifies this
      ensures Inv(world) && world.worker.Idle? && world.t.connection.enabled == old(world).t.connection.enabled
      ensures world == Run(from, steps) && world.t.links == old(world).t.links
      ensures report.Incomplete? ==> Closer(remote, from.t, world.t) && SlotTaken(world.jobs)
      ensures !report.Incomplete? ==> world.t.connection.checkpoint.None?
    {
      FinishIsCloser(remote, from.t, world);
      FinishedBatch(world);
      steps := Perform(Finish, done, from);
      report := world.worker.act.report;
      steps := Perform(TasksScan.WorkerStep.Report, steps, from);
    }

    /** `sync_google_tasks_inner`, without interference: a run of the machine, which reports the
        end of the scan or brings it closer and leaves a job to go on with. */
    method SyncBatch(job: JobId, remote: Remotes, outcome: LinkId -> Visited) returns (report: Report, ghost steps: seq<Step>)
      requires CanStart(world, job)
      modifies this
      ensures Inv(world) && world.worker.Idle? && world.t.connection.enabled
      ensures world == Run(old(world), steps)
      ensures Remembers(old(world).t.links, world.t.links)
      ensures report.Incomplete? ==> Closer(remote, old(world).t, world.t) && SlotTaken(world.jobs)
      ensures !report.Incomplete? ==> world.t.connection.checkpoint.None?
    {
      ghost var start := world;
      steps := Work(job, remote, outcome);
      report, steps := Conclude(remote, steps, start);
    }

    method ClaimNext() returns (job: JobId, ghost steps: seq<Step>)
      requires Inv(world) && world.worker.Idle? && world.t.connection.enabled && SlotTaken(world.jobs)
      modifies this
      ensures CanStart(world, job) && world.t == old(world).t && world == Run(old(world), steps)
    {
      job :| job in world.jobs && world.jobs[job].status.Pending? && world.jobs[job].slot;
      InvByClaim(world, job);
      steps := Perform(Claim(job), [], world);
    }

    /** The dispatcher goes on as long as there is a continuation. When nothing but the
        synchronization itself changes anything, that ends: every batch that leaves one brings
        the due writes, the staleness of the checkpoint, the unprepared tasks, the imports and
        the links, in this order of weight, closer to nothing. Every batch reads its own list,
        with any of the tasks that the synchronization has created by then. */
    method SyncToTheEnd(others: Remotes, created: (nat, Tables) -> Remotes, outcome: (nat, LinkId) -> Visited) returns (report: Report, ghost steps: seq<Step>)
      requires Inv(world) && world.worker.Idle? && world.t.connection.enabled && SlotTaken(world.jobs)
      modifies this
      ensures Inv(world) && world == Run(old(world), steps)
      ensures !report.Incomplete? && world.t.connection.checkpoint.None?
    {
      report := Incomplete;
      steps := [];
      var n := 0;
      while report.Incomplete?
        invariant Inv(world) && world.worker.Idle? && world.t.connection.enabled && world == Run(old(world), steps)
        invariant report.Incomplete? ==> SlotTaken(world.jobs)
        invariant !report.Incomplete? ==> world.t.connection.checkpoint.None?
        decreases report.Incomplete?, Due(others, world.t.links), Stale(world.t.connection), |Unlinked(world.t)|,
                  ImportsLeft(world.t, others), LinksLeft(world.t)
      {
        var job;
        ghost var some;
        job, some := ClaimNext();
        RunConcat(old(world), steps, some);
        steps := steps + some;
        var k := n;
        ghost var before := world.t;
        var mine := created(k, world.t);
        report, some := SyncBatch(job, Listing(others, mine, world.t.links), l => outcome(k, l));
        if report.Incomplete? {
          CloserAnyway(others, mine, before, world.t);
        }
        n := n + 1;
        RunConcat(old(world), steps, some);
        steps := steps + some;
      }
    }
  }
}
