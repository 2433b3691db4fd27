/** A checkpoint can be stranded: a reachable scan whose continuation fails eight times
    (apps/api/src/sync_store.rs:335-365, apps/api/src/google_tasks_sync.rs:462-487). */
module ScanInstances {
  import opened Prelude
  import opened TasksScan
  import opened ScanSafety

  // ---- eleven remote tasks that cannot be imported ----

  function Between(from: int, end: int): set<int>
    decreases end - from
  {
    if from >= end then {} else {from} + Between(from + 1, end)
  }

  lemma {:induction false} Members(from: int, end: int)
    ensures forall i :: i in Between(from, end) <==> from <= i < end
    decreases end - from
  {
    if from < end {
      Members(from + 1, end);
    }
  }

  lemma {:induction false} SizeOf(from: int, end: int)
    requires from <= end
    ensures |Between(from, end)| == end - from
    decreases end - from
  {
    if from < end {
      Members(from + 1, end);
      SizeOf(from + 1, end);
    }
  }

  function Unusable(n: nat): Remotes {
    if n == 0 then map[] else Unusable(n - 1)[n - 1 := Remote(false, None)]
  }

  lemma {:induction false} Listed(n: nat)
    ensures forall i :: i in Unusable(n) <==> 0 <= i < n
    ensures forall i :: 0 <= i < n ==> Unusable(n)[i] == Remote(false, None)
  {
    if n > 0 {
      Listed(n - 1);
    }
  }

  // ---- a first batch ----

  lemma {:induction false} RunOneMore(w: World, steps: seq<Step>, step: Step)
    ensures Run(w, steps + [step]) == Next(Run(w, steps), step)
    decreases |steps|
  {
    if steps == [] {
      assert [step][1..] == [] && steps + [step] == [step];
      assert Run(Next(w, step), []) == Next(w, step);
    } else {
      assert (steps + [step])[1..] == steps[1..] + [step];
      RunOneMore(Next(w, steps[0]), steps[1..], step);
    }
  }

  lemma ReachableNext(w: World, step: Step)
    requires Reachable(w)
    ensures Reachable(Next(w, step))
  {
    var steps :| Run(Start(), steps) == w;
    RunOneMore(Start(), steps, step);
  }

  /** No task, no link, one job, and nobody at work. */
  ghost predicate Bare(w: World) {
    && w.t.tasks == {} && w.t.links == map[] && w.t.next == 1
    && w.t.connection == Connection(true, 1, None)
    && w.jobs.Keys == {0}
  }

  lemma AskedIsReachable() returns (w: World)
    ensures Reachable(w) && Bare(w) && w.worker.Idle? && w.jobs[0] == Job(Pending, false, 0)
  {
    assert Run(Start(), []) == Start();
    ReachableNext(Start(), Owner(Configure(true)));
    var on := Next(Start(), Owner(Configure(true)));
    ReachableNext(on, Owner(Choose));
    w := Next(on, Owner(Choose));
  }

  lemma LockedIsReachable() returns (w: World)
    ensures Reachable(w) && Bare(w) && w.worker == Busy(0, Started) && w.jobs[0].status.Running?
  {
    var asked := AskedIsReachable();
    ReachableNext(asked, Works(Claim(0)));
    var claimed := Next(asked, Works(Claim(0)));
    ReachableNext(claimed, Works(Lock(0)));
    w := Next(claimed, Works(Lock(0)));
  }

  /** The batch has read the list, and there is nothing to prepare or to visit. */
  ghost predicate Reading(w: World) {
    && Bare(w) && w.jobs[0].status.Running? && w.worker.Busy? && w.worker.job == 0
  }

  ghost predicate Fresh(b: Batch) {
    b.from == Cursors(None, None) && !b.more && b.log.revision == 1
  }

  lemma OpenedIsReachable(ten: nat) returns (w: World)
    ensures Reachable(w) && Reading(w) && w.worker.act.Preparing? && w.worker.act.tasks == {}
    ensures w.worker.act.remote == Unusable(ten + 1) && Fresh(w.worker.act.batch)
  {
    var locked := LockedIsReachable();
    ReachableNext(locked, Works(Read(Unusable(ten + 1))));
    var read := Next(locked, Works(Read(Unusable(ten + 1))));
    ReachableNext(read, Works(ListTasks({})));
    assert Unlinked(read.t) == {};
    w := Next(read, Works(ListTasks({})));
  }

  lemma VisitedIsReachable(ten: nat) returns (w: World)
    ensures Reachable(w) && Reading(w) && w.worker.act.Visiting? && w.worker.act.links == {}
    ensures w.worker.act.remote == Unusable(ten + 1) && w.worker.act.known == Known({}, {}) && Fresh(w.worker.act.batch)
  {
    var ready := OpenedIsReachable(ten);
    ReachableNext(ready, Works(ListLinks({})));
    assert LiveBeyond(ready.t.links, None) == {} && Externals(ready.t.links) == {} && References(ready.t.links) == {};
    w := Next(ready, Works(ListLinks({})));
  }

  /** The first ten are to be imported, from `from` on. */
  ghost predicate Left(w: World, from: int, ten: nat) {
    && Reading(w) && w.worker.act.Importing? && w.worker.act.imports == Between(from, ten)
    && w.worker.act.remote == Unusable(ten + 1) && w.worker.act.batch.more
  }

  lemma AllButOne(n: nat)
    ensures var some, all := Between(0, n), Between(0, n + 1);
            && some <= all && some != all && |some| == n
            && forall a, b :: a in some && b in all && b !in some ==> a < b
  {
    SizeOf(0, n);
    Members(0, n);
    Members(0, n + 1);
    assert n in Between(0, n + 1) && n !in Between(0, n);
    SameMembers(Between(0, n) + {n}, Between(0, n + 1));
  }

  lemma FirstOfAll(some: set<int>, all: set<int>)
    requires some <= all && some != all && |some| == BATCH_SIZE
    requires forall a, b :: a in some && b in all && b !in some ==> a < b
    ensures FirstOf(some, all)
  {
  }

  lemma TenAreFirst(visited: World, ten: nat, some: set<int>, all: set<int>)
    requires Reading(visited) && visited.worker.act.Visiting? && visited.worker.act.links == {}
    requires visited.worker.act.remote == Unusable(ten + 1) && visited.worker.act.known == Known({}, {}) && Fresh(visited.worker.act.batch)
    requires some == Between(0, ten) && all == Candidates(Unusable(ten + 1), Known({}, {}), None) && some != all && FirstOf(some, all)
    ensures Left(Next(visited, Works(ListImports(some))), 0, ten)
  {
  }

  lemma AllAreCandidates(n: nat)
    ensures Candidates(Unusable(n), Known({}, {}), None) == Between(0, n)
  {
    Listed(n);
    Members(0, n);
    SameMembers(Candidates(Unusable(n), Known({}, {}), None), Between(0, n));
  }

  lemma ListedIsReachable(ten: nat) returns (w: World)
    requires ten == BATCH_SIZE
    ensures Reachable(w) && Left(w, 0, ten)
  {
    var visited := VisitedIsReachable(ten);
    var listed := Between(0, ten);
    ReachableNext(visited, Works(ListImports(listed)));
    w := Next(visited, Works(ListImports(listed)));
    AllAreCandidates(ten + 1);
    AllButOne(ten);
    FirstOfAll(listed, Between(0, ten + 1));
    TenAreFirst(visited, ten, listed, Between(0, ten + 1));
  }

  lemma ImportLeaves(w: World, from: int, ten: nat)
    requires Left(w, from, ten) && 0 <= from < ten
    ensures Left(Next(w, Works(Import(from))), from + 1, ten)
  {
    Members(from, ten);
    Members(from + 1, ten);
    Listed(ten + 1);
    assert Least(from, w.worker.act.imports);
    assert Between(from, ten) - {from} == Between(from + 1, ten);
  }

  lemma {:induction false} ImportedIsReachable(from: nat, ten: nat) returns (w: World)
    requires from <= ten == BATCH_SIZE
    ensures Reachable(w) && Left(w, from, ten)
  {
    if from == 0 {
      w := ListedIsReachable(ten);
    } else {
      var before := ImportedIsReachable(from - 1, ten);
      ReachableNext(before, Works(Import(from - 1)));
      ImportLeaves(before, from - 1, ten);
      w := Next(before, Works(Import(from - 1)));
    }
  }

  /** Its checkpoint is committed with a continuation, which is then the only job left. */
  lemma CheckpointIsReachable() returns (w: World)
    ensures Reachable(w) && w.worker.Idle? && w.t.connection.checkpoint.Some?
    ensures 1 in w.jobs && w.jobs[1].status.Pending? && forall k :: k in w.jobs && k != 1 ==> w.jobs[k].status.Succeeded?
  {
    var imported := ImportedIsReachable(BATCH_SIZE, BATCH_SIZE);
    assert Between(BATCH_SIZE, BATCH_SIZE) == {};
    ReachableNext(imported, Works(Finish));
    var finished := Next(imported, Works(Finish));
    assert forall k :: k in finished.jobs ==> k == 0 || k == 1;
    ReachableNext(finished, Works(TasksScan.WorkerStep.Report));
    w := Next(finished, Works(TasksScan.WorkerStep.Report));
  }

  /** Stranded: a checkpoint, and no job that anybody takes or is at. */
  ghost predicate Stranded(w: World) {
    && w.t.connection.checkpoint.Some? && w.worker.Idle?
    && forall k :: k in w.jobs ==> !Claimable(w.jobs, k) && !Abandoned(w, k)
  }

  lemma {:induction false} ReachableRun(w: World, steps: seq<Step>)
    requires Reachable(w)
    ensures Reachable(Run(w, steps))
    decreases |steps|
  {
    if steps != [] {
      ReachableNext(w, steps[0]);
      ReachableRun(Next(w, steps[0]), steps[1..]);
    }
  }

  /** Such a checkpoint is reachable, and waits for the next job that is asked for. */
  lemma StrandedIsReachable() returns (w: World)
    ensures Reachable(w) && Stranded(w) && Claimable(Next(w, Owner(Ask)).jobs, w.t.next)
  {
    var before := CheckpointIsReachable();
    EightFailuresStrand(before, 1);
    ReachableRun(before, Failures(1, MAX_ATTEMPTS));
    w := Run(before, Failures(1, MAX_ATTEMPTS));
    InvOfReachable(w);
  }
}
