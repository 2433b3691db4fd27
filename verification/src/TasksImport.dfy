/** What an import stores, and that it settles: a task taken over from Google and the remote task it
    came from are left alone until somebody edits one of them
    (apps/api/src/google_tasks_sync.rs:138-182, 391-430, 502-532). */
module TasksImport {
  import opened Prelude
  import opened SharedFields
  import opened TasksClient
  import opened TasksProtocol
  import opened TasksSafety
  import opened TasksTheorems
  import opened TasksPass
  import opened TasksCrash

  // ---- what is stored ----

  /** Task `k` is new and has the listed fields; link `l` is new and ties it to remote task `id`, with
      the same fields as what was last agreed. There is nothing else new, and nothing is changed. */
  ghost predicate Imported(w: World, after: World, id: RemoteId, listed: TaskFields, k: TaskId, l: LinkId) {
    && k !in w.db.tasks && k in after.db.tasks && after.db.tasks == w.db.tasks[k := after.db.tasks[k]]
    && after.db.tasks[k].fields == listed && after.db.tasks[k].version == 1
    && l !in w.db.links && l in after.db.links && after.db.links == w.db.links[l := after.db.links[l]]
    && (forall other :: other in w.db.links ==> w.db.links[other].task != k)
    && after.db.remote == w.db.remote && after.db.receipts == w.db.receipts && after.db.now == w.db.now
    && after.hist == w.hist && after.worker == w.worker
    && var row := after.db.links[l];
       && row.task == k && row.phase.Linked? && row.external == Some(id) && row.baseline == listed
       && row.dispute.None? && row.choice.None?
  }

  /** An import stores the listed task and its link, and is not made in any other case. */
  lemma ImportStores(w: World, id: RemoteId)
    requires Inv(w)
    ensures var after := Next(w, Scan(Import(id)));
            if w.worker.Busy? && w.worker.at.Ready? && Importable(w, id)
            then exists k, l :: Imported(w, after, id, w.worker.ctx.snapshot[id].fields.value, k, l)
            else after == w
  {
    if w.worker.Busy? && w.worker.at.Ready? && Importable(w, id) {
      assert Imported(w, Next(w, Scan(Import(id))), id, w.worker.ctx.snapshot[id].fields.value, w.next, w.next);
    }
  }

  // ---- a settled link is quiet ----

  /** Two copies that agree: task `k` at a version, and remote task `id`. */
  datatype Pair = Pair(k: TaskId, version: int, l: LinkId, id: RemoteId, remote: Remote)

  ghost function Agreement(p: Pair): TaskFields
    requires p.remote.fields.Some?
  {
    p.remote.fields.value
  }

  /** Both copies are these and agree with what their link says was last agreed. */
  ghost predicate Together(w: World, p: Pair) {
    && Look(p.remote, false).Usable()
    && p.k in w.db.tasks && w.db.tasks[p.k].fields == Agreement(p) && w.db.tasks[p.k].version == p.version
    && p.id in w.db.remote && w.db.remote[p.id] == p.remote
    && p.l in w.db.links
    && var row := w.db.links[p.l];
       row.task == p.k && row.phase.Linked? && row.external == Some(p.id) && row.baseline == Agreement(p)
  }

  /** Whatever the worker is about to do for the link, it has seen the two copies agree. */
  ghost predicate KnowsAgreement(act: Act, p: Pair)
    requires p.remote.fields.Some?
  {
    match act
    case Unheld => true
    case Found(_, local) => local == Agreement(p)
    case Compared(plan) => plan.local == Agreement(p) && plan.merged == Agreement(p) && plan.seen.fields == Some(plan.merged)
    case Patched(plan, _) => plan.local == Agreement(p) && plan.merged == Agreement(p) && plan.id == p.id
    case Written(id, _, agreed) => id == p.id && agreed == Agreement(p)
    case _ => false
  }

  ghost predicate Sees(worker: Worker, p: Pair)
    requires p.remote.fields.Some?
  {
    worker.Busy? ==>
      && (p.id in worker.ctx.snapshot ==> worker.ctx.snapshot[p.id].Usable() && worker.ctx.snapshot[p.id].fields == p.remote.fields)
      && (worker.at.On? && worker.at.link == p.l ==> KnowsAgreement(worker.at.act, p))
  }

  ghost predicate Quiet(w: World, p: Pair) {
    Together(w, p) && Sees(w.worker, p)
  }

  /** The owner edits or deletes the task, or Google's users edit or remove the remote one. */
  predicate Touches(step: Step, p: Pair) {
    match step
    case Owner(EditTask(task, _, _)) => task == p.k
    case Owner(DeleteTask(task)) => task == p.k
    case Owner(DeleteReversibly(task)) => task == p.k
    case Outside(GoogleEdits(id, _)) => id == p.id
    case Outside(GooglePurges(id)) => id == p.id
    case _ => false
  }

  lemma QuietByOwner(w: World, step: OwnerStep, p: Pair)
    requires Inv(w) && Quiet(w, p) && !Touches(Owner(step), p)
    ensures Quiet(NextOwner(w, step), p)
  {
  }

  lemma QuietByOutside(w: World, step: OutsideStep, p: Pair)
    requires Inv(w) && Quiet(w, p) && !Touches(Outside(step), p)
    ensures Quiet(NextOutside(w, step), p)
  {
  }

  lemma QuietByScan(w: World, step: ScanStep, p: Pair)
    requires Inv(w) && Quiet(w, p)
    ensures Quiet(NextScan(w, step), p)
  {
  }

  lemma QuietByReading(w: World, step: LinkStep, p: Pair)
    requires Inv(w) && Quiet(w, p) && (step.Visit? || step.FindTask? || step.Detach? || step.Recover? || step.Claim? || step.Settle?)
    ensures Quiet(NextLink(w, step), p)
  {
  }

  lemma QuietByPost(w: World, created: bool, outcome: Outcome, p: Pair)
    requires Inv(w) && Quiet(w, p)
    ensures Quiet(StepPost(w, created, outcome), p)
  {
  }

  lemma QuietByCompare(w: World, hideEtag: bool, disputeId: int, p: Pair)
    requires Inv(w) && Quiet(w, p)
    ensures Quiet(StepCompare(w, hideEtag, disputeId), p)
  {
  }

  lemma QuietByPatch(w: World, applied: bool, acknowledged: bool, p: Pair)
    requires Inv(w) && Quiet(w, p)
    ensures Quiet(StepPatch(w, applied, acknowledged), p)
  {
  }

  lemma QuietByWriteLocal(w: World, p: Pair)
    requires Inv(w) && Quiet(w, p)
    ensures Quiet(StepWriteLocal(w), p)
  {
  }

  lemma QuietByRecord(w: World, p: Pair)
    requires Inv(w) && Quiet(w, p)
    ensures Quiet(StepRecord(w), p)
  {
  }

  lemma QuietByLink(w: World, step: LinkStep, p: Pair)
    requires Inv(w) && Quiet(w, p)
    ensures Quiet(NextLink(w, step), p)
  {
    match step
    case Post(created, outcome) => QuietByPost(w, created, outcome, p);
    case Compare(hideEtag, disputeId) => QuietByCompare(w, hideEtag, disputeId, p);
    case Patch(applied, acknowledged) => QuietByPatch(w, applied, acknowledged, p);
    case WriteLocal => QuietByWriteLocal(w, p);
    case Record => QuietByRecord(w, p);
    case _ => QuietByReading(w, step, p);
  }

  lemma QuietKept(w: World, step: Step, p: Pair)
    requires Inv(w) && Quiet(w, p) && !Touches(step, p)
    ensures Quiet(Next(w, step), p)
  {
    match step
    case Owner(o) => QuietByOwner(w, o, p);
    case Outside(e) => QuietByOutside(w, e, p);
    case Scan(s) => QuietByScan(w, s, p);
    case OnLink(l) => QuietByLink(w, l, p);
  }

  /** Copies that agree stay as they are, at their version and ETag, in every run in which nobody
      touches either, whatever else happens to other tasks, links and the worker. */
  lemma {:induction false} AgreementIsQuiet(w: World, steps: seq<Step>, p: Pair)
    requires Inv(w) && Quiet(w, p) && forall i :: 0 <= i < |steps| ==> !Touches(steps[i], p)
    ensures Quiet(Run(w, steps), p)
    decreases |steps|
  {
    if steps != [] {
      InvKept(w, steps[0]);
      QuietKept(w, steps[0], p);
      AgreementIsQuiet(Next(w, steps[0]), steps[1..], p);
    }
  }

  // ---- what is imported stays as it is ----

  /** In every run of which an import is a step and Google still has what was listed: until the owner
      or Google's users touch one of the two copies, both stay exactly as the import left them, and
      their link agrees with both. */
  lemma ImportIsQuiet(w: World, id: RemoteId, k: TaskId, l: LinkId, steps: seq<Step>)
    requires Reachable(w) && w.worker.Busy? && w.worker.at.Ready? && Importable(w, id)
    requires Imported(w, Next(w, Scan(Import(id))), id, w.worker.ctx.snapshot[id].fields.value, k, l)
    requires id in w.db.remote && Look(w.db.remote[id], false).Usable() && w.db.remote[id].fields == w.worker.ctx.snapshot[id].fields
    requires forall i :: 0 <= i < |steps| ==> !Touches(steps[i], Pair(k, 1, l, id, w.db.remote[id]))
    ensures Together(Run(Next(w, Scan(Import(id))), steps), Pair(k, 1, l, id, w.db.remote[id]))
  {
    InvOfReachable(w);
    InvKept(w, Scan(Import(id)));
    AgreementIsQuiet(Next(w, Scan(Import(id))), steps, Pair(k, 1, l, id, w.db.remote[id]));
  }

  // ---- a pass over copies that agree ----

  lemma SettledIsMergeable(w: World, l: LinkId, id: RemoteId, m: TaskFields)
    requires Settled(w, l, id, m)
    ensures Computes(w, l, id, m) && GoogleTakes(w, id, m) && StoreTakes(w, l, m)
  {
    assert Mergeable(w, l, id, m);
  }

  predicate SameCopies(w: World, after: World) {
    after.db.tasks == w.db.tasks && after.db.remote == w.db.remote
  }

  lemma SettledWrites(w: World, l: LinkId, id: RemoteId, m: TaskFields)
    requires Half(w, l, id, m) && TaskOf(w, l).fields == m
    ensures OnlyWorker(w, Next(w, OnLink(WriteLocal)))
  {
  }

  /** What comes after the PATCH writes to the link at most. */
  lemma RecordsOnly(w: World)
    ensures SameCopies(w, Next(w, OnLink(Record))) && SameCopies(w, Next(w, Scan(Finish)))
  {
  }

  lemma SettledHalfway(w: World, l: LinkId, id: RemoteId, m: TaskFields)
    requires Settled(w, l, id, m) && w.worker.Idle?
    ensures OnlyWorker(w, After(w, 7, l, id)) && Half(After(w, 7, l, id), l, id, m)
  {
    SettledIsMergeable(w, l, id, m);
    PatchDone(w, l, id, m);
  }

  /** A pass over copies that agree with what was last agreed writes to neither side, and leaves them
      so. */
  lemma SettledPassWritesNothing(w: World, l: LinkId, id: RemoteId, m: TaskFields)
    requires Settled(w, l, id, m) && w.worker.Idle?
    ensures SameCopies(w, Run(w, Pass(l, id))) && Settled(Run(w, Pass(l, id)), l, id, m)
  {
    SettledHalfway(w, l, id, m);
    AfterOneMore(w, 7, l, id);
    SettledWrites(After(w, 7, l, id), l, id, m);
    AfterOneMore(w, 8, l, id);
    AfterOneMore(w, 9, l, id);
    RecordsOnly(After(w, 8, l, id));
    RecordsOnly(After(w, 9, l, id));
    SettledIsMergeable(w, l, id, m);
    PassSettles(w, l, id, m);
    WholePass(w, l, id);
  }

  lemma TogetherPasses(w: World, p: Pair)
    requires Inv(w) && Together(w, p) && w.worker.Idle? && !Held(w, p.k)
    ensures SameCopies(w, Run(w, Pass(p.l, p.id))) && Settled(Run(w, Pass(p.l, p.id)), p.l, p.id, Agreement(p))
  {
    SettledPassWritesNothing(w, p.l, p.id, Agreement(p));
  }

  /** So the first pass over an imported task, after whatever else has happened, writes nothing. */
  lemma ImportedPassWritesNothing(w: World, id: RemoteId, k: TaskId, l: LinkId, steps: seq<Step>)
    requires Reachable(w) && w.worker.Busy? && w.worker.at.Ready? && Importable(w, id)
    requires Imported(w, Next(w, Scan(Import(id))), id, w.worker.ctx.snapshot[id].fields.value, k, l)
    requires id in w.db.remote && Look(w.db.remote[id], false).Usable() && w.db.remote[id].fields == w.worker.ctx.snapshot[id].fields
    requires forall i :: 0 <= i < |steps| ==> !Touches(steps[i], Pair(k, 1, l, id, w.db.remote[id]))
    ensures var later := Run(Next(w, Scan(Import(id))), steps);
            later.worker.Idle? && !Held(later, k) ==>
              && SameCopies(later, Run(later, Pass(l, id)))
              && Settled(Run(later, Pass(l, id)), l, id, w.worker.ctx.snapshot[id].fields.value)
  {
    var later := Run(Next(w, Scan(Import(id))), steps);
    ImportIsQuiet(w, id, k, l, steps);
    InvOfReachable(w);
    InvKept(w, Scan(Import(id)));
    InvOfRun(Next(w, Scan(Import(id))), steps);
    if later.worker.Idle? && !Held(later, k) {
      TogetherPasses(later, Pair(k, 1, l, id, w.db.remote[id]));
    }
  }
}
