/** The promises of the Google Tasks synchronization, over every run. */
module TasksTheorems {
  import opened Prelude
  import opened SharedFields
  import opened TasksClient
  import opened TasksProtocol
  import opened TasksSafety

  lemma InvKeptOwner(w: World, step: OwnerStep)
    requires Inv(w)
    ensures Inv(NextOwner(w, step))
  {
    match step
    case CreateTask(fields, terms) => KeptByCreateTask(w, fields, terms);
    case EditTask(task, fields, terms) => KeptByEditTask(w, task, fields, terms);
    case ChangeTerms(task, terms) => KeptByChangeTerms(w, task, terms);
    case DeleteTask(task) => KeptByDeleteTask(w, task);
    case DeleteReversibly(task) => KeptByDeleteReversibly(w, task);
    case UndoDelete(receipt) => KeptByUndoDelete(w, receipt);
    case Choose(link, dispute, choice) => KeptByChoose(w, link, dispute, choice);
    case LeaveUnlinked(link) => KeptByLeaveUnlinked(w, link);
  }

  lemma InvKeptOutside(w: World, step: OutsideStep)
    requires Inv(w)
    ensures Inv(NextOutside(w, step))
  {
    match step
    case GoogleCreates(content) => KeptByGoogle(w, 0, content);
    case GoogleEdits(id, content) => KeptByGoogle(w, id, content);
    case GooglePurges(id) => KeptByPurge(w, id);
    case Tick(seconds) => KeptByTick(w, seconds);
    case CleanUp(receipt) => KeptByCleanUp(w, receipt);
    case Crash => if w.worker.Busy? { KeptByBack(w); }
  }

  lemma InvKeptScan(w: World, step: ScanStep)
    requires Inv(w)
    ensures Inv(NextScan(w, step))
  {
    match step
    case Begin => KeptByListing(w, 0, false);
    case See(id, hideEtag) => KeptByListing(w, id, hideEtag);
    case Prepare(task) => KeptByPrepare(w, task);
    case Load => KeptByListing(w, 0, false);
    case Import(id) => KeptByImport(w, id);
    case Abort => if w.worker.Busy? { KeptByBack(w); }
    case Finish => if w.worker.Busy? { KeptByBack(w); }
  }

  lemma InvKeptLink(w: World, step: LinkStep)
    requires Inv(w)
    ensures Inv(NextLink(w, step))
  {
    match step
    case Visit(link) => KeptByVisit(w, link);
    case FindTask => KeptByVisit(w, 0);
    case Detach => KeptByDetach(w);
    case Recover(id) => KeptByRecover(w, id);
    case Claim => KeptByClaim(w);
    case Post(created, outcome) => KeptByPost(w, created, outcome);
    case Settle => KeptBySettle(w);
    case Compare(hideEtag, disputeId) => KeptByCompare(w, hideEtag, disputeId);
    case Patch(applied, acknowledged) => KeptByPatch(w, applied, acknowledged);
    case WriteLocal => KeptByWriteLocal(w);
    case Record => KeptByRecord(w);
  }

  lemma InvKept(w: World, step: Step)
    requires Inv(w)
    ensures Inv(Next(w, step))
  {
    match step
    case Owner(o) => InvKeptOwner(w, o);
    case Outside(e) => InvKeptOutside(w, e);
    case Scan(s) => InvKeptScan(w, s);
    case OnLink(l) => InvKeptLink(w, l);
  }

  lemma {:induction false} InvOfRun(w: World, steps: seq<Step>)
    requires Inv(w)
    ensures Inv(Run(w, steps))
    decreases |steps|
  {
    if steps != [] {
      InvKept(w, steps[0]);
      InvOfRun(Next(w, steps[0]), steps[1..]);
    }
  }

  lemma InvOfReachable(w: World)
    requires Reachable(w)
    ensures Inv(w)
  {
    var now, steps :| Run(Start(now), steps) == w;
    InvOfRun(Start(now), steps);
  }

  // ---- at most one remote task per local task ----

  /** However requests fail, and wherever the worker crashes, no local task ever gets two
      remote tasks created for it. */
  lemma AtMostOneRemoteTask(w: World, a: RemoteId, b: RemoteId)
    requires Reachable(w)
    requires a in w.hist.born && b in w.hist.born
    ensures w.hist.born[a] in w.db.links && w.hist.born[b] in w.db.links
    ensures w.db.links[w.hist.born[a]].task == w.db.links[w.hist.born[b]].task ==> a == b
  {
    InvOfReachable(w);
  }

  /** The link is past its create intent: not prepared, and no request of it is in flight. */
  ghost predicate PastCreation(w: World, l: LinkId) {
    && l in w.db.links
    && !w.db.links[l].phase.Prepared?
    && !(w.worker.Busy? && w.worker.at.On? && w.worker.at.link == l
         && (w.worker.at.act.Claimed? || w.worker.at.act.Answered?))
  }

  ghost function BornOf(h: History, l: LinkId): set<RemoteId> {
    set id | id in h.born && h.born[id] == l
  }

  ghost predicate StillPast(w: World, w': World, l: LinkId) {
    PastCreation(w', l) && BornOf(w'.hist, l) == BornOf(w.hist, l)
  }

  lemma PastCreationKeptByOwner(w: World, step: OwnerStep, l: LinkId)
    requires Inv(w) && PastCreation(w, l)
    ensures StillPast(w, NextOwner(w, step), l)
  {
  }

  lemma PastCreationKeptByOutside(w: World, step: OutsideStep, l: LinkId)
    requires Inv(w) && PastCreation(w, l)
    ensures StillPast(w, NextOutside(w, step), l)
  {
  }

  lemma PastCreationKeptByScan(w: World, step: ScanStep, l: LinkId)
    requires Inv(w) && PastCreation(w, l)
    ensures StillPast(w, NextScan(w, step), l)
  {
  }

  lemma PastCreationKeptByPatch(w: World, applied: bool, acknowledged: bool, l: LinkId)
    requires Inv(w) && PastCreation(w, l)
    ensures StillPast(w, StepPatch(w, applied, acknowledged), l)
  {
  }

  lemma PastCreationKeptByPost(w: World, created: bool, outcome: Outcome, l: LinkId)
    requires Inv(w) && PastCreation(w, l)
    ensures StillPast(w, StepPost(w, created, outcome), l)
  {
  }

  lemma PastCreationKeptByCompare(w: World, hideEtag: bool, disputeId: int, l: LinkId)
    requires Inv(w) && PastCreation(w, l)
    ensures StillPast(w, StepCompare(w, hideEtag, disputeId), l)
  {
  }

  lemma PastCreationKeptByRecord(w: World, l: LinkId)
    requires Inv(w) && PastCreation(w, l)
    ensures StillPast(w, StepSettle(w), l)
    ensures StillPast(w, StepRecord(w), l)
  {
  }

  lemma PastCreationKeptByLink(w: World, step: LinkStep, l: LinkId)
    requires Inv(w) && PastCreation(w, l)
    ensures StillPast(w, NextLink(w, step), l)
  {
    match step
    case Post(created, outcome) => PastCreationKeptByPost(w, created, outcome, l);
    case Compare(hideEtag, disputeId) => PastCreationKeptByCompare(w, hideEtag, disputeId, l);
    case Patch(applied, acknowledged) => PastCreationKeptByPatch(w, applied, acknowledged, l);
    case Settle => PastCreationKeptByRecord(w, l);
    case Record => PastCreationKeptByRecord(w, l);
    case _ =>
  }

  lemma PastCreationKept(w: World, step: Step, l: LinkId)
    requires Inv(w) && PastCreation(w, l)
    ensures StillPast(w, Next(w, step), l)
  {
    match step
    case Owner(o) => PastCreationKeptByOwner(w, o, l);
    case Outside(e) => PastCreationKeptByOutside(w, e, l);
    case Scan(s) => PastCreationKeptByScan(w, s, l);
    case OnLink(link) => PastCreationKeptByLink(w, link, l);
  }

  /** The step sends a create request for link `l`, whatever comes of it. */
  predicate Posts(w: World, step: Step, l: LinkId) {
    step.OnLink? && step.l.Post? && Working(w) && w.worker.at.link == l && w.worker.at.act.Claimed?
  }

  ghost predicate NeverPosts(w: World, steps: seq<Step>, l: LinkId)
    decreases |steps|
  {
    steps == [] || (!Posts(w, steps[0], l) && NeverPosts(Next(w, steps[0]), steps[1..], l))
  }

  /** A creating link left behind by a crash, a linked one and a detached one never send a
      create request again, whatever happens afterwards, and nothing more is created for them. */
  lemma {:induction false} NoCreateAfterIntent(w: World, steps: seq<Step>, l: LinkId)
    requires Inv(w) && PastCreation(w, l)
    ensures NeverPosts(w, steps, l) && StillPast(w, Run(w, steps), l)
    decreases |steps|
  {
    if steps != [] {
      InvKept(w, steps[0]);
      PastCreationKept(w, steps[0], l);
      NoCreateAfterIntent(Next(w, steps[0]), steps[1..], l);
    }
  }

  // ---- no edit is lost ----

  predicate WorkerStep(step: Step) {
    step.Scan? || step.OnLink?
  }

  /** The owner answered a dispute about exactly this version and these local fields, and `after` is
      what that answer asks for. */
  ghost predicate LocalAnswered(row: Link, before: Local, after: TaskFields) {
    && row.choice.Some? && row.dispute.Some?
    && row.dispute.value.version == before.version && row.dispute.value.local == before.fields
    && after == Resolve(row.baseline, before.fields, row.dispute.value.google, row.choice.value)
  }

  /** The owner answered a dispute about exactly this ETag and these remote fields, and `after` is
      what that answer asks for, as Google writes it. */
  ghost predicate RemoteAnswered(row: Link, before: Remote, after: TaskFields) {
    && row.choice.Some? && row.dispute.Some?
    && row.dispute.value.etag == before.etag && Some(row.dispute.value.google) == before.fields
    && after == Echo(Resolve(row.baseline, row.dispute.value.local, row.dispute.value.google, row.choice.value), before.fields)
  }

  /** Every task survives; a field changes only if it was at its link's baseline or the owner
      chose so for exactly this state. */
  ghost predicate LocalEditsKept(w: World, w': World) {
    forall k :: k in w.db.tasks ==>
      && k in w'.db.tasks
      && (w'.db.tasks[k] != w.db.tasks[k] ==>
            exists l :: l in w.db.links && w.db.links[l].task == k &&
              (|| OnlyBaselineReplaced(w.db.links[l].baseline, w.db.tasks[k].fields, w'.db.tasks[k].fields)
               || LocalAnswered(w.db.links[l], w.db.tasks[k], w'.db.tasks[k].fields)))
  }

  ghost predicate RemoteEditsKept(w: World, w': World) {
    forall id :: id in w.db.remote ==>
      && id in w'.db.remote
      && (w'.db.remote[id] != w.db.remote[id] ==>
            && w.db.remote[id].fields.Some? && w'.db.remote[id].fields.Some?
            && w'.db.remote[id].marker == w.db.remote[id].marker
            && w'.db.remote[id].deleted == w.db.remote[id].deleted
            && exists l :: l in w.db.links && w.db.links[l].external == Some(id) &&
                 (|| OnlyBaselineReplaced(w.db.links[l].baseline, w.db.remote[id].fields.value, w'.db.remote[id].fields.value)
                  || RemoteAnswered(w.db.links[l], w.db.remote[id], w'.db.remote[id].fields.value)))
  }

  lemma PatchKeepsEdits(w: World, applied: bool, acknowledged: bool)
    requires Inv(w)
    ensures RemoteEditsKept(w, StepPatch(w, applied, acknowledged))
    ensures StepPatch(w, applied, acknowledged).db.tasks == w.db.tasks
  {
    if Working(w) && w.worker.at.act.Compared? {
      var plan, row := w.worker.at.act.plan, Row(w);
      if Reconcile(row.baseline, plan.local, plan.seen.fields.value).Ok? {
        ReconcileLosesNoEdit(row.baseline, plan.local, plan.seen.fields.value);
      }
    }
  }

  lemma WriteLocalKeepsEdits(w: World)
    requires Inv(w)
    ensures LocalEditsKept(w, StepWriteLocal(w))
    ensures StepWriteLocal(w).db.remote == w.db.remote
  {
    if Working(w) && w.worker.at.act.Patched? {
      var plan, row := w.worker.at.act.plan, Row(w);
      if Reconcile(row.baseline, plan.local, plan.seen.fields.value).Ok? {
        ReconcileLosesNoEdit(row.baseline, plan.local, plan.seen.fields.value);
      }
    }
  }

  /** Tasks and remote tasks are only added to. */
  ghost predicate OnlyAdded(w: World, w': World) {
    && (forall k :: k in w.db.tasks ==> k in w'.db.tasks && w'.db.tasks[k] == w.db.tasks[k])
    && (forall id :: id in w.db.remote ==> id in w'.db.remote && w'.db.remote[id] == w.db.remote[id])
  }

  lemma ScanOnlyAdds(w: World, step: ScanStep)
    requires Inv(w)
    ensures OnlyAdded(w, NextScan(w, step))
  {
  }

  lemma OtherLinkStepsOnlyAdd(w: World, step: LinkStep)
    requires Inv(w) && !step.Patch? && !step.WriteLocal?
    ensures OnlyAdded(w, NextLink(w, step))
  {
  }

  /** No interleaving of the owner's and Google's edits makes the worker overwrite one. */
  lemma NoLostEdit(w: World, step: Step)
    requires Reachable(w) && WorkerStep(step)
    ensures LocalEditsKept(w, Next(w, step)) && RemoteEditsKept(w, Next(w, step))
  {
    InvOfReachable(w);
    match step
    case OnLink(Patch(applied, acknowledged)) => PatchKeepsEdits(w, applied, acknowledged);
    case OnLink(WriteLocal) => WriteLocalKeepsEdits(w);
    case OnLink(l) => OtherLinkStepsOnlyAdd(w, l);
    case Scan(s) => ScanOnlyAdds(w, s);
  }

  /** The step gives link `l` no new answer. */
  ghost predicate Unanswering(w: World, w': World, l: LinkId) {
    l in w.db.links && l in w'.db.links && w'.db.links[l].choice.Some? ==> w'.db.links[l].choice == w.db.links[l].choice
  }

  lemma OwnerAnswers(w: World, step: OwnerStep, l: LinkId)
    requires Inv(w) && !step.Choose?
    ensures Unanswering(w, NextOwner(w, step), l)
  {
  }

  lemma OthersAnswerNothing(w: World, e: OutsideStep, s: ScanStep, l: LinkId)
    requires Inv(w)
    ensures Unanswering(w, NextOutside(w, e), l) && Unanswering(w, NextScan(w, s), l)
  {
  }

  lemma LinkStepsAnswerNothing(w: World, step: LinkStep, l: LinkId)
    requires Inv(w)
    ensures Unanswering(w, NextLink(w, step), l)
  {
  }

  /** A link has an answer only from the owner, to the very dispute that it then has, while the task
      still is at the version that the dispute is about. */
  lemma AnswerIsOwners(w: World, step: Step, l: LinkId)
    requires Inv(w) && l in w.db.links && l in Next(w, step).db.links
    requires Next(w, step).db.links[l].choice.Some? && Next(w, step).db.links[l].choice != w.db.links[l].choice
    ensures var before, after := w.db.links[l], Next(w, step).db.links[l];
            && before.dispute.Some? && step == Owner(Choose(l, before.dispute.value.id, after.choice.value))
            && after == before.(choice := after.choice) && before.task in w.db.tasks
            && w.db.tasks[before.task].version == before.dispute.value.version
  {
    match step
    case Owner(o) => if !o.Choose? { OwnerAnswers(w, o, l); }
    case Outside(e) => OthersAnswerNothing(w, e, Begin, l);
    case Scan(s) => OthersAnswerNothing(w, Crash, s, l);
    case OnLink(link) => LinkStepsAnswerNothing(w, link, l);
  }

  // ---- undo and detaching exclude each other ----

  /** No deletion is both undone and, because of it, followed by the detaching of the
      task's link, in either order. */
  lemma UndoExcludesDetach(w: World)
    requires Reachable(w)
    ensures w.hist.restored !! w.hist.unlinked
  {
    InvOfReachable(w);
  }

  /** Each remote identity and each task belongs to at most one link. */
  lemma IdentitiesUnique(w: World)
    requires Reachable(w)
    ensures Keys(w.db.links)
  {
    InvOfReachable(w);
  }
}
