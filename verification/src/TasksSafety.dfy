/** What every run of the Google Tasks protocol keeps. */
module TasksSafety {
  import opened Prelude
  import opened SharedFields
  import opened TasksClient
  import opened TasksProtocol

  // ---- the invariant, table by table ----

  /** A dispute is about an ETag that has been seen. */
  predicate DisputeBelow(row: Link, next: int) {
    row.dispute.Some? ==> row.dispute.value.etag < next
  }

  ghost predicate TableNames(d: Data, next: int) {
    && (forall k :: k in d.tasks ==> k < next)
    && (forall l :: l in d.links ==> l < next && d.links[l].task < next && DisputeBelow(d.links[l], next))
    && (forall id :: id in d.remote ==> id < next && d.remote[id].etag < next)
    && (forall r :: r in d.receipts ==> r < next && d.receipts[r].task < next)
  }

  ghost predicate HistoryNames(links: map<LinkId, Link>, h: History, next: int) {
    && (forall id :: id in h.born ==> id < next && h.born[id] in links && links[h.born[id]].reference)
    && (forall k :: k in h.gone ==> k < next && h.gone[k] < next)
    && (forall l :: l in h.open ==> l in links)
    && (forall r :: r in h.restored || r in h.unlinked ==> r < next)
  }

  /** One link per task, and one link per remote identity. */
  ghost predicate Keys(links: map<LinkId, Link>) {
    && (forall l1, l2 :: l1 in links && l2 in links && links[l1].task == links[l2].task ==> l1 == l2)
    && (forall l1, l2 :: l1 in links && l2 in links && links[l1].external == links[l2].external ==>
          l1 == l2 || links[l1].external.None?)
  }

  /** Link `l` has created nothing and has no request whose outcome is still open. */
  ghost predicate Unsent(h: History, l: LinkId) {
    && (forall id :: id in h.born ==> h.born[id] != l)
    && l !in h.open
  }

  ghost predicate CreateOnce(links: map<LinkId, Link>, h: History) {
    && (forall l :: l in links && links[l].phase.Prepared? ==> links[l].reference && Unsent(h, l))
    && (forall i, j :: i in h.born && j in h.born && h.born[i] == h.born[j] ==> i == j)
  }

  /** Receipts, the tasks they can bring back, and what the log says about them. */
  ghost predicate Holds(d: Data, h: History) {
    && (forall k :: k in h.gone ==> k !in d.tasks)
    && (forall r :: r in d.receipts ==> d.receipts[r].task in h.gone && h.gone[d.receipts[r].task] == r)
    && (forall k1, k2 :: k1 in h.gone && k2 in h.gone && h.gone[k1] == h.gone[k2] ==> k1 == k2)
    && (forall r :: r in h.restored ==> r !in d.receipts && (forall k :: k in h.gone ==> h.gone[k] != r))
    && (forall r :: r in h.unlinked && r in d.receipts ==> !Active(d.receipts[r].expires, d.now))
    && h.restored !! h.unlinked
  }

  // ---- the worker's own knowledge ----

  /** An observation is exact, or out of date and then its ETag no longer matches. */
  ghost predicate Faithful(d: Data, next: int, id: RemoteId, seen: Seen) {
    seen.etag.Some? ==>
      && seen.etag.value < next
      && (id in d.remote && d.remote[id].etag == seen.etag.value ==> d.remote[id].fields == seen.fields)
  }

  ghost predicate LocalFaithful(d: Data, task: TaskId, version: int, local: TaskFields) {
    task in d.tasks ==>
      && version <= d.tasks[task].version
      && (version == d.tasks[task].version ==> d.tasks[task].fields == local)
  }

  /** `merged` is the automatic merge, or the owner's answer to exactly this divergence. */
  ghost predicate Justified(row: Link, plan: Plan) {
    && plan.seen.fields.Some?
    && (|| Reconcile(row.baseline, plan.local, plan.seen.fields.value) == Ok(plan.merged)
        || (&& Authorised(row, plan.version, plan.local, plan.seen)
            && plan.merged == Resolve(row.baseline, plan.local, plan.seen.fields.value, row.choice.value)))
  }

  ghost predicate PlanOk(d: Data, next: int, row: Link, plan: Plan) {
    && row.phase.Linked?
    && row.external == Some(plan.id)
    && LocalFaithful(d, row.task, plan.version, plan.local)
    && Faithful(d, next, plan.id, plan.seen)
    && Justified(row, plan)
  }

  ghost predicate NoActiveHold(d: Data, task: TaskId) {
    forall r :: r in d.receipts && d.receipts[r].task == task ==> !Active(d.receipts[r].expires, d.now)
  }

  ghost predicate ActOk(d: Data, h: History, next: int, link: LinkId, act: Act)
    requires link in d.links
  {
    var row := d.links[link];
    match act
    case Unheld => NoActiveHold(d, row.task)
    case Detaching(remoteGone) => NoActiveHold(d, row.task)
    case Found(version, local) => NoActiveHold(d, row.task) && LocalFaithful(d, row.task, version, local)
    case Claimed(_) => row.phase.Creating? && row.reference && Unsent(h, link)
    case Answered(_, outcome) => row.phase.Creating? && row.reference && (Rejected(outcome) ==> Unsent(h, link))
    case Compared(plan) => PlanOk(d, next, row, plan)
    case Patched(plan, _) => PlanOk(d, next, row, plan)
    case Written(id, etag, _) => !row.phase.Prepared?
  }

  ghost predicate WorkerOk(w: World) {
    w.worker.Busy? ==>
      && (forall id :: id in w.worker.ctx.snapshot ==> Faithful(w.db, w.next, id, w.worker.ctx.snapshot[id]))
      && (w.worker.at.On? ==>
            && w.worker.at.link in w.db.links
            && ActOk(w.db, w.hist, w.next, w.worker.at.link, w.worker.at.act))
  }

  ghost predicate Inv(w: World) {
    && TableNames(w.db, w.next)
    && HistoryNames(w.db.links, w.hist, w.next)
    && Keys(w.db.links)
    && CreateOnce(w.db.links, w.hist)
    && Holds(w.db, w.hist)
    && WorkerOk(w)
  }

  // ---- every step keeps it ----

  lemma KeptByCreateTask(w: World, fields: TaskFields, terms: Terms)
    requires Inv(w)
    ensures Inv(StepCreateTask(w, fields, terms))
  {
  }

  lemma KeptByEditTask(w: World, task: TaskId, fields: TaskFields, terms: Terms)
    requires Inv(w)
    ensures Inv(StepEditTask(w, task, fields, terms))
  {
  }

  lemma KeptByChangeTerms(w: World, task: TaskId, terms: Terms)
    requires Inv(w)
    ensures Inv(StepChangeTerms(w, task, terms))
  {
  }

  lemma KeptByDeleteTask(w: World, task: TaskId)
    requires Inv(w)
    ensures Inv(StepDeleteTask(w, task))
  {
  }

  lemma KeptByDeleteReversibly(w: World, task: TaskId)
    requires Inv(w)
    ensures Inv(StepDeleteReversibly(w, task))
  {
  }

  lemma KeptByUndoDelete(w: World, receipt: ReceiptId)
    requires Inv(w)
    ensures Inv(StepUndoDelete(w, receipt))
  {
  }

  lemma KeptByChoose(w: World, link: LinkId, dispute: int, choice: Choice)
    requires Inv(w)
    ensures Inv(StepChoose(w, link, dispute, choice))
  {
  }

  /** Detaching a link nobody can still bring back the task of. */
  lemma KeptByUnlink(w: World, link: LinkId, cause: Option<ReceiptId>)
    requires Inv(w) && link in w.db.links && (w.worker.Busy? ==> w.worker.at.Ready?)
    requires NoActiveHold(w.db, w.db.links[link].task)
    requires cause.None? || cause == Cause(w, w.db.links[link].task)
    ensures Inv(Unlink(w, link, cause))
  {
  }

  lemma KeptByLeaveUnlinked(w: World, link: LinkId)
    requires Inv(w)
    ensures Inv(StepLeaveUnlinked(w, link))
  {
    if w.worker.Idle? && link in w.db.links && !Held(w, w.db.links[link].task) {
      KeptByUnlink(w, link, Cause(w, w.db.links[link].task));
    }
  }

  lemma KeptByRemoteWrite(w: World, id: RemoteId, fields: Option<TaskFields>, marker: Option<LinkId>,
                          deleted: bool, shared: bool)
    requires Inv(w) && id <= w.next
    ensures Inv(SetRemote(w, id, fields, marker, deleted, shared))
  {
  }

  lemma KeptByGoogle(w: World, id: RemoteId, content: Seen)
    requires Inv(w)
    ensures Inv(StepGoogleCreates(w, content))
    ensures Inv(StepGoogleEdits(w, id, content))
  {
    KeptByRemoteWrite(w, w.next, content.fields, content.marker, content.deleted, content.shared);
    if id in w.db.remote {
      KeptByRemoteWrite(w, id, content.fields, content.marker, content.deleted, content.shared);
    }
  }

  lemma KeptByPurge(w: World, id: RemoteId)
    requires Inv(w)
    ensures Inv(NextOutside(w, GooglePurges(id)))
  {
  }

  lemma KeptByBack(w: World)
    requires Inv(w) && w.worker.Busy?
    ensures Inv(Back(w)) && Inv(w.(worker := Idle))
  {
  }

  lemma KeptByAt(w: World, link: LinkId, act: Act)
    requires Inv(w) && w.worker.Busy?
    requires link in w.db.links && ActOk(w.db, w.hist, w.next, link, act)
    ensures Inv(At(w, link, act))
  {
  }

  lemma KeptByTick(w: World, seconds: nat)
    requires Inv(w)
    ensures Inv(NextOutside(w, Tick(seconds)))
  {
  }

  lemma KeptByCleanUp(w: World, receipt: ReceiptId)
    requires Inv(w)
    ensures Inv(StepCleanUp(w, receipt))
  {
  }

  lemma KeptByListing(w: World, id: RemoteId, hideEtag: bool)
    requires Inv(w)
    ensures Inv(StepBegin(w))
    ensures Inv(StepSee(w, id, hideEtag))
    ensures Inv(StepLoad(w))
  {
  }

  lemma KeptByPrepare(w: World, task: TaskId)
    requires Inv(w)
    ensures Inv(StepPrepare(w, task))
  {
  }

  lemma KeptByVisit(w: World, link: LinkId)
    requires Inv(w)
    ensures Inv(StepVisit(w, link))
    ensures Inv(StepFindTask(w))
  {
  }

  lemma KeptByDetach(w: World)
    requires Inv(w)
    ensures Inv(StepDetach(w))
  {
    if Working(w) && w.worker.at.act.Detaching? {
      KeptByBack(w);
      var cause := if w.worker.at.act.remoteGone then None else Cause(w, Row(w).task);
      KeptByUnlink(Back(w), w.worker.at.link, cause);
    }
  }

  lemma KeptByRecover(w: World, id: RemoteId)
    requires Inv(w)
    ensures Inv(StepRecover(w, id))
  {
    if Working(w) {
      KeptByBack(w);
    }
  }

  lemma KeptByClaim(w: World)
    requires Inv(w)
    ensures Inv(StepClaim(w))
  {
  }

  lemma KeptByPost(w: World, created: bool, outcome: Outcome)
    requires Inv(w)
    ensures Inv(StepPost(w, created, outcome))
  {
    if Working(w) && w.worker.at.act.Claimed? && HonestCreate(w, w.worker.at.act.sent, created, outcome) {
      if created {
        KeptByBirth(w, outcome);
      } else {
        KeptByFruitlessPost(w, outcome);
      }
    }
  }

  lemma KeptByFruitlessPost(w: World, outcome: Outcome)
    requires Inv(w) && Working(w) && w.worker.at.act.Claimed?
    ensures Inv(StepPost(w, false, outcome))
  {
  }

  lemma KeptByBirth(w: World, outcome: Outcome)
    requires Inv(w) && Working(w) && w.worker.at.act.Claimed?
    ensures Inv(StepPost(w, true, outcome))
  {
    if HonestCreate(w, w.worker.at.act.sent, true, outcome) {
      var fields := Some(Echo(w.worker.at.act.sent, None));
      KeptByRemoteWrite(w, w.next, fields, Some(w.worker.at.link), false, false);
      var written := SetRemote(w, w.next, fields, Some(w.worker.at.link), false, false);
      KeptByCredit(written, w.next, outcome);
      BirthIsCredit(w, outcome);
    }
  }

  function Credited(w: World, id: RemoteId, outcome: Outcome): World
    requires Working(w) && w.worker.at.act.Claimed?
  {
    var link := w.worker.at.link;
    At(w, link, Answered(w.worker.at.act.sent, outcome)).
      (hist := w.hist.(open := w.hist.open + {link}, born := w.hist.born[id := link]))
  }

  lemma BirthIsCredit(w: World, outcome: Outcome)
    requires Working(w) && w.worker.at.act.Claimed? && HonestCreate(w, w.worker.at.act.sent, true, outcome)
    ensures var fields := Some(Echo(w.worker.at.act.sent, None));
            StepPost(w, true, outcome) == Credited(SetRemote(w, w.next, fields, Some(w.worker.at.link), false, false), w.next, outcome)
  {
  }

  /** The new remote task is put down to the link. */
  lemma KeptByCredit(w: World, id: RemoteId, outcome: Outcome)
    requires Inv(w) && Working(w) && w.worker.at.act.Claimed? && id < w.next && id !in w.hist.born && !Rejected(outcome)
    ensures Inv(Credited(w, id, outcome))
  {
  }

  lemma KeptBySettle(w: World)
    requires Inv(w)
    ensures Inv(StepSettle(w))
  {
    if Working(w) && w.worker.at.act.Answered? {
      var Answered(sent, outcome) := w.worker.at.act;
      RetryExactlyWhenRejected(outcome);
      KeptByBack(w);
      match CreateResult(outcome)
      case Err(error) => if Retryable(error) { KeptByReopening(w); }
      case Ok(task) => KeptByAt(w, w.worker.at.link, Written(task.id, Some(task.etag), sent));
    }
  }

  /** A request that created nothing leaves the link as if it had never been claimed. */
  lemma KeptByReopening(w: World)
    requires Inv(w) && Working(w) && w.worker.at.act.Answered? && Rejected(w.worker.at.act.outcome)
    ensures Inv(Back(SetRow(w, Row(w).(phase := Prepared))))
  {
  }

  lemma KeptByDispute(w: World, dispute: Dispute)
    requires Inv(w) && Working(w) && w.worker.at.act.Found? && dispute.etag < w.next
    ensures Inv(Back(SetRow(w, Row(w).(dispute := Some(dispute), choice := None))))
  {
  }

  lemma KeptByCompareWith(w: World, id: RemoteId, seen: Seen, disputeId: int)
    requires Inv(w)
    requires Working(w) && w.worker.at.act.Found? && Row(w).phase.Linked? && Row(w).external == Some(id)
    requires Faithful(w.db, w.next, id, seen)
    ensures Inv(CompareWith(w, id, seen, disputeId))
  {
    var Found(version, local) := w.worker.at.act;
    var row := Row(w);
    KeptByBack(w);
    if seen.deleted {
      KeptByAt(w, w.worker.at.link, Detaching(true));
    } else if seen.Usable() {
      var merge := Reconcile(row.baseline, local, seen.fields.value);
      if merge.Ok? {
        KeptByAt(w, w.worker.at.link, Compared(Plan(version, local, id, seen, merge.value)));
      } else if Authorised(row, version, local, seen) {
        var merged := Resolve(row.baseline, local, seen.fields.value, row.choice.value);
        KeptByAt(w, w.worker.at.link, Compared(Plan(version, local, id, seen, merged)));
      } else if seen.etag.Some? {
        KeptByDispute(w, Dispute(disputeId, version, seen.etag.value, local, seen.fields.value));
      }
    }
  }

  lemma KeptByCompare(w: World, hideEtag: bool, disputeId: int)
    requires Inv(w)
    ensures Inv(StepCompare(w, hideEtag, disputeId))
  {
    if Working(w) && w.worker.at.act.Found? && Row(w).phase.Linked? && Row(w).external.Some? {
      var id := Row(w).external.value;
      if id in w.worker.ctx.snapshot {
        KeptByCompareWith(w, id, w.worker.ctx.snapshot[id], disputeId);
      } else if id in w.db.remote {
        KeptByCompareWith(w, id, Look(w.db.remote[id], hideEtag), disputeId);
      }
    }
  }

  lemma KeptByPatch(w: World, applied: bool, acknowledged: bool)
    requires Inv(w)
    ensures Inv(StepPatch(w, applied, acknowledged))
  {
    if Working(w) && w.worker.at.act.Compared? {
      var link, plan := w.worker.at.link, w.worker.at.act.plan;
      if Some(plan.merged) == plan.seen.fields {
        KeptByAt(w, link, Patched(plan, plan.seen.etag));
      } else if applied && Sendable(plan.merged) && plan.id in w.db.remote && Some(w.db.remote[plan.id].etag) == plan.seen.etag {
        KeptByAppliedPatch(w, plan, acknowledged);
      } else {
        KeptByBack(w);
      }
    }
  }

  lemma KeptByAppliedPatch(w: World, plan: Plan, acknowledged: bool)
    requires Inv(w) && Working(w) && w.worker.at.act == Compared(plan) && plan.id in w.db.remote
    ensures var r := w.db.remote[plan.id];
            var echo := Echo(plan.merged, r.fields);
            var written := SetRemote(w, plan.id, Some(echo), r.marker, r.deleted, r.shared);
            Inv(if acknowledged && echo == plan.merged then At(written, w.worker.at.link, Patched(plan, Some(w.next))) else Back(written))
  {
    var r := w.db.remote[plan.id];
    var echo := Echo(plan.merged, r.fields);
    var written := SetRemote(w, plan.id, Some(echo), r.marker, r.deleted, r.shared);
    KeptByRemoteWrite(w, plan.id, Some(echo), r.marker, r.deleted, r.shared);
    if acknowledged {
      KeptByAt(written, w.worker.at.link, Patched(plan, Some(w.next)));
    } else {
      KeptByBack(written);
    }
  }

  lemma KeptByWriteLocal(w: World)
    requires Inv(w)
    ensures Inv(StepWriteLocal(w))
  {
  }

  lemma KeptByRecord(w: World)
    requires Inv(w)
    ensures Inv(StepRecord(w))
  {
  }

  lemma KeptByImport(w: World, id: RemoteId)
    requires Inv(w)
    ensures Inv(StepImport(w, id))
  {
  }
}
