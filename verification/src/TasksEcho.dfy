/** A remote task the synchronization created is never imported as a second local task, as
    long as its create marker survives until the link records its identity. */
module TasksEcho {
  import opened Prelude
  import opened TasksClient
  import opened TasksProtocol
  import opened TasksSafety
  import opened TasksTheorems

  /** Google's users leave the marker of a created task alone until its link knows the task. */
  ghost predicate MarkerSurvives(w: World, step: Step) {
    step.Outside? && step.e.GoogleEdits? && step.e.id in w.hist.born ==>
      var l := w.hist.born[step.e.id];
      step.e.content.marker == Some(l) || (l in w.db.links && w.db.links[l].external == Some(step.e.id))
  }

  ghost predicate MarkersSurvive(w: World, steps: seq<Step>)
    decreases |steps|
  {
    steps == [] || (MarkerSurvives(w, steps[0]) && MarkersSurvive(Next(w, steps[0]), steps[1..]))
  }

  /** The created task `id` is recognisable: by its marker, or because its link holds its identity. */
  ghost predicate Recognised(w: World, id: RemoteId, marker: Option<LinkId>)
    requires id in w.hist.born
  {
    var l := w.hist.born[id];
    marker == Some(l) || (l in w.db.links && w.db.links[l].external == Some(id))
  }

  /** An imported row is one without a create reference. */
  ghost predicate NoEcho(w: World) {
    forall l :: l in w.db.links && !w.db.links[l].reference && w.db.links[l].external.Some? ==>
      w.db.links[l].external.value !in w.hist.born
  }

  ghost predicate ContextMarked(w: World) {
    w.worker.Busy? ==>
      forall id :: id in w.worker.ctx.snapshot ==>
        && id < w.next
        && (id in w.hist.born ==>
              && Recognised(w, id, w.worker.ctx.snapshot[id].marker)
              && (w.worker.at.Listing? || w.hist.born[id] in w.worker.ctx.references))
  }

  /** A link's identity, once known, is the one being written. */
  ghost predicate IdentityStable(w: World) {
    && (forall l :: l in w.db.links && (w.db.links[l].phase.Prepared? || w.db.links[l].phase.Creating?) ==>
          w.db.links[l].external.None?)
    && (Working(w) && w.worker.at.act.Written? ==>
          Row(w).external.None? || Row(w).external == Some(w.worker.at.act.id))
    && (Working(w) && w.worker.at.act.Written? && !Row(w).reference ==> Row(w).external.Some?)
    && (forall l :: l in w.db.links && w.db.links[l].external.None? ==> w.db.links[l].reference)
    && (forall l :: l in w.db.links && w.db.links[l].external.Some? ==> w.db.links[l].external.value < w.next)
    && (Working(w) && w.worker.at.act.Written? ==> w.worker.at.act.id < w.next)
    && (Working(w) && w.worker.at.act.Answered? && CreateResult(w.worker.at.act.outcome).Ok? ==>
          CreateResult(w.worker.at.act.outcome).value.id < w.next)
  }

  ghost predicate Marked(w: World) {
    && (forall id :: id in w.hist.born && id in w.db.remote ==> Recognised(w, id, w.db.remote[id].marker))
    && ContextMarked(w)
    && IdentityStable(w)
    && NoEcho(w)
  }

  lemma MarkedKeptByOwner(w: World, step: OwnerStep)
    requires Inv(w) && Marked(w)
    ensures Marked(NextOwner(w, step))
  {
  }

  lemma MarkedKeptByOutside(w: World, step: OutsideStep)
    requires Inv(w) && Marked(w) && MarkerSurvives(w, Outside(step))
    ensures Marked(NextOutside(w, step))
  {
  }

  lemma MarkedKeptByScan(w: World, step: ScanStep)
    requires Inv(w) && Marked(w) && !step.Import?
    ensures Marked(NextScan(w, step))
  {
  }

  lemma MarkedKeptByImport(w: World, id: RemoteId)
    requires Inv(w) && Marked(w)
    ensures Marked(StepImport(w, id))
  {
  }

  lemma MarkedKeptByPost(w: World, created: bool, outcome: Outcome)
    requires Inv(w) && Marked(w)
    ensures Marked(StepPost(w, created, outcome))
  {
  }

  lemma ContextKeptByRecord(w: World)
    requires Inv(w) && Marked(w)
    ensures ContextMarked(StepRecord(w))
  {
  }

  lemma IdentityKeptByRecord(w: World)
    requires Inv(w) && Marked(w)
    ensures IdentityStable(StepRecord(w)) && NoEcho(StepRecord(w))
  {
  }

  lemma MarkedKeptByRecord(w: World)
    requires Inv(w) && Marked(w)
    ensures Marked(StepRecord(w))
  {
    ContextKeptByRecord(w);
    IdentityKeptByRecord(w);
  }

  lemma MarkedKeptByPatch(w: World, applied: bool, acknowledged: bool)
    requires Inv(w) && Marked(w)
    ensures Marked(StepPatch(w, applied, acknowledged))
  {
  }

  lemma MarkedKeptByReads(w: World, link: LinkId, id: RemoteId)
    requires Inv(w) && Marked(w)
    ensures Marked(StepVisit(w, link))
    ensures Marked(StepFindTask(w))
    ensures Marked(StepRecover(w, id))
  {
  }

  lemma MarkedKeptByMoving(w: World, act: Act)
    requires Inv(w) && Marked(w) && Working(w)
    requires !act.Written? && !act.Answered?
    ensures Marked(At(w, w.worker.at.link, act)) && Marked(Back(w))
  {
  }

  lemma MarkedKeptByDispute(w: World, dispute: Dispute)
    requires Inv(w) && Marked(w) && Working(w)
    ensures Marked(Back(SetRow(w, Row(w).(dispute := Some(dispute), choice := None))))
  {
  }

  lemma MarkedKeptByDetach(w: World)
    requires Inv(w) && Marked(w)
    ensures Marked(StepDetach(w))
  {
  }

  lemma MarkedKeptByClaim(w: World)
    requires Inv(w) && Marked(w)
    ensures Marked(StepClaim(w))
  {
  }

  lemma MarkedKeptByReopening(w: World)
    requires Inv(w) && Marked(w) && Working(w) && Row(w).phase.Creating?
    ensures Marked(Back(SetRow(w, Row(w).(phase := Prepared))))
  {
  }

  lemma MarkedKeptBySettle(w: World)
    requires Inv(w) && Marked(w)
    ensures Marked(StepSettle(w))
  {
    if Working(w) && w.worker.at.act.Answered? {
      MarkedKeptByMoving(w, Unheld);
      if CreateResult(w.worker.at.act.outcome).Err? {
        MarkedKeptByReopening(w);
      }
    }
  }

  lemma MarkedKeptByCompareWith(w: World, id: RemoteId, seen: Seen, disputeId: int)
    requires Inv(w) && Marked(w) && Working(w) && w.worker.at.act.Found?
    ensures Marked(CompareWith(w, id, seen, disputeId))
  {
    var w' := CompareWith(w, id, seen, disputeId);
    if w'.worker.at.On? {
      MarkedKeptByMoving(w, w'.worker.at.act);
    } else if w'.db == w.db {
      MarkedKeptByMoving(w, Unheld);
    } else {
      var Found(version, local) := w.worker.at.act;
      MarkedKeptByDispute(w, Dispute(disputeId, version, seen.etag.value, local, seen.fields.value));
    }
  }

  lemma MarkedKeptByCompare(w: World, hideEtag: bool, disputeId: int)
    requires Inv(w) && Marked(w)
    ensures Marked(StepCompare(w, hideEtag, disputeId))
  {
    if Working(w) && w.worker.at.act.Found? && Row(w).phase.Linked? && Row(w).external.Some? {
      var id := Row(w).external.value;
      if id in w.worker.ctx.snapshot {
        MarkedKeptByCompareWith(w, id, w.worker.ctx.snapshot[id], disputeId);
      } else if id in w.db.remote {
        MarkedKeptByCompareWith(w, id, Look(w.db.remote[id], hideEtag), disputeId);
      } else {
        MarkedKeptByMoving(w, Detaching(true));
      }
    }
  }

  lemma MarkedKeptByWriteLocal(w: World)
    requires Inv(w) && Marked(w)
    ensures Marked(StepWriteLocal(w))
  {
  }

  lemma MarkedKeptByLink(w: World, step: LinkStep)
    requires Inv(w) && Marked(w)
    ensures Marked(NextLink(w, step))
  {
    match step
    case Visit(link) => MarkedKeptByReads(w, link, 0);
    case FindTask => MarkedKeptByReads(w, 0, 0);
    case Detach => MarkedKeptByDetach(w);
    case Recover(id) => MarkedKeptByReads(w, 0, id);
    case Claim => MarkedKeptByClaim(w);
    case Post(created, outcome) => MarkedKeptByPost(w, created, outcome);
    case Settle => MarkedKeptBySettle(w);
    case Compare(hideEtag, disputeId) => MarkedKeptByCompare(w, hideEtag, disputeId);
    case Patch(applied, acknowledged) => MarkedKeptByPatch(w, applied, acknowledged);
    case WriteLocal => MarkedKeptByWriteLocal(w);
    case Record => MarkedKeptByRecord(w);
  }

  lemma MarkedKept(w: World, step: Step)
    requires Inv(w) && Marked(w) && MarkerSurvives(w, step)
    ensures Marked(Next(w, step))
  {
    match step
    case Owner(o) => MarkedKeptByOwner(w, o);
    case Outside(e) => MarkedKeptByOutside(w, e);
    case Scan(s) =>
      if s.Import? {
        MarkedKeptByImport(w, s.id);
      } else {
        MarkedKeptByScan(w, s);
      }
    case OnLink(l) => MarkedKeptByLink(w, l);
  }

  lemma {:induction false} MarkedOfRun(w: World, steps: seq<Step>)
    requires Inv(w) && Marked(w) && MarkersSurvive(w, steps)
    ensures Marked(Run(w, steps))
    decreases |steps|
  {
    if steps != [] {
      MarkedKept(w, steps[0]);
      InvKept(w, steps[0]);
      MarkedOfRun(Next(w, steps[0]), steps[1..]);
    }
  }

  /** No run imports a task it created itself, not even after a crash between the request
      and its recording, or when the link was detached meanwhile. */
  lemma NoEchoImport(now: int, steps: seq<Step>)
    requires MarkersSurvive(Start(now), steps)
    ensures NoEcho(Run(Start(now), steps))
  {
    MarkedOfRun(Start(now), steps);
  }
}
