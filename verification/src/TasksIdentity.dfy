/** Recording an identity never meets the unique index, unless somebody at Google copies a create
    marker to another task (apps/api/src/google_tasks_sync.rs:234-300,437-452,
    migrations/0022_google_tasks.sql:31-56). */
module TasksIdentity {
  import opened Prelude
  import opened TasksClient
  import opened TasksProtocol
  import opened TasksSafety
  import opened TasksTheorems
  import opened TasksEcho

  /** Google's users write a create marker nowhere but on the task that was created with it. */
  ghost predicate MarkerIsOriginal(w: World, step: Step) {
    && (step.Outside? && step.e.GoogleCreates? ==> step.e.content.marker.None?)
    && (step.Outside? && step.e.GoogleEdits? ==> Original(w.hist, step.e.id, step.e.content.marker))
  }

  predicate Original(h: History, id: RemoteId, marker: Option<LinkId>) {
    marker.Some? ==> id in h.born && h.born[id] == marker.value
  }

  ghost predicate MarkersLeftAlone(w: World, steps: seq<Step>)
    decreases |steps|
  {
    steps == [] || (MarkerSurvives(w, steps[0]) && MarkerIsOriginal(w, steps[0]) && MarkersLeftAlone(Next(w, steps[0]), steps[1..]))
  }

  // ---- what such runs keep ----

  ghost predicate OwnMarkers(w: World) {
    && (forall id :: id in w.db.remote ==> Original(w.hist, id, w.db.remote[id].marker))
    && (w.worker.Busy? ==> forall id :: id in w.worker.ctx.snapshot ==> Original(w.hist, id, w.worker.ctx.snapshot[id].marker))
  }

  predicate Owns(h: History, l: LinkId, id: RemoteId) {
    id in h.born ==> h.born[id] == l
  }

  /** Whoever holds the identity of a created task, or is about to record it, created it. */
  ghost predicate OwnClaims(w: World) {
    && (forall l :: l in w.db.links && w.db.links[l].external.Some? ==> Owns(w.hist, l, w.db.links[l].external.value))
    && (Working(w) && w.worker.at.act.Written? ==>
          && Owns(w.hist, w.worker.at.link, w.worker.at.act.id)
          && (w.worker.at.act.id in w.hist.born || Row(w).external == Some(w.worker.at.act.id)))
    && (Working(w) && w.worker.at.act.Answered? && CreateResult(w.worker.at.act.outcome).Ok? ==>
          var id := CreateResult(w.worker.at.act.outcome).value.id;
          id in w.hist.born && w.hist.born[id] == w.worker.at.link)
  }

  ghost predicate Proper(w: World) {
    Inv(w) && Marked(w) && OwnMarkers(w) && OwnClaims(w)
  }

  lemma OwnByOwner(w: World, step: OwnerStep)
    requires Proper(w)
    ensures OwnMarkers(NextOwner(w, step)) && OwnClaims(NextOwner(w, step))
  {
  }

  lemma OwnByOutside(w: World, step: OutsideStep)
    requires Proper(w) && MarkerIsOriginal(w, Outside(step))
    ensures OwnMarkers(NextOutside(w, step)) && OwnClaims(NextOutside(w, step))
  {
  }

  lemma OwnByScan(w: World, step: ScanStep)
    requires Proper(w) && !step.Import?
    ensures OwnMarkers(NextScan(w, step)) && OwnClaims(NextScan(w, step))
  {
  }

  lemma OwnByImport(w: World, id: RemoteId)
    requires Proper(w)
    ensures OwnMarkers(StepImport(w, id)) && OwnClaims(StepImport(w, id))
  {
  }

  lemma OwnByMoving(w: World, act: Act)
    requires Proper(w) && Working(w) && !act.Written? && !act.Answered?
    ensures OwnMarkers(At(w, w.worker.at.link, act)) && OwnClaims(At(w, w.worker.at.link, act))
    ensures OwnMarkers(Back(w)) && OwnClaims(Back(w))
  {
  }

  lemma OwnByReads(w: World, link: LinkId)
    requires Proper(w)
    ensures OwnMarkers(StepVisit(w, link)) && OwnClaims(StepVisit(w, link))
    ensures OwnMarkers(StepFindTask(w)) && OwnClaims(StepFindTask(w))
  {
  }

  lemma OwnByRecover(w: World, id: RemoteId)
    requires Proper(w)
    ensures OwnMarkers(StepRecover(w, id)) && OwnClaims(StepRecover(w, id))
  {
  }

  lemma OwnByPost(w: World, created: bool, outcome: Outcome)
    requires Proper(w)
    ensures OwnMarkers(StepPost(w, created, outcome)) && OwnClaims(StepPost(w, created, outcome))
  {
  }

  lemma OwnBySettle(w: World)
    requires Proper(w)
    ensures OwnMarkers(StepSettle(w)) && OwnClaims(StepSettle(w))
  {
  }

  lemma OwnByClaim(w: World)
    requires Proper(w)
    ensures OwnMarkers(StepClaim(w)) && OwnClaims(StepClaim(w))
    ensures OwnMarkers(StepDetach(w)) && OwnClaims(StepDetach(w))
  {
  }

  lemma OwnByCompareWith(w: World, id: RemoteId, seen: Seen, disputeId: int)
    requires Proper(w) && Working(w) && w.worker.at.act.Found?
    ensures OwnMarkers(CompareWith(w, id, seen, disputeId)) && OwnClaims(CompareWith(w, id, seen, disputeId))
  {
    var w' := CompareWith(w, id, seen, disputeId);
    if w'.worker.at.On? {
      OwnByMoving(w, w'.worker.at.act);
    }
  }

  lemma OwnByCompare(w: World, hideEtag: bool, disputeId: int)
    requires Proper(w)
    ensures OwnMarkers(StepCompare(w, hideEtag, disputeId)) && OwnClaims(StepCompare(w, hideEtag, disputeId))
  {
    if Working(w) && w.worker.at.act.Found? && Row(w).phase.Linked? && Row(w).external.Some? {
      var id := Row(w).external.value;
      if id in w.worker.ctx.snapshot {
        OwnByCompareWith(w, id, w.worker.ctx.snapshot[id], disputeId);
      } else if id in w.db.remote {
        OwnByCompareWith(w, id, Look(w.db.remote[id], hideEtag), disputeId);
      } else {
        OwnByMoving(w, Detaching(true));
      }
    }
  }

  lemma OwnByPatch(w: World, applied: bool, acknowledged: bool)
    requires Proper(w)
    ensures OwnMarkers(StepPatch(w, applied, acknowledged)) && OwnClaims(StepPatch(w, applied, acknowledged))
  {
  }

  lemma OwnByWriteLocal(w: World)
    requires Proper(w)
    ensures OwnMarkers(StepWriteLocal(w)) && OwnClaims(StepWriteLocal(w))
  {
  }

  lemma OwnByRecord(w: World)
    requires Proper(w)
    ensures OwnMarkers(StepRecord(w)) && OwnClaims(StepRecord(w))
  {
  }

  lemma OwnByLink(w: World, step: LinkStep)
    requires Proper(w)
    ensures OwnMarkers(NextLink(w, step)) && OwnClaims(NextLink(w, step))
  {
    match step
    case Visit(link) => OwnByReads(w, link);
    case FindTask => OwnByReads(w, 0);
    case Detach => OwnByClaim(w);
    case Recover(id) => OwnByRecover(w, id);
    case Claim => OwnByClaim(w);
    case Post(created, outcome) => OwnByPost(w, created, outcome);
    case Settle => OwnBySettle(w);
    case Compare(hideEtag, disputeId) => OwnByCompare(w, hideEtag, disputeId);
    case Patch(applied, acknowledged) => OwnByPatch(w, applied, acknowledged);
    case WriteLocal => OwnByWriteLocal(w);
    case Record => OwnByRecord(w);
  }

  lemma OwnKept(w: World, step: Step)
    requires Proper(w) && MarkerIsOriginal(w, step)
    ensures OwnMarkers(Next(w, step)) && OwnClaims(Next(w, step))
  {
    match step
    case Owner(o) => OwnByOwner(w, o);
    case Outside(e) => OwnByOutside(w, e);
    case Scan(s) => if s.Import? { OwnByImport(w, s.id); } else { OwnByScan(w, s); }
    case OnLink(l) => OwnByLink(w, l);
  }

  lemma ProperKept(w: World, step: Step)
    requires Proper(w) && MarkerSurvives(w, step) && MarkerIsOriginal(w, step)
    ensures Proper(Next(w, step))
  {
    InvKept(w, step);
    MarkedKept(w, step);
    OwnKept(w, step);
  }

  lemma {:induction false} ProperOfRun(w: World, steps: seq<Step>)
    requires Proper(w) && MarkersLeftAlone(w, steps)
    ensures Proper(Run(w, steps))
    decreases |steps|
  {
    if steps != [] {
      ProperKept(w, steps[0]);
      ProperOfRun(Next(w, steps[0]), steps[1..]);
    }
  }

  /** In every run in which create markers are left alone, the identity that is about to be
      recorded belongs to no other link: the index never stands in the way. */
  lemma RecordNeverMeetsIndex(now: int, steps: seq<Step>, k: LinkId)
    requires MarkersLeftAlone(Start(now), steps)
    ensures var w := Run(Start(now), steps);
            Working(w) && w.worker.at.act.Written? && k in w.db.links && w.db.links[k].external == Some(w.worker.at.act.id) ==>
              k == w.worker.at.link
  {
    ProperOfRun(Start(now), steps);
    var w := Run(Start(now), steps);
    if Working(w) && w.worker.at.act.Written? && k in w.db.links && w.db.links[k].external == Some(w.worker.at.act.id) {
      assert Owns(w.hist, k, w.worker.at.act.id);
    }
  }
}
