/** After Keep Google has settled a contested deletion, nothing is written to the event at the
    provider until the owner changes it again (apps/api/src/sync_store.rs:462-531,
    apps/api/src/sync_service.rs:435-466,557-583,793-810). */
module HoldQuiet {
  import opened Prelude
  import opened EventShape
  import opened Rows
  import opened RecurrenceLineage
  import opened Transactions
  import opened DeleteUndo
  import opened DeleteRoundTrip
  import opened Workspace
  import opened WorkspaceTheorems
  import opened HoldProtocol
  import opened HoldSafety
  import opened HoldOwner
  import opened HoldWorker
  import opened HoldTheorems

  /** Mapping `m` is of the event `target` at the provider. */
  predicate Of(mappings: Mappings, target: Target, m: Id) {
    m in mappings && TargetOf(mappings[m]) == target
  }

  predicate Calm(row: Mapping) {
    !row.flags.dirty && !row.flags.deleted && !row.hold.tombstone
  }

  ghost predicate CalmItems(items: map<Id, Item>, target: Target) {
    forall m :: m in items ==> TargetOf(items[m].row) != target
  }

  ghost predicate CalmAct(mappings: Mappings, act: Act, target: Target) {
    match act
    case Free => true
    case Applying(m, read, seen) => Of(mappings, target, m) ==> Calm(read)
    case Warned(m, flagged) => !Of(mappings, target, m)
    case Pushing(items) => CalmItems(items, target)
    case Answered(items, m, written) => CalmItems(items, target)
  }

  ghost predicate CalmRows(cal: CalendarTables, target: Target) {
    forall m :: Of(cal.mappings, target, m) ==> Calm(cal.mappings[m]) && m !in cal.conflicts
  }

  /** There is nothing to push to `target`, and nothing of it is on its way. */
  ghost predicate Quiet(w: World, target: Target) {
    CalmRows(w.db.cal, target) && (w.worker.Busy? ==> CalmAct(w.db.cal.mappings, w.worker.act, target))
  }

  // ---- what counts as a local action ----

  /** The owner's own transactions, as opposed to pulls, housekeeping and the clock. */
  predicate OwnTransaction(step: Step) {
    || step.OnTasks?
    || (step.OnEvents? && (step.e.NewEvent? || step.e.EditEvent? || step.e.RemoveEvent?))
    || (step.OnUndo? && !step.u.Forget?)
  }

  /** No request for `target` was sent in between, neither PUT nor DELETE. */
  ghost predicate SameRequests(w: World, after: World, target: Target) {
    forall r: Request :: r.target == target ==> after.log.requests[r] == w.log.requests[r]
  }

  /** One of the owner's transactions that changes the mapping of `target`. */
  ghost predicate LocalAction(w: World, step: HoldStep, target: Target) {
    step.Owner? && OwnTransaction(step.transaction) &&
      exists m :: Of(w.db.cal.mappings, target, m) && m in NextHold(w, step).db.cal.mappings
        && NextHold(w, step).db.cal.mappings[m] != w.db.cal.mappings[m]
  }

  ghost predicate NoLocalAction(w: World, steps: seq<HoldStep>, target: Target)
    decreases |steps|
  {
    steps == [] || (!LocalAction(w, steps[0], target) && NoLocalAction(NextHold(w, steps[0]), steps[1..], target))
  }

  // ---- transactions and mappings ----

  /** No mapping is new, and each is still of the same event. */
  ghost predicate TargetsKept(before: Mappings, after: Mappings) {
    forall m :: m in after ==> m in before && TargetOf(after[m]) == TargetOf(before[m])
  }

  /** The mapping of `target`, if it is still there, says the same about pushing. */
  ghost predicate CalmKept(before: Mappings, after: Mappings, target: Target) {
    forall m :: Of(before, target, m) && m in after ==> after[m].flags == before[m].flags && after[m].hold == before[m].hold
  }

  lemma BaseKeepsTargets(before: Db, t: Id, base: Db, s: Snapshot)
    requires t in before.tasks && Base(before, base, t, s)
    ensures TargetsKept(before.cal.mappings, base.cal.mappings) && base.cal.conflicts == before.cal.conflicts
  {
    if MappingId(before, t).Some? {
      TakenMapping(before, t);
      RepairedMapping(Taken(before, t));
    }
  }

  lemma TargetsKeptByDeletion(db: Db, t: Id, expected: int, validated: Option<Snapshot>, after: Db)
    requires Deletes(db, t, expected, validated, after)
    ensures TargetsKept(db.cal.mappings, after.cal.mappings) && after.cal.conflicts == db.cal.conflicts
  {
    var base, s := DeletionIs(db, t, expected, validated, after);
    var m := MappingId(db, t);
    var gone := EventsOf(base.cal.events, {s.core.id});
    BaseKeepsTargets(db, t, base, s);
    DeletedTables(base, s, m);
    HoldKeepsTargets(base.cal.mappings, m, base.clock.now + UNDO_WINDOW, gone);
  }

  lemma HoldKeepsTargets(mappings: Mappings, m: Option<Id>, expires: int, gone: set<Id>)
    ensures TargetsKept(mappings, CutMappings(HoldMapping(mappings, m, expires), gone))
  {
    var held := HoldMapping(mappings, m, expires);
    assert TargetsKept(mappings, held);
  }

  lemma TargetsKeptByUndo(db: Db, r: Id, provider: Option<AppError>)
    requires UndoDelete(db, r, provider).Ok?
    ensures TargetsKept(db.cal.mappings, UndoDelete(db, r, provider).value.cal.mappings)
    ensures UndoDelete(db, r, provider).value.cal.conflicts == db.cal.conflicts
  {
  }

  lemma TaskLeavesConflicts(db: Db, step: TaskStep)
    requires Lines(db.tasks)
    ensures NextTask(db, step).cal.conflicts == db.cal.conflicts
  {
    match step
    case EditTask(t, request, scope, block) =>
      if UpdateTask(db, t, request, scope, block).Ok? {
        var task := db.tasks[t];
        if task.Done() && !request.status.Completed? {
          assert t !in SuccessorsOf(db.tasks, t) by {
            assert t in SuccessorsOf(db.tasks, t) ==> SourceDone(db.tasks, t, t);
          }
        }
      }
    case _ =>
  }

  lemma EventLeavesConflicts(db: Db, step: EventStep)
    ensures NextEvent(db, step).cal.conflicts == db.cal.conflicts
  {
  }

  lemma MoveLeavesConflicts(db: Db, step: UndoStep)
    requires step.MoveItemTo? || step.UndoMoveOf? || step.Forget?
    ensures NextUndo(db, step).cal.conflicts == db.cal.conflicts
  {
  }

  lemma PlainKeepsTargets(db: Db, step: Step)
    requires Inv(db) && Plain(step)
    ensures var after := Next(db, Tame(db, step));
            TargetsKept(db.cal.mappings, after.cal.mappings) && after.cal.conflicts == db.cal.conflicts
  {
    PlainOnward(db, step);
    match step
    case OnTasks(t) => TaskLeavesConflicts(db, t);
    case OnEvents(e) => EventLeavesConflicts(db, e);
    case OnUndo(u) => MoveLeavesConflicts(db, u);
    case Other(o) =>
  }

  lemma TransactionKeepsTargets(db: Db, step: Step)
    requires Inv(db)
    ensures var after := Next(db, Tame(db, step));
            TargetsKept(db.cal.mappings, after.cal.mappings) && after.cal.conflicts == db.cal.conflicts
  {
    if Plain(step) {
      PlainKeepsTargets(db, step);
    } else {
      assert Tame(db, step) == step;
      match step.u
      case DeleteTaskReversibly(t, expected, validated) =>
        var outcome := DeleteReversibly(db, t, expected, validated);
        if outcome.Ok? && outcome.value.Done? {
          TargetsKeptByDeletion(db, t, expected, validated, outcome.value.db);
        }
      case UndoDeletion(r, provider) =>
        if UndoDelete(db, r, provider).Ok? {
          TargetsKeptByUndo(db, r, provider);
        }
    }
  }

  /** Pulls, housekeeping, the clock and other writers change no flag and no hold. */
  lemma OthersKeepCalm(db: Db, step: Step, target: Target)
    requires !OwnTransaction(step)
    ensures CalmKept(db.cal.mappings, Next(db, Tame(db, step)).cal.mappings, target)
  {
  }

  // ---- every step keeps the quiet ----

  lemma QuietByRows(w: World, after: Db, target: Target)
    requires Quiet(w, target) && after.cal.conflicts == w.db.cal.conflicts
    requires TargetsKept(w.db.cal.mappings, after.cal.mappings) && CalmKept(w.db.cal.mappings, after.cal.mappings, target)
    ensures CalmRows(after.cal, target) && (w.worker.Busy? ==> CalmAct(after.cal.mappings, w.worker.act, target))
  {
  }

  lemma QuietByOwner(w: World, step: Step, target: Target)
    requires HoldInv(w) && Quiet(w, target) && !LocalAction(w, Owner(step), target)
    ensures Quiet(NextOwner(w, step), target) && NextOwner(w, step).log.requests == w.log.requests
  {
    if !(NeedsLock(step) && w.worker.Busy?) {
      var after := Next(w.db, Tame(w.db, step));
      TransactionKeepsTargets(w.db, step);
      assert NextHold(w, Owner(step)).db == after;
      if !OwnTransaction(step) {
        OthersKeepCalm(w.db, step, target);
      }
      QuietByRows(w, after, target);
    }
  }

  lemma QuietByPulls(w: World, target: Target)
    requires HoldInv(w) && Quiet(w, target)
    ensures Quiet(StepDropPulled(w), target) && Quiet(StepWarn(w), target)
    ensures Quiet(StepFlag(w), target) && Quiet(StepDropReceipts(w), target)
  {
  }

  lemma QuietByApplying(w: World, e: Id, etag: Option<string>, base: Fingerprint, target: Target)
    requires HoldInv(w) && Quiet(w, target)
    ensures Quiet(StepClearPending(w), target) && Quiet(StepLinkCanonical(w, e), target)
    ensures Quiet(StepSetBaseline(w, etag, base), target)
  {
  }

  lemma QuietByAdopt(w: World, row: Mapping, target: Target)
    requires HoldInv(w) && Quiet(w, target)
    ensures Quiet(StepAdopt(w, row), target)
  {
  }

  lemma QuietBySettling(w: World, m: Id, target: Target)
    requires HoldInv(w) && Quiet(w, target)
    ensures Quiet(StepSettleMissing(w, m), target)
  {
  }

  /** Nothing of a quiet event is listed, so nothing is sent. */
  lemma QuietByPush(w: World, calendar: Id, m: Id, target: Target)
    requires HoldInv(w) && Quiet(w, target)
    ensures Quiet(StepList(w, calendar), target)
    ensures Quiet(StepSend(w, m), target) && SameRequests(w, StepSend(w, m), target)
  {
  }

  lemma QuietByRecord(w: World, etag: Option<string>, target: Target)
    requires HoldInv(w) && Quiet(w, target)
    ensures Quiet(StepRecord(w, etag), target)
  {
  }

  lemma QuietByResolve(w: World, m: Id, choice: Resolution, target: Target)
    requires HoldInv(w) && Quiet(w, target)
    ensures Quiet(NextResolve(w, m, choice), target) && NextResolve(w, m, choice).log.requests == w.log.requests
  {
  }

  lemma QuietByWork(w: World, step: WorkerStep, target: Target)
    requires HoldInv(w) && Quiet(w, target)
    ensures Quiet(NextWork(w, step), target) && SameRequests(w, NextWork(w, step), target)
  {
    match step
    case Begin =>
    case Finish =>
    case Read(m, seen) =>
    case DropPulled => QuietByPulls(w, target);
    case Warn => QuietByPulls(w, target);
    case Flag => QuietByPulls(w, target);
    case DropReceipts => QuietByPulls(w, target);
    case ClearPending => QuietByApplying(w, 0, None, Legacy("", "", (0, 0), "", Once), target);
    case LinkCanonical(e) => QuietByApplying(w, e, None, Legacy("", "", (0, 0), "", Once), target);
    case SetBaseline(etag, base) => QuietByApplying(w, 0, etag, base, target);
    case Adopt(row) => QuietByAdopt(w, row, target);
    case SettleMissing(m) => QuietBySettling(w, m, target);
    case List(calendar) => QuietByPush(w, calendar, 0, target);
    case Send(m) => QuietByPush(w, 0, m, target);
    case Record(etag) => QuietByRecord(w, etag, target);
  }

  lemma QuietKept(w: World, step: HoldStep, target: Target)
    requires HoldInv(w) && Quiet(w, target) && !LocalAction(w, step, target)
    ensures Quiet(NextHold(w, step), target) && SameRequests(w, NextHold(w, step), target)
  {
    match step
    case Owner(s) => QuietByOwner(w, s, target);
    case Resolve(m, choice) => QuietByResolve(w, m, choice, target);
    case Works(s) => QuietByWork(w, s, target);
  }

  lemma {:induction false} QuietOfRun(w: World, steps: seq<HoldStep>, target: Target)
    requires HoldInv(w) && Quiet(w, target) && NoLocalAction(w, steps, target)
    ensures SameRequests(w, RunHold(w, steps), target)
    decreases |steps|
  {
    if steps != [] {
      HoldKept(w, steps[0]);
      QuietKept(w, steps[0], target);
      QuietOfRun(NextHold(w, steps[0]), steps[1..], target);
    }
  }

  // ---- one mapping per event at the provider ----

  ghost predicate OneTarget(mappings: Mappings) {
    forall m, k :: m in mappings && k in mappings && TargetOf(mappings[m]) == TargetOf(mappings[k]) ==> m == k
  }

  lemma OneTargetByWork(w: World, step: WorkerStep)
    requires OneTarget(w.db.cal.mappings)
    ensures OneTarget(NextWork(w, step).db.cal.mappings)
  {
  }

  lemma OneTargetKept(w: World, step: HoldStep)
    requires HoldInv(w) && OneTarget(w.db.cal.mappings)
    ensures OneTarget(NextHold(w, step).db.cal.mappings)
  {
    match step
    case Owner(s) => TransactionKeepsTargets(w.db, s);
    case Resolve(m, choice) =>
    case Works(s) => OneTargetByWork(w, s);
  }

  lemma {:induction false} OneTargetOfRun(w: World, steps: seq<HoldStep>)
    requires HoldInv(w) && OneTarget(w.db.cal.mappings)
    ensures OneTarget(RunHold(w, steps).db.cal.mappings)
    decreases |steps|
  {
    if steps != [] {
      HoldKept(w, steps[0]);
      OneTargetKept(w, steps[0]);
      OneTargetOfRun(NextHold(w, steps[0]), steps[1..]);
    }
  }

  lemma OneTargetOfReachable(w: World)
    requires ReachableHold(w)
    ensures OneTarget(w.db.cal.mappings)
  {
    var now, steps :| RunHold(StartHold(now), steps) == w;
    HoldAtStart(now);
    OneTargetOfRun(StartHold(now), steps);
  }

  // ---- the theorem ----

  lemma KeepGoogleIsQuiet(w: World, m: Id)
    requires ReachableHold(w) && IsHeld(w.db.cal.mappings, m) && m in w.db.cal.conflicts && w.worker.Idle?
    ensures Quiet(NextResolve(w, m, KeepGoogle), TargetOf(w.db.cal.mappings[m]))
  {
    OneTargetOfReachable(w);
  }

  /** Keep Google is final: whatever the worker, the clock, Google and other transactions do
      afterwards, neither PUT nor DELETE is sent for that event until one of the owner's
      transactions changes its mapping. */
  lemma KeepGoogleIsFinal(w: World, m: Id, steps: seq<HoldStep>)
    requires ReachableHold(w) && IsHeld(w.db.cal.mappings, m) && m in w.db.cal.conflicts && w.worker.Idle?
    requires NoLocalAction(NextResolve(w, m, KeepGoogle), steps, TargetOf(w.db.cal.mappings[m]))
    ensures var target := TargetOf(w.db.cal.mappings[m]);
            SameRequests(w, RunHold(NextResolve(w, m, KeepGoogle), steps), target)
  {
    HoldOfReachable(w);
    HoldByResolve(w, m, KeepGoogle);
    KeepGoogleIsQuiet(w, m);
    QuietOfRun(NextResolve(w, m, KeepGoogle), steps, TargetOf(w.db.cal.mappings[m]));
  }
}
