/** What the calendar worker and the owner promise each other about a reversible deletion, over
    every run. */
module HoldTheorems {
  import opened Prelude
  import opened Rows
  import opened WorkspaceTheorems
  import opened HoldProtocol
  import opened HoldSafety
  import opened HoldWorker

  lemma HoldKept(w: World, step: HoldStep)
    requires HoldInv(w)
    ensures HoldInv(NextHold(w, step))
  {
    match step
    case Owner(s) => HoldByOwner(w, s);
    case Resolve(m, choice) => HoldByResolve(w, m, choice);
    case Works(s) => HoldByWork(w, s);
  }

  lemma {:induction false} HoldOfRun(w: World, steps: seq<HoldStep>)
    requires HoldInv(w)
    ensures HoldInv(RunHold(w, steps))
    decreases |steps|
  {
    if steps != [] {
      HoldKept(w, steps[0]);
      HoldOfRun(NextHold(w, steps[0]), steps[1..]);
    }
  }

  lemma HoldAtStart(now: int)
    ensures HoldInv(StartHold(now))
  {
    InvAtStart(now);
  }

  lemma HoldOfReachable(w: World)
    requires ReachableHold(w)
    ensures HoldInv(w)
  {
    var now, steps :| RunHold(StartHold(now), steps) == w;
    HoldAtStart(now);
    HoldOfRun(StartHold(now), steps);
  }

  /** No deletion is both undone and, because of it, followed by a calendar DELETE, in either
      order. */
  lemma UndoExcludesCalendarDelete(w: World)
    requires ReachableHold(w)
    ensures w.log.restored !! w.log.sent
  {
    HoldOfReachable(w);
    forall r | r in w.log.sent
      ensures r !in w.log.restored
    {
      assert Past(w.db, w.log.restored, r);
    }
  }

  // ---- what can become of a held deletion ----

  /** Held as it was; at most a conflict has been flagged. */
  predicate StillHeld(w: World, after: World, m: Id)
    requires m in w.db.cal.mappings
  {
    && m in after.db.cal.mappings
    && after.db.cal.mappings[m] == w.db.cal.mappings[m].(flags := w.db.cal.mappings[m].flags.(
         conflict := after.db.cal.mappings[m].flags.conflict))
  }

  /** Gone together with the receipts that could bring it back. */
  predicate PulledAway(after: World, m: Id) {
    m !in after.db.cal.mappings && forall r :: r in after.db.undo.deletes ==> !Names(after.db.undo.deletes[r], m)
  }

  /** Gone after its DELETE was sent, which is after the hold has ended. */
  predicate PushedAway(w: World, after: World, m: Id)
    requires m in w.db.cal.mappings
  {
    && m !in after.db.cal.mappings
    && w.db.cal.mappings[m].hold.until.Some? && w.db.cal.mappings[m].hold.until.value <= w.db.clock.now
  }

  /** Settled in favour of Google: neither held, changed nor deleted, and beyond undoing. */
  predicate GoogleKept(after: World, m: Id) {
    && m in after.db.cal.mappings && m !in after.db.cal.conflicts
    && !after.db.cal.mappings[m].hold.tombstone && after.db.cal.mappings[m].flags.settling
    && !after.db.cal.mappings[m].flags.dirty && !after.db.cal.mappings[m].flags.deleted
    && forall r :: r in after.db.undo.deletes ==> !Names(after.db.undo.deletes[r], m)
  }

  lemma HeldByWork(w: World, step: WorkerStep, m: Id)
    requires HoldInv(w) && IsHeld(w.db.cal.mappings, m)
    ensures var after := NextWork(w, step);
            || StillHeld(w, after, m)
            || (step.DropPulled? && PulledAway(after, m))
            || (step.Record? && PushedAway(w, after, m))
  {
  }

  lemma HeldByResolve(w: World, k: Id, choice: Resolution, m: Id)
    requires HoldInv(w) && IsHeld(w.db.cal.mappings, m)
    ensures var after := NextResolve(w, k, choice);
            || StillHeld(w, after, m)
            || (k == m && choice.KeepGoogle? && m in w.db.cal.conflicts && w.worker.Idle? && GoogleKept(after, m))
  {
  }

  /** From a held deletion a pull keeps the hold, at most flagging a conflict, or removes it
      with its receipts; a push removes it once the hold has ended; and no choice but Keep Google
      settles its conflict. */
  lemma HeldOnlySettles(w: World, step: HoldStep, m: Id)
    requires ReachableHold(w) && IsHeld(w.db.cal.mappings, m) && !step.Owner?
    ensures var after := NextHold(w, step);
            || StillHeld(w, after, m)
            || (step == Works(DropPulled) && PulledAway(after, m))
            || (step.Works? && step.statement.Record? && PushedAway(w, after, m))
            || (step == Resolve(m, KeepGoogle) && GoogleKept(after, m))
  {
    HoldOfReachable(w);
    match step
    case Resolve(k, choice) => HeldByResolve(w, k, choice, m);
    case Works(s) => HeldByWork(w, s, m);
  }

  // ---- what a choice means ----

  /** The mapping will be pushed as the owner left it, with its old ETag as the condition. */
  predicate OwnSideKept(was: Mapping, row: Mapping, choice: Resolution) {
    && row.flags.dirty && row.flags.deleted == was.flags.deleted && !row.flags.conflict && row.flags.pending == Some(choice)
    && row.flags.settling == was.flags.settling
    && row.remote == was.remote && row.canonical == was.canonical && row.calendar == was.calendar && row.hold == was.hold
  }

  /** Nothing is left to push, and the ETag is forgotten, so that the next pull applies Google's side. */
  predicate GoogleSideKept(was: Mapping, row: Mapping) {
    && !row.flags.dirty && !row.flags.deleted && !row.flags.conflict && row.flags.pending == Some(KeepGoogle)
    && row.remote == was.remote.(etag := None) && row.canonical == was.canonical && row.calendar == was.calendar
    && !row.hold.tombstone && (was.hold.tombstone ==> row.flags.settling && row.hold.until.None?)
  }

  predicate Choosable(w: World, m: Id, choice: Resolution) {
    && m in w.db.cal.mappings && m in w.db.cal.conflicts
    && (IsHeld(w.db.cal.mappings, m) ==> choice.KeepGoogle? && w.worker.Idle?)
  }

  /** A choice settles exactly one conflict, for the side that was chosen; what is not held can then be
      pushed at once, if Google's side was not. */
  lemma ChoiceMeans(w: World, m: Id, choice: Resolution)
    requires HoldInv(w)
    ensures var after := NextResolve(w, m, choice);
            if !Choosable(w, m, choice) then after == w
            else
              && m in after.db.cal.mappings && after.db.cal.conflicts == w.db.cal.conflicts - {m}
              && after.db.cal.mappings == w.db.cal.mappings[m := after.db.cal.mappings[m]] && after.db.cal.events == w.db.cal.events
              && var was, row := w.db.cal.mappings[m], after.db.cal.mappings[m];
                 if choice.KeepGoogle? then GoogleSideKept(was, row) && !Pushable(row, w.db.clock.now)
                 else
                   && OwnSideKept(was, row, choice)
                   && (Pushable(row, w.db.clock.now) <==>
                         !was.flags.settling && (was.hold.until.Some? ==> was.hold.until.value <= w.db.clock.now))
  {
  }
}
