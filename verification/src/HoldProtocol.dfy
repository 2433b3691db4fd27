/** The calendar worker beside the workspace (apps/api/src/sync_service.rs:63-80,394-466,534-868,
    apps/api/src/sync_store.rs:451-547): pulls, the settling of Keep Google, and pushes. Every
    statement and every provider request is one step; the owner may act between any two, the
    worker may crash, and the clock runs. The worker holds the owner's synchronization lock
    while it is busy, so reversible deletion, its undo, moves and the resolution of a held
    deletion do nothing then. */
module HoldProtocol {
  import opened Prelude
  import opened EventShape
  import opened Rows
  import opened Workspace

  /** An event at the provider. */
  type Target = (string, string)

  function TargetOf(m: Mapping): Target {
    (m.remote.calendar, m.remote.event)
  }

  /** What a pull saw of a remote event. */
  datatype Seen = Seen(cancelled: bool, etag: Option<string>)

  /** One row of the list of local changes: the mapping, its event if that is stored, and the deletion
      it is due to, if it was held. */
  datatype Item = Item(row: Mapping, body: Option<EventBody>, cause: Option<Id>)

  /** A request that changes an event at the provider, if it still has the ETag. */
  datatype Request =
    | Put(target: Target, ifMatch: Option<string>, body: Wire)
    | Delete(target: Target, ifMatch: Option<string>)

  datatype Act =
    | Free
    | Applying(mapping: Id, read: Mapping, seen: Seen)
    | Warned(mapping: Id, flagged: bool)
    | Pushing(items: map<Id, Item>)
    | Answered(items: map<Id, Item>, mapping: Id, written: Option<EventBody>)

  datatype Worker = Idle | Busy(act: Act)

  /** Which reversible deletion a held mapping is due to and when its hold ends; which deletions
      were undone; for which ones a calendar DELETE was sent; all requests that change an event. */
  datatype Log = Log(cause: map<Id, (Id, int)>, restored: set<Id>, sent: set<Id>, requests: multiset<Request>)

  datatype World = World(db: Db, worker: Worker, log: Log)

  datatype WorkerStep =
    | Begin
    | Finish
    | Read(mapping: Id, seen: Seen)
    | DropPulled
    | Warn
    | Flag
    | DropReceipts
    | ClearPending
    | LinkCanonical(event: Id)
    | SetBaseline(etag: Option<string>, base: Fingerprint)
    | Adopt(row: Mapping)
    | SettleMissing(mapping: Id)
    | List(calendar: Id)
    | Send(mapping: Id)
    | Record(etag: Option<string>)

  datatype HoldStep =
    | Owner(transaction: Step)
    | Resolve(mapping: Id, choice: Resolution)
    | Works(statement: WorkerStep)

  // ---- the owner ----

  predicate NeedsLock(step: Step) {
    step.OnUndo? && !step.u.Forget?
  }

  /** Other writers leave mappings and conflicts to the steps below. */
  function Tame(db: Db, step: Step): Step {
    if step.Other? && step.o.Elsewhere?
    then Other(step.o.(mappings := db.cal.mappings, conflicts := db.cal.conflicts))
    else step
  }

  predicate IsHeld(mappings: Mappings, m: Id) {
    m in mappings && mappings[m].hold.tombstone
  }

  function Settled(cause: map<Id, (Id, int)>, mappings: Mappings): map<Id, (Id, int)> {
    map m | m in cause && IsHeld(mappings, m) :: cause[m]
  }

  /** A deletion that has just been written names the mapping it holds. */
  function NewCause(cause: map<Id, (Id, int)>, db: Db, after: Db): map<Id, (Id, int)> {
    var r := db.clock.next;
    if r in after.undo.deletes && r !in db.undo.deletes && after.undo.deletes[r].snapshot.core.mapping.Some?
    then cause[after.undo.deletes[r].snapshot.core.mapping.value.0 := (r, after.undo.deletes[r].expires)]
    else cause
  }

  function NewlyRestored(step: Step, db: Db, after: Db): set<Id> {
    if step.OnUndo? && step.u.UndoDeletion? && step.u.receipt in db.undo.deletes && step.u.receipt !in after.undo.deletes
    then {step.u.receipt} else {}
  }

  ghost function NextOwner(w: World, step: Step): World {
    if NeedsLock(step) && w.worker.Busy? then w
    else
      var after := Next(w.db, Tame(w.db, step));
      World(after, w.worker,
            w.log.(cause := Settled(NewCause(w.log.cause, w.db, after), after.cal.mappings),
                   restored := w.log.restored + NewlyRestored(step, w.db, after)))
  }

  /** `resolve_sync_conflict` for the unresolved conflict of a mapping. */
  function ResolvedRow(m: Mapping, choice: Resolution): Mapping {
    var google := choice.KeepGoogle?;
    m.(remote := m.remote.(etag := if google then None else m.remote.etag),
       flags := Flags(!google, if google then false else m.flags.deleted, false, Some(choice),
                      m.flags.settling || m.hold.tombstone),
       hold := if m.hold.tombstone then Hold(None, false) else m.hold)
  }

  /** The receipts of deletions that hold a mapping are dropped. */
  function WithoutReceiptsOf(deletes: DeleteReceipts, m: Id): DeleteReceipts {
    map r | r in deletes && !Names(deletes[r], m) :: deletes[r]
  }

  predicate Names(r: DeleteReceipt, m: Id) {
    r.snapshot.core.mapping.Some? && r.snapshot.core.mapping.value.0 == m
  }

  function WithMappings(w: World, mappings: Mappings): World {
    w.(db := w.db.(cal := w.db.cal.(mappings := mappings)), log := w.log.(cause := Settled(w.log.cause, mappings)))
  }

  function WithoutReceipts(w: World, m: Id): World {
    w.(db := w.db.(undo := w.db.undo.(deletes := WithoutReceiptsOf(w.db.undo.deletes, m))))
  }

  function NextResolve(w: World, m: Id, choice: Resolution): World {
    var mappings := w.db.cal.mappings;
    if m !in mappings || m !in w.db.cal.conflicts then w
    else if mappings[m].hold.tombstone && (!choice.KeepGoogle? || w.worker.Busy?) then w
    else
      var told := if mappings[m].hold.tombstone then WithoutReceipts(w, m) else w;
      var done := WithMappings(told, mappings[m := ResolvedRow(mappings[m], choice)]);
      done.(db := done.db.(cal := done.db.cal.(conflicts := done.db.cal.conflicts - {m})))
  }

  // ---- the worker ----

  function At(w: World, act: Act): World {
    w.(worker := Busy(act))
  }

  /** What the worker has in hand, if it is applying a pulled event to a mapping that exists. */
  predicate AppliesTo(w: World) {
    w.worker.Busy? && w.worker.act.Applying? && w.worker.act.mapping in w.db.cal.mappings
  }

  function StepRead(w: World, m: Id, seen: Seen): World {
    if w.worker == Busy(Free) && m in w.db.cal.mappings then At(w, Applying(m, w.db.cal.mappings[m], seen)) else w
  }

  /** A cancelled remote event: a held mapping goes with its receipts in one transaction; any
      other goes alone. */
  function StepDropPulled(w: World): World {
    if AppliesTo(w) && w.worker.act.seen.cancelled then
      var m := w.worker.act.mapping;
      var told := if w.worker.act.read.hold.tombstone then WithoutReceipts(w, m) else w;
      At(WithMappings(told, w.db.cal.mappings - {m}), Free)
    else w
  }

  /** A conflict row is written first, then the mapping flagged; for a held mapping the receipts
      are dropped after that. A held mapping is left alone if its ETag is the one known. */
  function StepWarn(w: World): World {
    if AppliesTo(w) && Contested(w.worker.act.read, w.worker.act.seen) then
      var m := w.worker.act.mapping;
      At(w.(db := w.db.(cal := w.db.cal.(conflicts := w.db.cal.conflicts + {m}))), Warned(m, false))
    else w
  }

  /** A held deletion is contested by a changed event, a local change by any remote one. */
  predicate Contested(read: Mapping, seen: Seen) {
    if read.hold.tombstone then !seen.cancelled && (seen.etag.None? || read.remote.etag != seen.etag)
    else read.flags.dirty || (read.flags.deleted && !seen.cancelled)
  }

  function StepFlag(w: World): World {
    if w.worker.Busy? && w.worker.act.Warned? && !w.worker.act.flagged && w.worker.act.mapping in w.db.cal.mappings then
      var m := w.worker.act.mapping;
      var row := w.db.cal.mappings[m];
      At(WithMappings(w, w.db.cal.mappings[m := row.(flags := row.flags.(conflict := true))]), Warned(m, true))
    else w
  }

  function StepDropReceipts(w: World): World {
    if w.worker.Busy? && w.worker.act.Warned? && w.worker.act.flagged then
      var m := w.worker.act.mapping;
      At(if IsHeld(w.db.cal.mappings, m) then WithoutReceipts(w, m) else w, Free)
    else w
  }

  /** The statements that apply a remote change to a mapping that is not held. */
  predicate AppliesFreely(w: World) {
    AppliesTo(w) && !w.worker.act.read.hold.tombstone && !w.worker.act.seen.cancelled
  }

  function StepClearPending(w: World): World {
    if AppliesFreely(w) then
      var m := w.worker.act.mapping;
      var row := w.db.cal.mappings[m];
      At(WithMappings(w, w.db.cal.mappings[m := row.(flags := row.flags.(pending := None))]), Free)
    else w
  }

  function StepLinkCanonical(w: World, e: Id): World {
    if AppliesFreely(w) then
      var m := w.worker.act.mapping;
      WithMappings(w, w.db.cal.mappings[m := w.db.cal.mappings[m].(canonical := Some(e))])
    else w
  }

  function StepSetBaseline(w: World, etag: Option<string>, base: Fingerprint): World {
    if AppliesFreely(w) then
      var m := w.worker.act.mapping;
      var row := w.db.cal.mappings[m];
      At(WithMappings(w, w.db.cal.mappings[m := row.(
           remote := row.remote.(etag := etag, base := Some(base), synced := w.db.clock.now),
           flags := row.flags.(dirty := false, deleted := false, pending := None, settling := false))]), Free)
    else w
  }

  /** An imported or newly created event gets a clean mapping of its own. */
  function StepAdopt(w: World, row: Mapping): World {
    if w.worker == Busy(Free) && row.flags == Flags(false, false, false, None, false) && row.hold == Hold(None, false)
       && w.db.clock.next !in w.db.cal.mappings && w.db.clock.next !in w.db.cal.conflicts
       && (forall m :: m in w.db.cal.mappings ==> TargetOf(w.db.cal.mappings[m]) != TargetOf(row))
    then
      WithMappings(w.(db := w.db.(clock := w.db.clock.(next := w.db.clock.next + 1))),
                   w.db.cal.mappings[w.db.clock.next := row])
    else w
  }

  /** Keep Google settles a mapping whose event is gone at the provider. The list this works from
      has no held mapping, and none becomes held while the worker has the lock. */
  function StepSettleMissing(w: World, m: Id): World {
    if w.worker == Busy(Free) && m in w.db.cal.mappings && w.db.cal.mappings[m].flags.settling && !IsHeld(w.db.cal.mappings, m)
    then WithMappings(w, w.db.cal.mappings - {m}) else w
  }

  /** The list of local changes to push. */
  predicate Pushable(row: Mapping, now: int) {
    && (row.flags.dirty || row.flags.deleted) && !row.flags.conflict && !row.flags.settling
    && (row.hold.until.None? || row.hold.until.value <= now)
  }

  function CauseOf(w: World, m: Id): Option<Id> {
    if m in w.log.cause then Some(w.log.cause[m].0) else None
  }

  /** The event of a mapping, as the list of local changes has it. */
  function BodyOf(cal: CalendarTables, row: Mapping): Option<EventBody> {
    if row.canonical.None? then None
    else
      var e := row.canonical.value;
      if e in cal.events then Some(cal.events[e].body) else None
  }

  function Listed(w: World, calendar: Id): map<Id, Item> {
    map m | m in w.db.cal.mappings && w.db.cal.mappings[m].calendar == calendar && Pushable(w.db.cal.mappings[m], w.db.clock.now) ::
      Item(w.db.cal.mappings[m], BodyOf(w.db.cal, w.db.cal.mappings[m]), CauseOf(w, m))
  }

  function StepList(w: World, calendar: Id): World {
    if w.worker == Busy(Free) then At(w, Pushing(Listed(w, calendar))) else w
  }

  /** A DELETE for a deleted mapping or one without its event, a PUT for any other. */
  function StepSend(w: World, m: Id): World {
    if w.worker.Busy? && w.worker.act.Pushing? && m in w.worker.act.items then
      var item := w.worker.act.items[m];
      var target, ifMatch := TargetOf(item.row), item.row.remote.etag;
      if item.row.flags.deleted || item.body.None? then
        At(w.(log := w.log.(
             requests := w.log.requests + multiset{Delete(target, ifMatch)},
             sent := w.log.sent + (if item.cause.Some? then {item.cause.value} else {}))),
           Answered(w.worker.act.items - {m}, m, None))
      else
        At(w.(log := w.log.(requests := w.log.requests + multiset{Put(target, ifMatch, FromLocal(item.body.value))})),
           Answered(w.worker.act.items - {m}, m, item.body))
    else w
  }

  /** What was written becomes the baseline. */
  function Recorded(row: Mapping, etag: Option<string>, body: EventBody, now: int): Mapping {
    row.(remote := row.remote.(etag := etag, base := Some(Full(FromLocal(body))), synced := now), flags := row.flags.(dirty := false))
  }

  function StepRecord(w: World, etag: Option<string>): World {
    if w.worker.Busy? && w.worker.act.Answered? then
      var m, mappings, written := w.worker.act.mapping, w.db.cal.mappings, w.worker.act.written;
      var after :=
        if written.None? then mappings - {m}
        else if m in mappings then mappings[m := Recorded(mappings[m], etag, written.value, w.db.clock.now)]
        else mappings;
      At(WithMappings(w, after), Pushing(w.worker.act.items))
    else w
  }

  function NextWork(w: World, step: WorkerStep): World {
    match step
    case Begin => if w.worker.Idle? then At(w, Free) else w
    case Finish => w.(worker := Idle)
    case Read(m, seen) => StepRead(w, m, seen)
    case DropPulled => StepDropPulled(w)
    case Warn => StepWarn(w)
    case Flag => StepFlag(w)
    case DropReceipts => StepDropReceipts(w)
    case ClearPending => StepClearPending(w)
    case LinkCanonical(e) => StepLinkCanonical(w, e)
    case SetBaseline(etag, base) => StepSetBaseline(w, etag, base)
    case Adopt(row) => StepAdopt(w, row)
    case SettleMissing(m) => StepSettleMissing(w, m)
    case List(calendar) => StepList(w, calendar)
    case Send(m) => StepSend(w, m)
    case Record(etag) => StepRecord(w, etag)
  }

  ghost function NextHold(w: World, step: HoldStep): World {
    match step
    case Owner(s) => NextOwner(w, s)
    case Resolve(m, choice) => NextResolve(w, m, choice)
    case Works(s) => NextWork(w, s)
  }

  ghost function RunHold(w: World, steps: seq<HoldStep>): World
    decreases |steps|
  {
    if steps == [] then w else RunHold(NextHold(w, steps[0]), steps[1..])
  }

  function StartHold(now: int): World {
    World(Start(now), Idle, Log(map[], {}, {}, multiset{}))
  }

  ghost predicate ReachableHold(w: World) {
    exists now, steps :: RunHold(StartHold(now), steps) == w
  }
}
