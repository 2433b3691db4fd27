/** The Google Tasks synchronization protocol as a state machine
    (apps/api/src/google_tasks_sync.rs, apps/api/src/google_tasks_store.rs).

    One owner and one task list. Every SQL statement or transaction and every provider
    request is one atomic step. The owner, Google, the clock and a crash may act between
    any two of them. The worker holds the owner's synchronization lock from `Begin` until it
    becomes `Idle` again, so steps that need the lock do nothing while it is busy. A step whose
    guard fails leaves the world as it was. */
module TasksProtocol {
  import opened Prelude
  import opened SharedFields
  import opened TasksClient

  type TaskId = int
  type LinkId = int
  type ReceiptId = int

  /** What decides, besides the version, whether the store accepts an update of a task's shared
      fields: whether the columns that the update repeats still pass the checks, whether the task
      recurs, whether the next occurrence stands in the way of reopening it, the days to which its
      deadline cannot be moved, because the zone skips that hour there, and those after which there is
      no next occurrence any more. */
  datatype Terms = Terms(sound: bool, recurs: bool, blocked: bool, skipped: set<int>, last: set<int>)

  datatype Local = Local(fields: TaskFields, version: int, terms: Terms)

  /** `google_task_deadline` and `update_task` accept `merged` for the task. */
  predicate Accepts(task: Local, merged: TaskFields) {
    && task.terms.sound
    && (task.terms.recurs ==> merged.date.Some?)
    && (merged.date.Some? && merged.date != task.fields.date ==> merged.date.value !in task.terms.skipped)
    && (task.fields.completed && !merged.completed ==> !task.terms.blocked)
    && (task.terms.recurs && !task.fields.completed && merged.completed && merged.date.Some? ==>
          merged.date.value !in task.terms.last)
  }

  datatype Phase = Prepared | Creating | Linked | Detached

  datatype Dispute = Dispute(id: int, version: int, etag: ETag, local: TaskFields, google: TaskFields)

  /** `reference` says that the row carries a create reference; the marker text is a
      function of the link's own id, so the id stands for it. */
  datatype Link = Link(
    task: TaskId,
    phase: Phase,
    baseline: TaskFields,
    external: Option<RemoteId>,
    reference: bool,
    dispute: Option<Dispute>,
    choice: Option<Choice>)

  /** A task held by Google. `marker` is the link whose create reference is its notes. */
  datatype Remote = Remote(
    etag: ETag,
    fields: Option<TaskFields>,
    marker: Option<LinkId>,
    deleted: bool,
    shared: bool)

  /** One observation of a remote task; the provider may leave out the ETag. */
  datatype Seen = Seen(
    etag: Option<ETag>,
    fields: Option<TaskFields>,
    marker: Option<LinkId>,
    deleted: bool,
    shared: bool)
  {
    /** `GoogleTask::fields` succeeds. */
    predicate Usable() {
      !deleted && !shared && fields.Some?
    }
  }

  function Look(r: Remote, hideEtag: bool): Seen {
    Seen(if hideEtag then None else Some(r.etag), r.fields, r.marker, r.deleted, r.shared)
  }

  datatype Receipt = Receipt(task: TaskId, saved: Local, expires: int)

  /** What a batch read before its first mutation. */
  datatype Context = Context(
    snapshot: map<RemoteId, Seen>,
    known: set<RemoteId>,
    references: set<LinkId>)

  /** A write in preparation: what was read on both sides and what they should become. */
  datatype Plan = Plan(version: int, local: TaskFields, id: RemoteId, seen: Seen, merged: TaskFields)

  /** How far the work on one link has come. */
  datatype Act =
    | Unheld
    | Detaching(remoteGone: bool)
    | Found(version: int, local: TaskFields)
    | Claimed(sent: TaskFields)
    | Answered(sent: TaskFields, outcome: Outcome)
    | Compared(plan: Plan)
    | Patched(plan: Plan, etag: Option<ETag>)
    | Written(id: RemoteId, etag: Option<ETag>, agreed: TaskFields)

  /** Where the worker stands between two statements. */
  datatype Place = Listing | Ready | On(link: LinkId, act: Act)

  datatype Worker = Idle | Busy(ctx: Context, at: Place)

  /** What is stored: the local tables, and Google's list. */
  datatype Data = Data(
    tasks: map<TaskId, Local>,
    links: map<LinkId, Link>,
    remote: map<RemoteId, Remote>,
    receipts: map<ReceiptId, Receipt>,
    now: int)

  /** What has happened, for stating properties of whole runs: which link's request created a
      remote task, which links sent a request that was not provably rejected, which receipt a
      missing task was reversibly deleted with, which receipts were undone, and which deletions
      made the worker or the owner detach a link. */
  datatype History = History(
    born: map<RemoteId, LinkId>,
    open: set<LinkId>,
    gone: map<TaskId, ReceiptId>,
    restored: set<ReceiptId>,
    unlinked: set<ReceiptId>)

  /** `next` is the next unused name; row ids, remote ids and ETags are all drawn from it. */
  datatype World = World(db: Data, worker: Worker, hist: History, next: int)

  function Start(now: int): World {
    World(Data(map[], map[], map[], map[], now), Idle, History(map[], {}, map[], {}, {}), 0)
  }

  /** What the owner does. */
  datatype OwnerStep =
    | CreateTask(fields: TaskFields, terms: Terms)
    | EditTask(task: TaskId, fields: TaskFields, terms: Terms)
    | ChangeTerms(task: TaskId, terms: Terms)
    | DeleteTask(task: TaskId)
    | DeleteReversibly(task: TaskId)
    | UndoDelete(receipt: ReceiptId)
    | Choose(link: LinkId, dispute: int, choice: Choice)
    | LeaveUnlinked(link: LinkId)

  /** What Google's own users, the clock, housekeeping and failures do. */
  datatype OutsideStep =
    | GoogleCreates(content: Seen)
    | GoogleEdits(id: RemoteId, content: Seen)
    | GooglePurges(id: RemoteId)
    | Tick(seconds: nat)
    | CleanUp(receipt: ReceiptId)
    | Crash

  /** What the worker does between links. */
  datatype ScanStep =
    | Begin
    | See(id: RemoteId, hideEtag: bool)
    | Prepare(task: TaskId)
    | Load
    | Import(id: RemoteId)
    | Abort
    | Finish

  /** What the worker does for one link. */
  datatype LinkStep =
    | Visit(link: LinkId)
    | FindTask
    | Detach
    | Recover(id: RemoteId)
    | Claim
    | Post(created: bool, outcome: Outcome)
    | Settle
    | Compare(hideEtag: bool, disputeId: int)
    | Patch(applied: bool, acknowledged: bool)
    | WriteLocal
    | Record

  datatype Step = Owner(o: OwnerStep) | Outside(e: OutsideStep) | Scan(s: ScanStep) | OnLink(l: LinkStep)

  predicate Held(w: World, task: TaskId) {
    exists r :: r in w.db.receipts && w.db.receipts[r].task == task && Active(w.db.receipts[r].expires, w.db.now)
  }

  function At(w: World, link: LinkId, act: Act): World
    requires w.worker.Busy?
  {
    w.(worker := Busy(w.worker.ctx, On(link, act)))
  }

  function Back(w: World): World
    requires w.worker.Busy?
  {
    w.(worker := Busy(w.worker.ctx, Ready))
  }

  function SetLink(w: World, link: LinkId, row: Link): World {
    w.(db := w.db.(links := w.db.links[link := row]))
  }

  /** Every write to a remote task gives it a new ETag. */
  function SetRemote(w: World, id: RemoteId, fields: Option<TaskFields>, marker: Option<LinkId>,
                     deleted: bool, shared: bool): World
  {
    w.(db := w.db.(remote := w.db.remote[id := Remote(w.next, fields, marker, deleted, shared)]),
       next := w.next + 1)
  }

  predicate Taken(w: World, id: RemoteId) {
    exists l :: l in w.db.links && w.db.links[l].external == Some(id)
  }

  // ---- the owner, Google and the environment ----

  function StepCreateTask(w: World, fields: TaskFields, terms: Terms): World {
    w.(db := w.db.(tasks := w.db.tasks[w.next := Local(fields, 1, terms)]), next := w.next + 1)
  }

  function StepEditTask(w: World, task: TaskId, fields: TaskFields, terms: Terms): World {
    if task !in w.db.tasks then w
    else w.(db := w.db.(tasks := w.db.tasks[task := Local(fields, w.db.tasks[task].version + 1, terms)]))
  }

  /** Another row or the owner's time zone changes; the task keeps its version. */
  function StepChangeTerms(w: World, task: TaskId, terms: Terms): World {
    if task !in w.db.tasks then w
    else w.(db := w.db.(tasks := w.db.tasks[task := w.db.tasks[task].(terms := terms)]))
  }

  function StepDeleteTask(w: World, task: TaskId): World {
    w.(db := w.db.(tasks := w.db.tasks - {task}))
  }

  function StepDeleteReversibly(w: World, task: TaskId): World {
    if !w.worker.Idle? || task !in w.db.tasks then w
    else
      var receipt := Receipt(task, w.db.tasks[task], w.db.now + UNDO_WINDOW);
      w.(db := w.db.(tasks := w.db.tasks - {task}, receipts := w.db.receipts[w.next := receipt]),
         hist := w.hist.(gone := w.hist.gone[task := w.next]),
         next := w.next + 1)
  }

  function StepUndoDelete(w: World, receipt: ReceiptId): World {
    if !w.worker.Idle? || receipt !in w.db.receipts || !Active(w.db.receipts[receipt].expires, w.db.now) then w
    else
      var r := w.db.receipts[receipt];
      w.(db := w.db.(tasks := w.db.tasks[r.task := r.saved.(version := r.saved.version + 1)],
                     receipts := w.db.receipts - {receipt}),
         hist := w.hist.(gone := w.hist.gone - {r.task}, restored := w.hist.restored + {receipt}))
  }

  function StepChoose(w: World, link: LinkId, dispute: int, choice: Choice): World {
    if !w.worker.Idle? || link !in w.db.links then w
    else
      var l := w.db.links[link];
      if l.phase.Linked? && l.dispute.Some? && l.dispute.value.id == dispute && l.choice.None?
         && l.task in w.db.tasks && w.db.tasks[l.task].version == l.dispute.value.version
      then SetLink(w, link, l.(choice := Some(choice)))
      else w
  }

  function Cause(w: World, task: TaskId): Option<ReceiptId> {
    if task !in w.db.tasks && task in w.hist.gone then Some(w.hist.gone[task]) else None
  }

  function Unlink(w: World, link: LinkId, cause: Option<ReceiptId>): World
    requires link in w.db.links
  {
    SetLink(w, link, w.db.links[link].(phase := Detached, dispute := None, choice := None)).
      (hist := w.hist.(unlinked := w.hist.unlinked + (if cause.Some? then {cause.value} else {})))
  }

  function StepLeaveUnlinked(w: World, link: LinkId): World {
    if !w.worker.Idle? || link !in w.db.links then w
    else
      var l := w.db.links[link];
      if l.phase.Creating? && !Held(w, l.task) then Unlink(w, link, Cause(w, l.task)) else w
  }

  function StepGoogleCreates(w: World, content: Seen): World {
    SetRemote(w, w.next, content.fields, content.marker, content.deleted, content.shared)
  }

  function StepGoogleEdits(w: World, id: RemoteId, content: Seen): World {
    if id !in w.db.remote then w
    else SetRemote(w, id, content.fields, content.marker, content.deleted, content.shared)
  }

  function StepCleanUp(w: World, receipt: ReceiptId): World {
    if receipt in w.db.receipts && !Active(w.db.receipts[receipt].expires, w.db.now)
    then w.(db := w.db.(receipts := w.db.receipts - {receipt})) else w
  }

  // ---- the worker ----

  function StepBegin(w: World): World {
    if w.worker.Idle? then w.(worker := Busy(Context(map[], {}, {}), Listing)) else w
  }

  /** One entry of the list response. The pages are read while Google may change, so every
      entry is observed at its own moment. */
  function StepSee(w: World, id: RemoteId, hideEtag: bool): World {
    if w.worker.Busy? && w.worker.at.Listing? && id in w.db.remote then
      var ctx := w.worker.ctx;
      w.(worker := Busy(ctx.(snapshot := ctx.snapshot[id := Look(w.db.remote[id], hideEtag)]), Listing))
    else w
  }

  function StepPrepare(w: World, task: TaskId): World {
    if w.worker.Busy? && w.worker.at.Listing? && task in w.db.tasks && (forall l :: l in w.db.links ==> w.db.links[l].task != task) then
      SetLink(w, w.next, Link(task, Prepared, w.db.tasks[task].fields, None, true, None, None)).(next := w.next + 1)
    else w
  }

  function StepLoad(w: World): World {
    if w.worker.Busy? && w.worker.at.Listing? then
      var known := set l | l in w.db.links && w.db.links[l].external.Some? :: w.db.links[l].external.value;
      var references := set l | l in w.db.links && w.db.links[l].reference;
      w.(worker := Busy(w.worker.ctx.(known := known, references := references), Ready))
    else w
  }

  function StepVisit(w: World, link: LinkId): World {
    if w.worker.Busy? && w.worker.at.Ready? && link in w.db.links && !w.db.links[link].phase.Detached? && !Held(w, w.db.links[link].task)
    then At(w, link, Unheld) else w
  }

  /** The worker is at work on a link that exists. */
  predicate Working(w: World) {
    w.worker.Busy? && w.worker.at.On? && w.worker.at.link in w.db.links
  }

  function Row(w: World): Link
    requires Working(w)
  {
    w.db.links[w.worker.at.link]
  }

  function SetRow(w: World, row: Link): World
    requires Working(w)
  {
    SetLink(w, w.worker.at.link, row)
  }

  function StepFindTask(w: World): World {
    if Working(w) && w.worker.at.act.Unheld? then
      var task := Row(w).task;
      if task in w.db.tasks
      then At(w, w.worker.at.link, Found(w.db.tasks[task].version, w.db.tasks[task].fields))
      else At(w, w.worker.at.link, Detaching(false))
    else w
  }

  function StepDetach(w: World): World {
    if Working(w) && w.worker.at.act.Detaching? then
      var cause := if w.worker.at.act.remoteGone then None else Cause(w, Row(w).task);
      Back(Unlink(w, w.worker.at.link, cause))
    else w
  }

  /** Recovery of an uncertain create: the one listed task that carries the marker. */
  function StepRecover(w: World, id: RemoteId): World {
    if Working(w) && w.worker.at.act.Found? && Row(w).phase.Creating? then
      var link, snapshot := w.worker.at.link, w.worker.ctx.snapshot;
      if id in snapshot && snapshot[id].marker == Some(link) && snapshot[id].Usable()
         && (forall other :: other in snapshot && snapshot[other].marker == Some(link) ==> other == id)
      then At(w, link, Written(id, snapshot[id].etag, Row(w).baseline))
      else Back(w)
    else w
  }

  function StepClaim(w: World): World {
    if Working(w) && w.worker.at.act.Found? && Row(w).phase.Prepared? then
      var local := w.worker.at.act.local;
      At(SetRow(w, Row(w).(phase := Creating, baseline := local)), w.worker.at.link, Claimed(local))
    else w
  }

  /** What is trusted of the provider: a 4xx means nothing was created, and a well-formed
      success describes the task that was. Every other outcome may or may not have created it.
      Fields that are not fit to be sent stay here. */
  predicate HonestCreate(w: World, sent: TaskFields, created: bool, outcome: Outcome) {
    && (!Sendable(sent) ==> outcome.Withheld?)
    && (Rejected(outcome) ==> !created)
    && (CreateResult(outcome).Ok? ==>
          && created
          && CreateResult(outcome).value.id == w.next
          && CreateResult(outcome).value.etag == w.next)
  }

  function StepPost(w: World, created: bool, outcome: Outcome): World {
    if Working(w) && w.worker.at.act.Claimed? && HonestCreate(w, w.worker.at.act.sent, created, outcome) then
      var link, sent := w.worker.at.link, w.worker.at.act.sent;
      var hist := w.hist.(open := w.hist.open + (if Rejected(outcome) then {} else {link}));
      var answered := At(w, link, Answered(sent, outcome));
      if !created then answered.(hist := hist)
      else SetRemote(answered, w.next, Some(Echo(sent, None)), Some(link), false, false).
             (hist := hist.(born := hist.born[w.next := link]))
    else w
  }

  function StepSettle(w: World): World {
    if Working(w) && w.worker.at.act.Answered? then
      var sent := w.worker.at.act.sent;
      match CreateResult(w.worker.at.act.outcome)
      case Err(error) =>
        if Retryable(error) && Row(w).phase.Creating? then Back(SetRow(w, Row(w).(phase := Prepared)))
        else Back(w)
      case Ok(task) =>
        if task.fields == Some(sent) then At(w, w.worker.at.link, Written(task.id, Some(task.etag), sent))
        else Back(w)
    else w
  }

  /** The recorded dispute is exactly the divergence now in front of the worker. */
  predicate DisputeCurrent(row: Link, version: int, local: TaskFields, seen: Seen) {
    && row.dispute.Some?
    && row.dispute.value.version == version
    && row.dispute.value.local == local
    && Some(row.dispute.value.google) == seen.fields
    && Some(row.dispute.value.etag) == seen.etag
  }

  /** The owner answered it. */
  predicate Authorised(row: Link, version: int, local: TaskFields, seen: Seen) {
    row.choice.Some? && DisputeCurrent(row, version, local, seen)
  }

  function CompareWith(w: World, id: RemoteId, seen: Seen, disputeId: int): World
    requires Working(w) && w.worker.at.act.Found?
  {
    var Found(version, local) := w.worker.at.act;
    var row := Row(w);
    if seen.deleted then At(w, w.worker.at.link, Detaching(true))
    else if !seen.Usable() then Back(w)
    else
      match Reconcile(row.baseline, local, seen.fields.value)
      case Ok(merged) => At(w, w.worker.at.link, Compared(Plan(version, local, id, seen, merged)))
      case Err(_) =>
        if Authorised(row, version, local, seen) then
          var merged := Resolve(row.baseline, local, seen.fields.value, row.choice.value);
          At(w, w.worker.at.link, Compared(Plan(version, local, id, seen, merged)))
        else if DisputeCurrent(row, version, local, seen) || seen.etag.None? then Back(w)
        else
          var dispute := Dispute(disputeId, version, seen.etag.value, local, seen.fields.value);
          Back(SetRow(w, row.(dispute := Some(dispute), choice := None)))
  }

  /** Use the list entry, or confirm the identity directly when the list has none. */
  function StepCompare(w: World, hideEtag: bool, disputeId: int): World {
    if Working(w) && w.worker.at.act.Found? && Row(w).phase.Linked? && Row(w).external.Some? then
      var id := Row(w).external.value;
      if id in w.worker.ctx.snapshot then CompareWith(w, id, w.worker.ctx.snapshot[id], disputeId)
      else if id in w.db.remote then CompareWith(w, id, Look(w.db.remote[id], hideEtag), disputeId)
      else At(w, w.worker.at.link, Detaching(true))
    else w
  }

  /** The conditional write. `applied` says whether Google performed it, which If-Match
      allows only while the ETag is still the observed one; `acknowledged` says whether a
      reply came back. A reply is believed only if it has the merged fields. */
  function StepPatch(w: World, applied: bool, acknowledged: bool): World {
    if Working(w) && w.worker.at.act.Compared? then
      var plan := w.worker.at.act.plan;
      if Some(plan.merged) == plan.seen.fields then
        At(w, w.worker.at.link, Patched(plan, plan.seen.etag))
      else if applied && Sendable(plan.merged) && plan.id in w.db.remote && Some(w.db.remote[plan.id].etag) == plan.seen.etag then
        var r := w.db.remote[plan.id];
        var echo := Echo(plan.merged, r.fields);
        var written := SetRemote(w, plan.id, Some(echo), r.marker, r.deleted, r.shared);
        if acknowledged && echo == plan.merged then At(written, w.worker.at.link, Patched(plan, Some(w.next))) else Back(written)
      else Back(w)
    else w
  }

  /** The versioned task update, which the store may refuse. */
  function StepWriteLocal(w: World): World {
    if Working(w) && w.worker.at.act.Patched? then
      var plan := w.worker.at.act.plan;
      var done := Written(plan.id, w.worker.at.act.etag, plan.merged);
      var task := Row(w).task;
      if plan.merged == plan.local then At(w, w.worker.at.link, done)
      else if task in w.db.tasks && w.db.tasks[task].version == plan.version && Accepts(w.db.tasks[task], plan.merged) then
        var row := w.db.tasks[task].(fields := plan.merged, version := plan.version + 1);
        At(w.(db := w.db.(tasks := w.db.tasks[task := row])), w.worker.at.link, done)
      else Back(w)
    else w
  }

  /** The identity columns are unique over all links, detached ones included. */
  function StepRecord(w: World): World {
    if Working(w) && w.worker.at.act.Written? then
      var Written(id, etag, agreed) := w.worker.at.act;
      if etag.None? || exists l :: l in w.db.links && l != w.worker.at.link && w.db.links[l].external == Some(id)
      then Back(w)
      else
        var row := Row(w).(phase := Linked, external := Some(id), baseline := agreed,
                           dispute := None, choice := None);
        SetRow(w, row).(worker := Busy(w.worker.ctx.(known := w.worker.ctx.known + {id}), Ready))
    else w
  }

  predicate Importable(w: World, id: RemoteId)
    requires w.worker.Busy?
  {
    var ctx := w.worker.ctx;
    && id in ctx.snapshot
    && ctx.snapshot[id].Usable()
    && ctx.snapshot[id].etag.Some?
    && id !in ctx.known
    && !(ctx.snapshot[id].marker.Some? && ctx.snapshot[id].marker.value in ctx.references)
    && !Taken(w, id)
  }

  function StepImport(w: World, id: RemoteId): World {
    if w.worker.Busy? && w.worker.at.Ready? && Importable(w, id) then
      var fields := w.worker.ctx.snapshot[id].fields.value;
      w.(db := w.db.(
           tasks := w.db.tasks[w.next := Local(fields, 1, Terms(true, false, false, {}, {}))],
           links := w.db.links[w.next := Link(w.next, Linked, fields, Some(id), false, None, None)]),
         next := w.next + 1)
    else w
  }

  function NextOwner(w: World, step: OwnerStep): World {
    match step
    case CreateTask(fields, terms) => StepCreateTask(w, fields, terms)
    case EditTask(task, fields, terms) => StepEditTask(w, task, fields, terms)
    case ChangeTerms(task, terms) => StepChangeTerms(w, task, terms)
    case DeleteTask(task) => StepDeleteTask(w, task)
    case DeleteReversibly(task) => StepDeleteReversibly(w, task)
    case UndoDelete(receipt) => StepUndoDelete(w, receipt)
    case Choose(link, dispute, choice) => StepChoose(w, link, dispute, choice)
    case LeaveUnlinked(link) => StepLeaveUnlinked(w, link)
  }

  function NextOutside(w: World, step: OutsideStep): World {
    match step
    case GoogleCreates(content) => StepGoogleCreates(w, content)
    case GoogleEdits(id, content) => StepGoogleEdits(w, id, content)
    case GooglePurges(id) => w.(db := w.db.(remote := w.db.remote - {id}))
    case Tick(seconds) => w.(db := w.db.(now := w.db.now + seconds))
    case CleanUp(receipt) => StepCleanUp(w, receipt)
    case Crash => w.(worker := Idle)
  }

  function NextScan(w: World, step: ScanStep): World {
    match step
    case Begin => StepBegin(w)
    case See(id, hideEtag) => StepSee(w, id, hideEtag)
    case Prepare(task) => StepPrepare(w, task)
    case Load => StepLoad(w)
    case Import(id) => StepImport(w, id)
    case Abort => if w.worker.Busy? && w.worker.at.On? then Back(w) else w
    case Finish => if w.worker.Busy? && w.worker.at.Ready? then w.(worker := Idle) else w
  }

  function NextLink(w: World, step: LinkStep): World {
    match step
    case Visit(link) => StepVisit(w, link)
    case FindTask => StepFindTask(w)
    case Detach => StepDetach(w)
    case Recover(id) => StepRecover(w, id)
    case Claim => StepClaim(w)
    case Post(created, outcome) => StepPost(w, created, outcome)
    case Settle => StepSettle(w)
    case Compare(hideEtag, disputeId) => StepCompare(w, hideEtag, disputeId)
    case Patch(applied, acknowledged) => StepPatch(w, applied, acknowledged)
    case WriteLocal => StepWriteLocal(w)
    case Record => StepRecord(w)
  }

  function Next(w: World, step: Step): World {
    match step
    case Owner(o) => NextOwner(w, o)
    case Outside(e) => NextOutside(w, e)
    case Scan(s) => NextScan(w, s)
    case OnLink(l) => NextLink(w, l)
  }

  function Run(w: World, steps: seq<Step>): World
    decreases |steps|
  {
    if steps == [] then w else Run(Next(w, steps[0]), steps[1..])
  }

  /** The worlds a history of steps can lead to, from an empty account. */
  ghost predicate Reachable(w: World) {
    exists now, steps :: Run(Start(now), steps) == w
  }
}
