/** The resumable, batched scan of the Google Tasks synchronization
    (apps/api/src/google_tasks_sync.rs:72-202,462-487, migrations/0022_google_tasks.sql:57-102).

    A batch prepares at most ten tasks, visits at most ten links beyond the link cursor and
    imports at most ten remote tasks beyond the import cursor, then commits its checkpoint and,
    if something is left or changed meanwhile, a continuation job. Every statement is one step;
    tasks may change between any two, and the worker may fail or crash. Links are written only
    under the owner's synchronization lock. What a visit does to one link is the subject of
    TasksProtocol; here it is an outcome. */
module TasksScan {
  import opened Prelude

  type TaskId = int
  type LinkId = int
  type RemoteId = int
  type JobId = int

  const BATCH_SIZE: int := 10
  const MAX_ATTEMPTS: int := 8

  /** `reference` says that the row carries a create reference, `behind` that a visit would write
      the local task. */
  datatype Link = Link(task: TaskId, live: bool, external: Option<RemoteId>, reference: bool, behind: bool)

  type Links = map<LinkId, Link>

  /** A listed remote task that is neither deleted nor assigned. `usable` says that its fields
      and its ETag are fit for an import. */
  datatype Remote = Remote(usable: bool, marker: Option<LinkId>)

  type Remotes = map<RemoteId, Remote>

  datatype Cursors = Cursors(link: Option<LinkId>, imports: Option<RemoteId>)

  /** The scan columns, which are all null or belong to a scan in progress. */
  datatype Checkpoint = Checkpoint(revision: int, at: Cursors, errors: bool)

  datatype Connection = Connection(enabled: bool, change: int, checkpoint: Option<Checkpoint>)

  datatype Tables = Tables(tasks: set<TaskId>, links: Links, connection: Connection, next: int)

  datatype Status = Pending | Running | Failed | Succeeded

  /** `slot`: the key starts with `tasks-change:`; at most one such job is pending. */
  datatype Job = Job(status: Status, slot: bool, attempts: int)

  type Jobs = map<JobId, Job>

  /** What a scan has done since it began, over all its batches: how each visit and each import
      ended, and which links there were at the start. */
  datatype Log = Log(revision: int, start: set<LinkId>, visited: map<LinkId, bool>, handled: map<RemoteId, bool>)

  /** The identities a batch must not import. */
  datatype Known = Known(externals: set<RemoteId>, references: set<LinkId>)

  datatype Batch = Batch(from: Cursors, at: Cursors, more: bool, errors: bool, log: Log)

  datatype Report = Incomplete | Complete | Unresolved

  datatype Act =
    | Started
    | Opened(batch: Batch, remote: Remotes)
    | Preparing(batch: Batch, remote: Remotes, tasks: set<TaskId>)
    | Visiting(batch: Batch, remote: Remotes, known: Known, links: set<LinkId>)
    | Importing(batch: Batch, remote: Remotes, imports: set<RemoteId>)
    | Finished(report: Report)

  datatype Worker = Idle | Busy(job: JobId, act: Act)

  /** `log` belongs to the scan of the checkpoint. */
  datatype World = World(t: Tables, jobs: Jobs, worker: Worker, log: Log)

  /** `ReturnTask` is the undo of a deletion, which takes the lock; `Ask` is a job that the owner
      asks for, or the one of every five minutes. */
  datatype OwnerStep =
    | AddTask
    | ReturnTask(task: TaskId)
    | TouchTask(task: TaskId)
    | RemoveTask(task: TaskId)
    | LeaveUnlinked(link: LinkId)
    | Choose
    | Ask
    | Configure(enabled: bool)
    | Differ(link: LinkId, behind: bool)

  /** How the visit of a link ended. */
  datatype Visited = Visited(ok: bool, detached: bool, external: Option<RemoteId>, wrote: bool, successor: bool)

  datatype WorkerStep =
    | Claim(job: JobId)
    | Lock(job: JobId)
    | Read(remote: Remotes)
    | ListTasks(listed: set<TaskId>)
    | Prepare(task: TaskId)
    | ListLinks(listed: set<LinkId>)
    | Visit(link: LinkId, outcome: Visited)
    | ListImports(listed: set<RemoteId>)
    | Import(id: RemoteId)
    | Finish
    | Report
    | Fail
    | Crash

  datatype Step = Owner(o: OwnerStep) | Works(s: WorkerStep)

  // ---- jobs ----

  predicate SlotTaken(jobs: Jobs) {
    exists j :: j in jobs && jobs[j].status.Pending? && jobs[j].slot
  }

  /** A change or a continuation shares the pending job, if there is one. */
  function Queued(jobs: Jobs, j: JobId): Jobs {
    if SlotTaken(jobs) then jobs else jobs[j := Job(Pending, true, 0)]
  }

  /** The trigger on tasks: a new revision and a job, if the connection is enabled. */
  function Changed(w: World): World {
    if !w.t.connection.enabled then w
    else
      w.(t := w.t.(connection := w.t.connection.(change := w.t.connection.change + 1), next := w.t.next + 1),
         jobs := Queued(w.jobs, w.t.next))
  }

  // ---- the owner ----

  function NextOwner(w: World, step: OwnerStep): World {
    match step
    case AddTask => Changed(w.(t := w.t.(tasks := w.t.tasks + {w.t.next}, next := w.t.next + 1)))
    case ReturnTask(task) =>
      if w.worker.Idle? && task < w.t.next then Changed(w.(t := w.t.(tasks := w.t.tasks + {task}))) else w
    case TouchTask(task) => if task in w.t.tasks then Changed(w) else w
    case RemoveTask(task) => if task in w.t.tasks then Changed(w.(t := w.t.(tasks := w.t.tasks - {task}))) else w
    case LeaveUnlinked(link) =>
      if w.worker.Idle? && link in w.t.links
      then w.(t := w.t.(links := w.t.links[link := w.t.links[link].(live := false)])) else w
    case Choose =>
      if w.worker.Idle? && w.t.connection.enabled
      then w.(t := w.t.(connection := w.t.connection.(change := w.t.connection.change + 1), next := w.t.next + 1),
              jobs := w.jobs[w.t.next := Job(Pending, false, 0)])
      else w
    case Ask =>
      if w.t.connection.enabled
      then w.(t := w.t.(next := w.t.next + 1), jobs := w.jobs[w.t.next := Job(Pending, false, 0)]) else w
    case Configure(enabled) =>
      if w.worker.Idle? then w.(t := w.t.(connection := w.t.connection.(enabled := enabled, checkpoint := None))) else w
    case Differ(link, behind) =>
      if link in w.t.links
      then w.(t := w.t.(links := w.t.links[link := w.t.links[link].(behind := behind)])) else w
  }

  // ---- the worker ----

  /** `ORDER BY id LIMIT` for one more than a batch: `listed` are the first ten, or all. */
  predicate FirstOf(listed: set<int>, all: set<int>) {
    && listed <= all
    && (forall a, b :: a in listed && b in all && b !in listed ==> a < b)
    && |listed| <= BATCH_SIZE
    && (listed != all ==> |listed| == BATCH_SIZE)
  }

  predicate Least(x: int, s: set<int>) {
    x in s && forall y :: y in s ==> x <= y
  }

  predicate Beyond(x: int, cursor: Option<int>) {
    cursor.None? || x > cursor.value
  }

  predicate Linked(links: Links, task: TaskId) {
    exists l :: l in links && links[l].task == task
  }

  function Unlinked(t: Tables): set<TaskId> {
    set k | k in t.tasks && !Linked(t.links, k)
  }

  function LiveBeyond(links: Links, cursor: Option<LinkId>): set<LinkId> {
    set l | l in links && links[l].live && Beyond(l, cursor)
  }

  function Externals(links: Links): set<RemoteId> {
    set l | l in links && links[l].external.Some? :: links[l].external.value
  }

  function References(links: Links): set<LinkId> {
    set l | l in links && links[l].reference
  }

  function Candidates(remote: Remotes, known: Known, cursor: Option<RemoteId>): set<RemoteId> {
    set id | id in remote && id !in known.externals
      && !(remote[id].marker.Some? && remote[id].marker.value in known.references) && Beyond(id, cursor)
  }

  function At(w: World, act: Act): World
    requires w.worker.Busy?
  {
    w.(worker := Busy(w.worker.job, act))
  }

  /** `claim_sync_job` takes a job at most eight times. */
  predicate Claimable(jobs: Jobs, j: JobId) {
    j in jobs && (jobs[j].status.Pending? || jobs[j].status.Failed?) && jobs[j].attempts < MAX_ATTEMPTS
  }

  function StepClaim(w: World, j: JobId): World {
    if Claimable(w.jobs, j)
    then w.(jobs := w.jobs[j := w.jobs[j].(status := Running, attempts := w.jobs[j].attempts + 1)])
    else w
  }

  /** One worker at a time holds the lock, for a job that it has claimed. */
  function StepLock(w: World, j: JobId): World {
    if w.worker.Idle? && j in w.jobs && w.jobs[j].status.Running? then w.(worker := Busy(j, Started)) else w
  }

  /** A scan without a checkpoint begins now. A connection that is not enabled has no scan. */
  function StepRead(w: World, remote: Remotes): World {
    if w.worker.Busy? && w.worker.act.Started? then
      var c := w.t.connection;
      if !c.enabled then At(w, Finished(Incomplete))
      else if c.checkpoint.Some? then
        var k := c.checkpoint.value;
        At(w, Opened(Batch(k.at, k.at, false, k.errors, w.log), remote))
      else
        var log := Log(c.change, LiveBeyond(w.t.links, None), map[], map[]);
        At(w, Opened(Batch(Cursors(None, None), Cursors(None, None), false, false, log), remote))
    else w
  }

  function StepListTasks(w: World, listed: set<TaskId>): World {
    if w.worker.Busy? && w.worker.act.Opened? && FirstOf(listed, Unlinked(w.t)) then
      At(w, Preparing(w.worker.act.batch.(more := listed != Unlinked(w.t)), w.worker.act.remote, listed))
    else w
  }

  /** A task may be deleted before its intent is written; the intent does not mind. */
  function StepPrepare(w: World, task: TaskId): World {
    if w.worker.Busy? && w.worker.act.Preparing? && task in w.worker.act.tasks then
      var rest := Preparing(w.worker.act.batch, w.worker.act.remote, w.worker.act.tasks - {task});
      At(w.(t := w.t.(links := w.t.links[w.t.next := Link(task, true, None, true, false)], next := w.t.next + 1)), rest)
    else w
  }

  /** The links to visit, and all identities. */
  function StepListLinks(w: World, listed: set<LinkId>): World {
    if w.worker.Busy? && w.worker.act.Preparing? && w.worker.act.tasks == {} then
      var b := w.worker.act.batch;
      var all := LiveBeyond(w.t.links, b.from.link);
      if FirstOf(listed, all)
      then At(w, Visiting(b.(more := b.more || listed != all), w.worker.act.remote, Known(Externals(w.t.links), References(w.t.links)), listed))
      else w
    else w
  }

  function VisitedRow(row: Link, o: Visited): Link {
    row.(live := row.live && !(o.ok && o.detached),
         external := if o.ok && o.external.Some? then o.external else row.external,
         behind := row.behind && !o.wrote)
  }

  /** A visit fails or succeeds; it may detach the link, learn its identity, write the task and,
      by completing a recurring one, add its successor. */
  function StepVisit(w: World, l: LinkId, o: Visited): World {
    if w.worker.Busy? && w.worker.act.Visiting? && Least(l, w.worker.act.links) && l in w.t.links then
      var Visiting(b, remote, known, links) := w.worker.act;
      var batch := b.(at := b.at.(link := Some(l)), errors := b.errors || !o.ok, log := b.log.(visited := b.log.visited[l := o.ok]));
      var found := if o.ok && o.external.Some? then {o.external.value} else {};
      var row := At(w.(t := w.t.(links := w.t.links[l := VisitedRow(w.t.links[l], o)])),
                    Visiting(batch, remote, known.(externals := known.externals + found), links - {l}));
      var written := if o.wrote then Changed(row) else row;
      if o.successor then NextOwner(written, AddTask) else written
    else w
  }

  function StepListImports(w: World, listed: set<RemoteId>): World {
    if w.worker.Busy? && w.worker.act.Visiting? && w.worker.act.links == {} then
      var Visiting(b, remote, known, _) := w.worker.act;
      var all := Candidates(remote, known, b.from.imports);
      if FirstOf(listed, all) then At(w, Importing(b.(more := b.more || listed != all), remote, listed)) else w
    else w
  }

  predicate Taken(links: Links, id: RemoteId) {
    exists l :: l in links && links[l].external == Some(id)
  }

  /** The task and its link are inserted together. */
  function StepImport(w: World, id: RemoteId): World {
    if w.worker.Busy? && w.worker.act.Importing? && Least(id, w.worker.act.imports) && id in w.worker.act.remote then
      var Importing(b, remote, imports) := w.worker.act;
      var usable := remote[id].usable;
      var batch := b.(at := b.at.(imports := Some(id)), errors := b.errors || !usable,
                      log := b.log.(handled := b.log.handled[id := usable]));
      var rest := At(w, Importing(batch, remote, imports - {id}));
      if usable && !Taken(w.t.links, id) then
        Changed(rest.(t := rest.t.(tasks := rest.t.tasks + {rest.t.next},
                                   links := rest.t.links[rest.t.next + 1 := Link(rest.t.next, true, Some(id), false, false)],
                                   next := rest.t.next + 2)))
      else rest
    else w
  }

  function ReportOf(followUp: bool, errors: bool): Report {
    if followUp then Incomplete else if errors then Unresolved else Complete
  }

  /** `finish_google_tasks_batch`: checkpoint and continuation commit together. */
  function StepFinish(w: World): World {
    if w.worker.Busy? && w.worker.act.Importing? && w.worker.act.imports == {} then
      var b, c := w.worker.act.batch, w.t.connection;
      var followUp := b.more || c.change != b.log.revision;
      var checkpoint := if b.more then Some(Checkpoint(b.log.revision, b.at, b.errors)) else None;
      World(w.t.(connection := c.(checkpoint := checkpoint), next := w.t.next + 1),
            if followUp then Queued(w.jobs, w.t.next) else w.jobs,
            Busy(w.worker.job, Finished(ReportOf(followUp, b.errors))),
            b.log)
    else w
  }

  function StepReport(w: World): World {
    if w.worker.Busy? && w.worker.act.Finished? && w.worker.job in w.jobs then
      var status := if w.worker.act.report.Unresolved? then Failed else Succeeded;
      w.(jobs := w.jobs[w.worker.job := w.jobs[w.worker.job].(status := status)], worker := Idle)
    else w
  }

  /** A batch that cannot go on is retried as a whole. */
  function StepFail(w: World): World {
    if w.worker.Busy? && !w.worker.act.Finished? && w.worker.job in w.jobs
    then w.(jobs := w.jobs[w.worker.job := w.jobs[w.worker.job].(status := Failed)], worker := Idle)
    else w
  }

  function NextWork(w: World, step: WorkerStep): World {
    match step
    case Claim(j) => StepClaim(w, j)
    case Lock(j) => StepLock(w, j)
    case Read(remote) => StepRead(w, remote)
    case ListTasks(listed) => StepListTasks(w, listed)
    case Prepare(task) => StepPrepare(w, task)
    case ListLinks(listed) => StepListLinks(w, listed)
    case Visit(l, o) => StepVisit(w, l, o)
    case ListImports(listed) => StepListImports(w, listed)
    case Import(id) => StepImport(w, id)
    case Finish => StepFinish(w)
    case Report => StepReport(w)
    case Fail => StepFail(w)
    case Crash => w.(worker := Idle)
  }

  function Next(w: World, step: Step): World {
    match step
    case Owner(o) => NextOwner(w, o)
    case Works(s) => NextWork(w, s)
  }

  function Run(w: World, steps: seq<Step>): World
    decreases |steps|
  {
    if steps == [] then w else Run(Next(w, steps[0]), steps[1..])
  }

  function Start(): World {
    World(Tables({}, map[], Connection(false, 0, None), 0), map[], Idle, Log(0, {}, map[], map[]))
  }

  ghost predicate Reachable(w: World) {
    exists steps :: Run(Start(), steps) == w
  }
}
