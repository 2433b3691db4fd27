/** What a create sends to Google, and how one that was cut off is recovered
    (apps/api/src/google_tasks_sync.rs:218-325). */
module TasksCreate {
  import opened Prelude
  import opened SharedFields
  import opened TasksClient
  import opened TasksProtocol
  import opened TasksSafety
  import opened TasksTheorems
  import opened TasksPass
  import opened TasksCrash
  import opened TasksImport

  /** Google's answer to a create that succeeds. */
  function Success(id: RemoteId, fields: TaskFields): Outcome {
    Answer(200, TaskBody(Some(id), Some(id), Some(fields)))
  }

  /** What one batch does for a prepared link, when the create succeeds. */
  function CreatePass(l: LinkId, id: RemoteId, fields: TaskFields): seq<Step> {
    [ Scan(Begin), Scan(Load), OnLink(Visit(l)), OnLink(FindTask), OnLink(Claim),
      OnLink(Post(true, Success(id, fields))), OnLink(Settle), OnLink(Record), Scan(Finish) ]
  }

  /** What a later batch does for a link whose create was cut off. */
  function RecoveryPass(l: LinkId, id: RemoteId): seq<Step> {
    [ Scan(Begin), Scan(See(id, false)), Scan(Load), OnLink(Visit(l)), OnLink(FindTask),
      OnLink(Recover(id)), OnLink(Record), Scan(Finish) ]
  }

  /** The task of link `l` is to be created at Google, where nothing carries its marker yet, and can be
      sent as it is. */
  ghost predicate Sendworthy(w: World, l: LinkId) {
    && Inv(w) && w.worker.Idle? && l in w.db.links && w.db.links[l].phase.Prepared? && w.db.links[l].external.None?
    && w.db.links[l].task in w.db.tasks && !Held(w, w.db.links[l].task) && !Taken(w, w.next)
    && (forall id :: id in w.db.remote ==> w.db.remote[id].marker != Some(l))
    && Sendable(TaskOf(w, l).fields) && Echo(TaskOf(w, l).fields, None) == TaskOf(w, l).fields
  }

  // ---- the pass, statement by statement ----

  /** The link has claimed its create, with the fields of the task as the baseline. */
  function ClaimedRow(w: World, l: LinkId): Link
    requires l in w.db.links && w.db.links[l].task in w.db.tasks
  {
    w.db.links[l].(phase := Creating, baseline := w.db.tasks[w.db.links[l].task].fields)
  }

  /** The remote task that the create makes. */
  function NewRemote(w: World, l: LinkId): Remote
    requires l in w.db.links && w.db.links[l].task in w.db.tasks
  {
    Remote(w.next, Some(w.db.tasks[w.db.links[l].task].fields), Some(l), false, false)
  }

  function LinkedRow(w: World, l: LinkId): Link
    requires l in w.db.links && w.db.links[l].task in w.db.tasks
  {
    ClaimedRow(w, l).(phase := Linked, external := Some(w.next), dispute := None, choice := None)
  }

  /** The tables after `n` statements, of which the fifth claims, the sixth creates and the eighth
      records. */
  function TablesAfter(w: World, n: nat, l: LinkId): Data
    requires l in w.db.links && w.db.links[l].task in w.db.tasks
  {
    w.db.(links := if n < 5 then w.db.links else w.db.links[l := if n < 8 then ClaimedRow(w, l) else LinkedRow(w, l)],
          remote := if n < 6 then w.db.remote else w.db.remote[w.next := NewRemote(w, l)])
  }

  predicate StandsAt(w: World, n: nat, l: LinkId, id: RemoteId, task: Local) {
    if n == 0 || n >= 9 then w.worker.Idle?
    else
      && w.worker.Busy?
      && w.worker.at == (
           if n == 1 then Listing else if n == 2 || n == 8 then Ready
           else On(l, if n == 3 then Unheld
                      else if n == 4 then Found(task.version, task.fields)
                      else if n == 5 then Claimed(task.fields)
                      else if n == 6 then Answered(task.fields, Success(id, task.fields))
                      else Written(id, Some(id), task.fields)))
  }

  ghost predicate Reached(w: World, after: World, n: nat, l: LinkId)
    requires l in w.db.links && w.db.links[l].task in w.db.tasks
  {
    after.db == TablesAfter(w, n, l) && StandsAt(after, n, l, w.next, TaskOf(w, l)) && (n < 6 ==> after.next == w.next)
  }

  lemma CreateOpens(w: World, a: World, n: nat, l: LinkId)
    requires Sendworthy(w, l) && n < 5 && Reached(w, a, n, l)
    ensures Reached(w, Next(a, CreatePass(l, w.next, TaskOf(w, l).fields)[n]), n + 1, l)
  {
  }

  lemma CreateSends(w: World, a: World, l: LinkId)
    requires Sendworthy(w, l) && Reached(w, a, 5, l)
    ensures Reached(w, Next(a, OnLink(Post(true, Success(w.next, TaskOf(w, l).fields)))), 6, l)
  {
  }

  lemma CreateSettles(w: World, a: World, l: LinkId)
    requires Sendworthy(w, l) && Reached(w, a, 6, l)
    ensures Reached(w, Next(a, OnLink(Settle)), 7, l)
  {
  }

  lemma CreateRecords(w: World, a: World, l: LinkId)
    requires Sendworthy(w, l) && Reached(w, a, 7, l)
    ensures Reached(w, Next(a, OnLink(Record)), 8, l)
  {
    forall k | k in a.db.links && k != l
      ensures a.db.links[k].external != Some(w.next)
    {
      assert k in w.db.links && a.db.links[k] == w.db.links[k];
    }
    assert TablesAfter(w, 8, l).links == a.db.links[l := LinkedRow(w, l)];
  }

  lemma CreateStep(w: World, a: World, n: nat, l: LinkId)
    requires Sendworthy(w, l) && n < 9 && Reached(w, a, n, l)
    ensures Reached(w, Next(a, CreatePass(l, w.next, TaskOf(w, l).fields)[n]), n + 1, l)
  {
    if n < 5 {
      CreateOpens(w, a, n, l);
    } else if n == 5 {
      CreateSends(w, a, l);
    } else if n == 6 {
      CreateSettles(w, a, l);
    } else if n == 7 {
      CreateRecords(w, a, l);
    }
  }

  ghost function CreateAfter(w: World, n: nat, l: LinkId): World
    requires l in w.db.links && w.db.links[l].task in w.db.tasks && n <= 9
  {
    Run(w, CreatePass(l, w.next, TaskOf(w, l).fields)[..n])
  }

  lemma {:induction false} CreateReaches(w: World, n: nat, l: LinkId)
    requires Sendworthy(w, l) && n <= 9
    ensures Inv(CreateAfter(w, n, l)) && Reached(w, CreateAfter(w, n, l), n, l)
  {
    var pass := CreatePass(l, w.next, TaskOf(w, l).fields);
    InvOfRun(w, pass[..n]);
    if n > 0 {
      CreateReaches(w, n - 1, l);
      RunOneMore(w, pass, n - 1);
      CreateStep(w, CreateAfter(w, n - 1, l), n - 1, l);
    }
  }

  // ---- what is created ----

  /** There is one new remote task; it has exactly the fields of the task and carries the marker of the
      link; tasks, receipts and every other link are as they were. */
  ghost predicate Created(w: World, after: World, l: LinkId, id: RemoteId)
    requires l in w.db.links && w.db.links[l].task in w.db.tasks
  {
    && id !in w.db.remote && id in after.db.remote && after.db.remote == w.db.remote[id := after.db.remote[id]]
    && after.db.remote[id].fields == Some(TaskOf(w, l).fields) && after.db.remote[id].marker == Some(l)
    && after.db.tasks == w.db.tasks && after.db.receipts == w.db.receipts
    && l in after.db.links && after.db.links == w.db.links[l := after.db.links[l]] && after.db.links[l].task == w.db.links[l].task
  }

  lemma ReachedIsSettled(w: World, after: World, l: LinkId)
    requires Sendworthy(w, l) && Inv(after) && Reached(w, after, 9, l)
    ensures Created(w, after, l, w.next) && Settled(after, l, w.next, TaskOf(w, l).fields) && after.worker.Idle?
  {
    assert after.db.receipts == w.db.receipts && after.db.now == w.db.now;
  }

  /** A create that succeeds makes exactly one remote task, with exactly the fields of the local one,
      and leaves task, remote task and baseline equal. */
  lemma CreateSendsTask(w: World, l: LinkId)
    requires Sendworthy(w, l)
    ensures var after := Run(w, CreatePass(l, w.next, TaskOf(w, l).fields));
            Created(w, after, l, w.next) && Settled(after, l, w.next, TaskOf(w, l).fields) && after.worker.Idle?
  {
    CreateEnds(w, l);
    ReachedIsSettled(w, Run(w, CreatePass(l, w.next, TaskOf(w, l).fields)), l);
  }

  lemma CreateEnds(w: World, l: LinkId)
    requires Sendworthy(w, l)
    ensures var after := Run(w, CreatePass(l, w.next, TaskOf(w, l).fields)); Inv(after) && Reached(w, after, 9, l)
  {
    var pass := CreatePass(l, w.next, TaskOf(w, l).fields);
    CreateReaches(w, 9, l);
    assert pass[..9] == pass;
  }

  // ---- recovery ----

  /** A crash after `n` statements. */
  ghost function CutAfter(w: World, n: nat, l: LinkId): World
    requires l in w.db.links && w.db.links[l].task in w.db.tasks && n <= 9
  {
    Next(CreateAfter(w, n, l), Outside(Crash))
  }

  /** The create has been sent, one task at Google carries its marker, and the link does not name it
      yet. */
  ghost predicate Uncertain(w: World, l: LinkId, id: RemoteId) {
    && Inv(w) && l in w.db.links && w.db.links[l].phase.Creating? && w.db.links[l].task in w.db.tasks && !Held(w, w.db.links[l].task)
    && id in w.db.remote && w.db.remote[id].marker == Some(l) && Look(w.db.remote[id], false).Usable() && !Taken(w, id)
    && (forall other :: other in w.db.remote && w.db.remote[other].marker == Some(l) ==> other == id)
  }

  predicate RecoveryStands(w: World, n: nat, l: LinkId, id: RemoteId)
    requires l in w.db.links && w.db.links[l].task in w.db.tasks && id in w.db.remote
  {
    var task := w.db.tasks[w.db.links[l].task];
    if n == 0 then w.worker.Idle?
    else
      && w.worker.Busy?
      && w.worker.ctx.snapshot == (if n == 1 then map[] else map[id := Look(w.db.remote[id], false)])
      && w.worker.at == (
           if n <= 2 then Listing else if n == 3 then Ready
           else On(l, if n == 4 then Unheld
                      else if n == 5 then Found(task.version, task.fields)
                      else Written(id, Some(w.db.remote[id].etag), w.db.links[l].baseline)))
  }

  lemma RecoveryStep(w: World, a: World, n: nat, l: LinkId, id: RemoteId)
    requires Uncertain(w, l, id) && n < 6 && OnlyWorker(w, a) && RecoveryStands(a, n, l, id)
    ensures var a' := Next(a, RecoveryPass(l, id)[n]); OnlyWorker(w, a') && RecoveryStands(a', n + 1, l, id)
  {
  }

  ghost function RecoveryAfter(w: World, n: nat, l: LinkId, id: RemoteId): World
    requires n <= 8
  {
    Run(w, RecoveryPass(l, id)[..n])
  }

  lemma {:induction false} RecoveryReaches(w: World, n: nat, l: LinkId, id: RemoteId)
    requires Uncertain(w, l, id) && w.worker.Idle? && n <= 6
    ensures OnlyWorker(w, RecoveryAfter(w, n, l, id)) && RecoveryStands(RecoveryAfter(w, n, l, id), n, l, id)
  {
    if n > 0 {
      RecoveryReaches(w, n - 1, l, id);
      RunOneMore(w, RecoveryPass(l, id), n - 1);
      RecoveryStep(w, RecoveryAfter(w, n - 1, l, id), n - 1, l, id);
    }
  }

  /** The link names the remote task, with what was sent as the baseline; neither copy is written. */
  ghost predicate Recovered(w: World, after: World, l: LinkId, id: RemoteId)
    requires l in w.db.links
  {
    && after.worker.Idle? && SameCopies(w, after) && after.db.receipts == w.db.receipts && after.db.now == w.db.now
    && after.db.links == w.db.links[l := w.db.links[l].(phase := Linked, external := Some(id), dispute := None, choice := None)]
  }

  /** Whatever Google's users made of a task whose create was cut off, as long as it has its marker: a
      later pass links it, keeps as baseline what was sent, and overwrites neither copy, so that edits
      since are merged or reported by the pass after that. */
  lemma RecoveryLinks(w: World, l: LinkId, id: RemoteId)
    requires Uncertain(w, l, id) && w.worker.Idle?
    ensures Recovered(w, Run(w, RecoveryPass(l, id)), l, id)
  {
    var pass := RecoveryPass(l, id);
    RecoveryReaches(w, 6, l, id);
    RunOneMore(w, pass, 6);
    RunOneMore(w, pass, 7);
    assert pass[..8] == pass;
    RecoveryRecords(w, RecoveryAfter(w, 6, l, id), l, id);
  }

  lemma RecoveryRecords(w: World, a: World, l: LinkId, id: RemoteId)
    requires Uncertain(w, l, id) && OnlyWorker(w, a) && RecoveryStands(a, 6, l, id)
    ensures Recovered(w, Next(Next(a, OnLink(Record)), Scan(Finish)), l, id)
  {
  }

  lemma CutStands(w: World, n: nat, l: LinkId)
    requires Sendworthy(w, l) && n <= 9
    ensures var cut := CutAfter(w, n, l); Inv(cut) && cut.worker.Idle? && cut.db == TablesAfter(w, n, l)
  {
    CreateReaches(w, n, l);
    CrashOnlyStops(CreateAfter(w, n, l));
  }

  lemma CutIsRecovered(w: World, cut: World, n: nat, l: LinkId)
    requires Sendworthy(w, l) && 6 <= n <= 7 && Inv(cut) && cut.worker.Idle? && cut.db == TablesAfter(w, n, l)
    ensures var after := Run(cut, RecoveryPass(l, w.next)); Inv(after) && Reached(w, after, 9, l)
  {
    CutIsUncertain(w, cut, n, l);
    RecoveryLinks(cut, l, w.next);
    RecoveredIsCreated(w, cut, n, l, Run(cut, RecoveryPass(l, w.next)));
    InvOfRun(cut, RecoveryPass(l, w.next));
  }

  /** A create that a crash cut off after Google had made the task: one more pass leaves the same rows
      as if there had been no crash, with a single remote task. */
  lemma CreateAbsorbsCrash(w: World, n: nat, l: LinkId)
    requires Sendworthy(w, l) && 6 <= n <= 7
    ensures var after := Run(CutAfter(w, n, l), RecoveryPass(l, w.next));
            && Created(w, after, l, w.next) && Settled(after, l, w.next, TaskOf(w, l).fields)
            && after.db == Run(w, CreatePass(l, w.next, TaskOf(w, l).fields)).db
  {
    CutStands(w, n, l);
    CutIsRecovered(w, CutAfter(w, n, l), n, l);
    ReachedIsSettled(w, Run(CutAfter(w, n, l), RecoveryPass(l, w.next)), l);
    CreateEnds(w, l);
  }

  lemma CutIsUncertain(w: World, cut: World, n: nat, l: LinkId)
    requires Sendworthy(w, l) && 6 <= n <= 7 && Inv(cut) && cut.db == TablesAfter(w, n, l)
    ensures Uncertain(cut, l, w.next)
  {
    assert cut.db.receipts == w.db.receipts && cut.db.now == w.db.now;
    forall k | k in cut.db.links
      ensures cut.db.links[k].external != Some(w.next)
    {
      assert k in w.db.links && cut.db.links[k].external == w.db.links[k].external;
    }
  }

  lemma RecoveredIsCreated(w: World, cut: World, n: nat, l: LinkId, after: World)
    requires Sendworthy(w, l) && 6 <= n <= 7 && cut.db == TablesAfter(w, n, l) && Recovered(cut, after, l, w.next)
    ensures Reached(w, after, 9, l)
  {
    assert after.db.links == w.db.links[l := LinkedRow(w, l)];
  }
}
