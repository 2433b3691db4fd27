/** Reachable links that the synchronization never settles, or loses a choice on
    (apps/api/src/google_tasks_sync.rs:330-434, apps/api/src/store.rs:1723). */
module TasksInstances {
  import opened Prelude
  import opened Strings
  import opened SharedFields
  import opened TasksClient
  import opened TasksProtocol
  import opened TasksTheorems
  import opened TasksPass
  import opened TasksCrash

  lemma {:induction false} RunOneStep(w: World, steps: seq<Step>, step: Step)
    ensures Run(w, steps + [step]) == Next(Run(w, steps), step)
    decreases |steps|
  {
    if steps == [] {
      assert [step][1..] == [] && steps + [step] == [step];
      assert Run(Next(w, step), []) == Next(w, step);
    } else {
      assert (steps + [step])[1..] == steps[1..] + [step];
      RunOneStep(Next(w, steps[0]), steps[1..], step);
    }
  }

  lemma ReachableNext(w: World, step: Step)
    requires Reachable(w)
    ensures Reachable(Next(w, step))
  {
    var now, steps :| Run(Start(now), steps) == w;
    RunOneStep(Start(now), steps, step);
  }

  // ---- a task is created, here and at Google ----

  /** Task 0 and its link 1. */
  ghost predicate Rows(w: World, task: Local, row: Link) {
    w.db.tasks == map[0 := task] && w.db.links == map[1 := row] && w.db.receipts == map[]
  }

  function Fresh(f: TaskFields, phase: Phase): Link {
    Link(0, phase, f, None, true, None, None)
  }

  function Joined(f: TaskFields): Link {
    Link(0, Linked, f, Some(2), true, None, None)
  }

  lemma CreatedIsReachable(now: int, f: TaskFields, terms: Terms) returns (w: World)
    ensures Reachable(w) && w.worker.Busy? && w.worker.at == Listing && w.db.tasks == map[0 := Local(f, 1, terms)]
    ensures w.db.links == map[] && w.db.remote == map[] && w.db.receipts == map[] && w.next == 1
  {
    assert Run(Start(now), []) == Start(now);
    ReachableNext(Start(now), Owner(CreateTask(f, terms)));
    var created := Next(Start(now), Owner(CreateTask(f, terms)));
    ReachableNext(created, Scan(Begin));
    w := Next(created, Scan(Begin));
  }

  lemma PreparedIsReachable(now: int, f: TaskFields, terms: Terms) returns (w: World)
    ensures Reachable(w) && w.worker.Busy? && w.worker.at == Ready && Rows(w, Local(f, 1, terms), Fresh(f, Prepared))
    ensures w.db.remote == map[] && w.next == 2
  {
    var created := CreatedIsReachable(now, f, terms);
    ReachableNext(created, Scan(Prepare(0)));
    var prepared := Next(created, Scan(Prepare(0)));
    ReachableNext(prepared, Scan(Load));
    w := Next(prepared, Scan(Load));
  }

  lemma ClaimedIsReachable(now: int, f: TaskFields, terms: Terms) returns (w: World)
    ensures Reachable(w) && w.worker.Busy? && w.worker.at == On(1, Claimed(f)) && Rows(w, Local(f, 1, terms), Fresh(f, Creating))
    ensures w.db.remote == map[] && w.next == 2
  {
    var prepared := PreparedIsReachable(now, f, terms);
    ReachableNext(prepared, OnLink(Visit(1)));
    var visited := Next(prepared, OnLink(Visit(1)));
    ReachableNext(visited, OnLink(FindTask));
    var found := Next(visited, OnLink(FindTask));
    ReachableNext(found, OnLink(Claim));
    w := Next(found, OnLink(Claim));
  }

  /** Google's answer to the request. */
  function Success(f: TaskFields): Outcome {
    Answer(200, TaskBody(Some(2), Some(2), Some(f)))
  }

  lemma PostedIsReachable(now: int, f: TaskFields, terms: Terms) returns (w: World)
    requires Sendable(f) && Echo(f, None) == f
    ensures Reachable(w) && w.worker.Busy? && w.worker.at == On(1, Answered(f, Success(f))) && Rows(w, Local(f, 1, terms), Fresh(f, Creating))
    ensures w.db.remote == map[2 := Remote(2, Some(f), Some(1), false, false)] && w.next == 3
  {
    var claimed := ClaimedIsReachable(now, f, terms);
    ReachableNext(claimed, OnLink(Post(true, Success(f))));
    w := Next(claimed, OnLink(Post(true, Success(f))));
  }

  lemma JoinedIsReachable(now: int, f: TaskFields, terms: Terms) returns (w: World)
    requires Sendable(f) && Echo(f, None) == f
    ensures Reachable(w) && w.worker.Idle? && Rows(w, Local(f, 1, terms), Joined(f))
    ensures w.db.remote == map[2 := Remote(2, Some(f), Some(1), false, false)] && w.next == 3
  {
    var posted := PostedIsReachable(now, f, terms);
    ReachableNext(posted, OnLink(Settle));
    var settled := Next(posted, OnLink(Settle));
    ReachableNext(settled, OnLink(Record));
    var recorded := Next(settled, OnLink(Record));
    ReachableNext(recorded, Scan(Finish));
    w := Next(recorded, Scan(Finish));
  }

  // ---- the date of a recurring task is cleared at Google ----

  function Dated(): TaskFields {
    TaskFields("a", Some(1), false)
  }

  function Undated(): TaskFields {
    TaskFields("a", None, false)
  }

  lemma LetterIsTidy(title: string)
    requires |title| == 1 && !IsSpace(title[0])
    ensures Trim(title) == title
  {
    TrimOfTidy(title);
  }

  /** The merge clears the deadline, Google has it already, and the store refuses it for ever
      (`RefusedForEver`). */
  lemma ClearedDateIsRefused(now: int) returns (w: World)
    ensures Reachable(w) && Refused(w, 1, 2, Undated())
  {
    LetterIsTidy("a");
    var joined := JoinedIsReachable(now, Dated(), Terms(true, true, false, {}, {}));
    var step := Outside(GoogleEdits(2, Seen(None, Some(Undated()), Some(1), false, false)));
    ReachableNext(joined, step);
    w := Next(joined, step);
    InvOfReachable(w);
  }

  // ---- a title with white space around it ----

  /** Google does not give it back as it is, so the merge is never taken (`CrashAbsorbed`). */
  lemma PaddedTitleIsNotTaken(now: int) returns (w: World)
    ensures Reachable(w) && w.worker.Idle?
    ensures Mergeable(w, 1, 2, TaskFields(" a", Some(1), false)) && !GoogleTakes(w, 2, TaskFields(" a", Some(1), false))
  {
    LetterIsTidy("a");
    var padded := TaskFields(" a", Some(1), false);
    var plain := Terms(true, false, false, {}, {});
    var joined := JoinedIsReachable(now, Dated(), plain);
    ReachableNext(joined, Owner(EditTask(0, padded, plain)));
    w := Next(joined, Owner(EditTask(0, padded, plain)));
    InvOfReachable(w);
    PaddedIsTrimmed();
  }

  lemma PaddedIsTrimmed()
    ensures Trim(" a") != " a" && " a" != "a"
  {
    assert TrimStart(" a") == TrimStart(" a"[1..]);
    assert |TrimStart("a")| <= 1;
  }

  // ---- a choice that a crash can undo ----

  lemma {:induction false} ReachableRun(w: World, steps: seq<Step>)
    requires Reachable(w)
    ensures Reachable(Run(w, steps))
    decreases |steps|
  {
    if steps != [] {
      ReachableNext(w, steps[0]);
      ReachableRun(Next(w, steps[0]), steps[1..]);
    }
  }

  function Renamed(): TaskFields {
    TaskFields("b", None, false)
  }

  function RenamedThere(): TaskFields {
    TaskFields("c", Some(1), false)
  }

  /** Both sides renamed the task, and its date was cleared here. */
  lemma DivergedIsReachable(now: int) returns (w: World)
    ensures Reachable(w) && w.worker.Idle? && Unanswered(w, 1, 2) && w.db.links[1].baseline == Dated()
    ensures TaskOf(w, 1) == Local(Renamed(), 2, Terms(true, false, false, {}, {})) && w.db.remote[2].fields == Some(RenamedThere())
    ensures w.db.receipts == map[]
  {
    LetterIsTidy("a");
    var plain := Terms(true, false, false, {}, {});
    var joined := JoinedIsReachable(now, Dated(), plain);
    ReachableNext(joined, Owner(EditTask(0, Renamed(), plain)));
    var edited := Next(joined, Owner(EditTask(0, Renamed(), plain)));
    var step := Outside(GoogleEdits(2, Seen(None, Some(RenamedThere()), Some(1), false, false)));
    ReachableNext(edited, step);
    w := Next(edited, step);
    InvOfReachable(w);
    ChoiceLostToCrash();
    LettersDiffer();
  }

  lemma LettersDiffer()
    ensures "a" != "b" && "b" != "c" && "a" != "c"
  {
    assert "a"[0] == 'a' && "b"[0] == 'b' && "c"[0] == 'c';
  }

  /** The owner keeps Google's title; a crash between the PATCH and the local update is fatal. */
  lemma FatalChoiceIsReachable(now: int) returns (w: World, m: TaskFields)
    ensures Reachable(w) && w.worker.Idle? && Chosen(w, 1, 2, KeepGoogle, m)
    ensures GoogleTakes(w, 2, m) && StoreTakes(w, 1, m) && Fatal(w, 7, 2, KeepGoogle, m)
  {
    var diverged := DivergedIsReachable(now);
    var asked := AskedIsReachable(diverged, 1, 2);
    m := TaskFields("c", None, false);
    w := AnsweredIsReachable(asked, diverged, m);
  }

  lemma AskedIsReachable(w: World, l: LinkId, id: RemoteId) returns (asked: World)
    requires Reachable(w) && w.worker.Idle? && Unanswered(w, l, id)
    ensures Reachable(asked) && asked.worker.Idle? && Asked(w, asked, l, id)
  {
    DivergenceIsAsked(w, l, id);
    ReachableRun(w, Pass(l, id));
    asked := Run(w, Pass(l, id));
  }

  lemma AnsweredIsReachable(asked: World, diverged: World, m: TaskFields) returns (w: World)
    requires Reachable(asked) && asked.worker.Idle? && Unanswered(diverged, 1, 2) && Asked(diverged, asked, 1, 2)
    requires diverged.db.links[1].baseline == Dated() && m == TaskFields("c", None, false)
    requires TaskOf(diverged, 1) == Local(Renamed(), 2, Terms(true, false, false, {}, {}))
    requires diverged.db.remote[2].fields == Some(RenamedThere()) && diverged.db.receipts == map[]
    ensures Reachable(w) && w.worker.Idle? && Chosen(w, 1, 2, KeepGoogle, m)
    ensures GoogleTakes(w, 2, m) && StoreTakes(w, 1, m) && Fatal(w, 7, 2, KeepGoogle, m)
  {
    var step := Owner(Choose(1, asked.db.links[1].dispute.value.id, KeepGoogle));
    ReachableNext(asked, step);
    w := Next(asked, step);
    InvOfReachable(w);
    LettersDiffer();
    LetterIsTidy("c");
  }
}
