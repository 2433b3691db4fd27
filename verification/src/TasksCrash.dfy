/** What a crash does to a pass, for automatic merges and for conflicts that the owner resolved
    (apps/api/src/google_tasks_sync.rs:330-434). Merging again absorbs a crash; a choice can be
    lost, because it answers one remote version and a PATCH replaces that version before the task is
    updated. What Google or the store refuses is never settled, with or without a crash. */
module TasksCrash {
  import opened Prelude
  import opened SharedFields
  import opened TasksClient
  import opened TasksProtocol
  import opened TasksSafety
  import opened TasksTheorems
  import opened TasksPass

  /** A pass cut off after `cut` statements. */
  ghost function Halted(w: World, cut: nat, l: LinkId, id: RemoteId): World
    requires cut <= |Pass(l, id)|
  {
    Next(After(w, cut, l, id), Outside(Crash))
  }

  /** And run again. */
  ghost function Again(w: World, cut: nat, l: LinkId, id: RemoteId): World
    requires cut <= |Pass(l, id)|
  {
    Run(Halted(w, cut, l, id), Pass(l, id))
  }

  lemma CrashOnlyStops(w: World)
    requires Inv(w)
    ensures var w' := Next(w, Outside(Crash)); Inv(w') && w'.worker.Idle? && OnlyWorker(w, w')
  {
    InvKept(w, Outside(Crash));
  }

  // ---- what a crash leaves ----

  /** The PATCH writes something. */
  ghost predicate Sends(w: World, id: RemoteId, m: TaskFields)
    requires id in w.db.remote
  {
    w.db.remote[id].fields != Some(m) && Sendable(m)
  }

  /** The pass was cut off between the PATCH and the local update, or gave up there. */
  ghost predicate StoppedHalfway(w: World, cut: nat, l: LinkId, id: RemoteId, m: TaskFields)
    requires Comparable(w, l, id)
  {
    cut == 7 || (cut > 7 && !BothTake(w, l, id, m))
  }

  lemma HaltedHalfway(w: World, cut: nat, l: LinkId, id: RemoteId, m: TaskFields)
    requires Computes(w, l, id, m) && w.worker.Idle? && cut <= 10 && StoppedHalfway(w, cut, l, id, m)
    ensures var h := Halted(w, cut, l, id); PatchedFrom(w, h, id, m) && Comparable(h, l, id) && h.worker.Idle?
  {
    PatchDone(w, l, id, m);
    var p := After(w, 7, l, id);
    if cut > 7 {
      RefusedPass(w, cut, l, id, m);
    }
    CrashAfter(w, p, After(w, cut, l, id), l, id, m);
  }

  lemma CrashAfter(w: World, p: World, a: World, l: LinkId, id: RemoteId, m: TaskFields)
    requires id in w.db.remote && PatchedFrom(w, p, id, m) && Comparable(p, l, id) && OnlyWorker(p, a)
    ensures var h := Next(a, Outside(Crash)); PatchedFrom(w, h, id, m) && Comparable(h, l, id) && h.worker.Idle?
  {
    CrashOnlyStops(p);
    assert Next(a, Outside(Crash)) == Next(p, Outside(Crash));
  }

  /** Nothing has been written yet. */
  lemma HaltedEarly(w: World, cut: nat, l: LinkId, id: RemoteId, m: TaskFields)
    requires Computes(w, l, id, m) && w.worker.Idle? && cut <= 10
    requires cut <= 6 || (StoppedHalfway(w, cut, l, id, m) && !Sends(w, id, m))
    ensures var h := Halted(w, cut, l, id); h.db == w.db && Inv(h) && h.worker.Idle?
  {
    if cut <= 5 {
      Opened(w, cut, l, id);
      CrashOnlyStops(After(w, cut, l, id));
    } else if cut == 6 {
      Computed(w, l, id, m);
      CrashOnlyStops(After(w, cut, l, id));
    } else {
      HaltedHalfway(w, cut, l, id, m);
    }
  }

  /** The task has been written. */
  lemma HaltedLate(w: World, cut: nat, l: LinkId, id: RemoteId, m: TaskFields)
    requires Computes(w, l, id, m) && w.worker.Idle? && 8 <= cut <= 10 && BothTake(w, l, id, m)
    ensures var h := Halted(w, cut, l, id); Mergeable(h, l, id, m) && h.worker.Idle? && BothTake(h, l, id, m)
  {
    RecordDone(w, cut, l, id, m);
    CrashInAgreement(After(w, cut, l, id), l, id, m);
  }

  lemma CrashInAgreement(w: World, l: LinkId, id: RemoteId, m: TaskFields)
    requires Agreed(w, l, id, m)
    ensures var h := Next(w, Outside(Crash)); Mergeable(h, l, id, m) && h.worker.Idle? && BothTake(h, l, id, m)
  {
    CrashOnlyStops(w);
  }

  /** Google has its own version of the value, under an ETag that nobody has seen. */
  lemma SentAgain(w: World, h: World, l: LinkId, id: RemoteId, m: TaskFields)
    requires Computes(w, l, id, m) && Sends(w, id, m) && PatchedFrom(w, h, id, m) && Comparable(h, l, id)
    ensures Mergeable(h, l, id, m) || Unanswered(h, l, id)
    ensures BothTake(h, l, id, m) <==> BothTake(w, l, id, m)
    ensures Echo(m, h.db.remote[id].fields) == h.db.remote[id].fields.value
  {
    var row, task, r := w.db.links[l], TaskOf(w, l), w.db.remote[id].fields.value;
    if Mergeable(w, l, id, m) {
      ResolveRespectsMerge(row.baseline, task.fields, r, KeepLocal);
      EchoMergesOrConflicts(row.baseline, task.fields, r, KeepLocal);
    } else {
      var choice :| Chosen(w, l, id, choice, m);
      EchoMergesOrConflicts(row.baseline, task.fields, r, choice);
    }
    EchoTwice(m, Some(r));
  }

  lemma EchoTwice(m: TaskFields, r: Option<TaskFields>)
    ensures Echo(m, Some(Echo(m, r))) == Echo(m, r)
  {
  }

  // ---- running again ----

  lemma RefusedAgain(w: World, h: World, l: LinkId, id: RemoteId, m: TaskFields)
    requires Comparable(w, l, id) && Computes(h, l, id, m) && h.worker.Idle? && !BothTake(h, l, id, m)
    requires Unsettled(w, h, l, id, m) && Echo(m, h.db.remote[id].fields) == Echo(m, w.db.remote[id].fields)
    requires Sendable(m) || h.db.remote[id].fields == w.db.remote[id].fields
    ensures var f := Run(h, Pass(l, id));
            && Unsettled(w, f, l, id, m) && (Sendable(m) || f.db.remote[id].fields == w.db.remote[id].fields)
  {
    PatchDone(h, l, id, m);
    RefusedPass(h, 10, l, id, m);
    WholePass(h, l, id);
  }

  lemma AskedAgain(w: World, h: World, l: LinkId, id: RemoteId, m: TaskFields)
    requires Comparable(w, l, id) && Unanswered(h, l, id) && h.worker.Idle? && Unsettled(w, h, l, id, m) && h.db.links == w.db.links
    requires Reconcile(w.db.links[l].baseline, TaskOf(w, l).fields, h.db.remote[id].fields.value).Err?
    ensures var f := Run(h, Pass(l, id)); Asks(f, l, id) && Unsettled(w, f, l, id, m) && !Settled(f, l, id, m)
  {
    DivergenceIsAsked(h, l, id);
    DivergedIsUnsettled(w.db.links[l].baseline, TaskOf(w, l).fields, h.db.remote[id].fields.value, m);
  }

  /** The value is lost: the owner is asked about it again. */
  ghost predicate Lost(w: World, cut: nat, l: LinkId, id: RemoteId, m: TaskFields)
    requires Comparable(w, l, id)
  {
    && StoppedHalfway(w, cut, l, id, m) && Sends(w, id, m)
    && Reconcile(w.db.links[l].baseline, TaskOf(w, l).fields, Echo(m, w.db.remote[id].fields)).Err?
  }

  lemma AgainFromStart(w: World, cut: nat, l: LinkId, id: RemoteId, m: TaskFields)
    requires Computes(w, l, id, m) && w.worker.Idle? && cut <= 10
    requires cut <= 6 || (StoppedHalfway(w, cut, l, id, m) && !Sends(w, id, m))
    ensures BothTake(w, l, id, m) ==> Settled(Again(w, cut, l, id), l, id, m)
    ensures !BothTake(w, l, id, m) ==> Unsettled(w, Again(w, cut, l, id), l, id, m) && !Settled(Again(w, cut, l, id), l, id, m)
  {
    var h := Halted(w, cut, l, id);
    HaltedEarly(w, cut, l, id, m);
    SameRows(w, h, l, id, m);
    if BothTake(w, l, id, m) {
      PassSettles(h, l, id, m);
    } else {
      RefusedAgain(w, h, l, id, m);
      NotSettled(w, Again(w, cut, l, id), l, id, m);
    }
  }

  lemma AgainHalfway(w: World, cut: nat, l: LinkId, id: RemoteId, m: TaskFields)
    requires Computes(w, l, id, m) && w.worker.Idle? && cut <= 10 && StoppedHalfway(w, cut, l, id, m) && Sends(w, id, m)
    ensures !Lost(w, cut, l, id, m) && BothTake(w, l, id, m) ==> Settled(Again(w, cut, l, id), l, id, m)
    ensures Lost(w, cut, l, id, m) ==> Asks(Again(w, cut, l, id), l, id)
    ensures Lost(w, cut, l, id, m) || !BothTake(w, l, id, m) ==>
              Unsettled(w, Again(w, cut, l, id), l, id, m) && !Settled(Again(w, cut, l, id), l, id, m)
  {
    var h := Halted(w, cut, l, id);
    HaltedHalfway(w, cut, l, id, m);
    SentAgain(w, h, l, id, m);
    if Unanswered(h, l, id) {
      AskedAgain(w, h, l, id, m);
    } else if BothTake(w, l, id, m) {
      PassSettles(h, l, id, m);
    } else {
      RefusedAgain(w, h, l, id, m);
      NotSettled(w, Again(w, cut, l, id), l, id, m);
    }
  }

  /** Copies that agree do not diverge. */
  lemma DivergedIsUnsettled(b: TaskFields, l: TaskFields, r: TaskFields, m: TaskFields)
    requires Reconcile(b, l, r).Err?
    ensures l != m || r != m
  {
  }

  // ---- the theorems ----

  lemma AgainLate(w: World, cut: nat, l: LinkId, id: RemoteId, m: TaskFields)
    requires Computes(w, l, id, m) && w.worker.Idle? && 8 <= cut <= 10 && BothTake(w, l, id, m)
    ensures Settled(Again(w, cut, l, id), l, id, m)
  {
    HaltedLate(w, cut, l, id, m);
    PassSettles(Halted(w, cut, l, id), l, id, m);
  }

  /** A pass cut off anywhere and run again: settled exactly if both sides take the value and it
      was not lost. */
  lemma AgainExactly(w: World, cut: nat, l: LinkId, id: RemoteId, m: TaskFields)
    requires Computes(w, l, id, m) && w.worker.Idle? && cut <= 10
    ensures Settled(Again(w, cut, l, id), l, id, m) <==> BothTake(w, l, id, m) && !Lost(w, cut, l, id, m)
    ensures !BothTake(w, l, id, m) ==> Unsettled(w, Again(w, cut, l, id), l, id, m)
    ensures Lost(w, cut, l, id, m) ==> Asks(Again(w, cut, l, id), l, id)
  {
    if cut > 7 && BothTake(w, l, id, m) {
      AgainLate(w, cut, l, id, m);
    } else if cut > 6 && Sends(w, id, m) {
      AgainHalfway(w, cut, l, id, m);
    } else {
      AgainFromStart(w, cut, l, id, m);
    }
  }

  /** An automatic merge absorbs every crash: a pass cut off after any number of its statements and
      run again leaves task, remote task and baseline equal to the first merge, if and only if Google
      and the store take that merge. Otherwise task and link are as they were. */
  lemma CrashAbsorbed(w: World, cut: nat, l: LinkId, id: RemoteId, m: TaskFields)
    requires Mergeable(w, l, id, m) && w.worker.Idle? && cut <= |Pass(l, id)|
    ensures Settled(Again(w, cut, l, id), l, id, m) <==> GoogleTakes(w, id, m) && StoreTakes(w, l, m)
    ensures !(GoogleTakes(w, id, m) && StoreTakes(w, l, m)) ==> Unsettled(w, Again(w, cut, l, id), l, id, m)
  {
    AgainExactly(w, cut, l, id, m);
    MergeAbsorbsCrash(w.db.links[l].baseline, TaskOf(w, l).fields, w.db.remote[id].fields.value);
  }

  /** The crash came between a PATCH that wrote and the local update, and the owner had preferred
      Google's copy. */
  ghost predicate Fatal(w: World, cut: nat, id: RemoteId, choice: Choice, m: TaskFields)
    requires id in w.db.remote
  {
    cut == 7 && choice.KeepGoogle? && Sends(w, id, m)
  }

  /** A resolved conflict whose pass is cut off by a crash and run again ends with task, remote task
      and baseline equal to the choice, if and only if Google and the store take it and the crash was
      not a fatal one. After a fatal one the owner is asked again. */
  lemma ChoiceAbsorbed(w: World, cut: nat, l: LinkId, id: RemoteId, choice: Choice, m: TaskFields)
    requires Chosen(w, l, id, choice, m) && w.worker.Idle? && cut <= |Pass(l, id)|
    ensures Settled(Again(w, cut, l, id), l, id, m) <==>
              GoogleTakes(w, id, m) && StoreTakes(w, l, m) && !Fatal(w, cut, id, choice, m)
    ensures !(GoogleTakes(w, id, m) && StoreTakes(w, l, m)) ==> Unsettled(w, Again(w, cut, l, id), l, id, m)
    ensures Fatal(w, cut, id, choice, m) ==> Asks(Again(w, cut, l, id), l, id)
  {
    var b, task, r := w.db.links[l].baseline, TaskOf(w, l).fields, w.db.remote[id].fields.value;
    AgainExactly(w, cut, l, id, m);
    ChoiceAbsorbsCrashExactly(b, task, r, choice);
    KeptGoogleStillConflicts(b, task, r);
  }

  lemma AnswerIsTaken(w: World, l: LinkId, id: RemoteId, choice: Choice)
    requires Comparable(w, l, id) && w.worker.Idle? && Asks(w, l, id)
    requires Reconcile(w.db.links[l].baseline, TaskOf(w, l).fields, w.db.remote[id].fields.value).Err?
    ensures var answered := Next(w, Owner(Choose(l, w.db.links[l].dispute.value.id, choice)));
            var m := Resolve(w.db.links[l].baseline, TaskOf(w, l).fields, w.db.remote[id].fields.value, choice);
            && Chosen(answered, l, id, choice, m) && answered.worker.Idle? && Comparable(answered, l, id)
            && answered.db.tasks == w.db.tasks && answered.db.remote == w.db.remote
  {
    InvKept(w, Owner(Choose(l, w.db.links[l].dispute.value.id, choice)));
  }

  /** Once the owner answers what the link asks, the next pass makes both copies what that answer
      says, if and only if both sides take it. */
  lemma AnswerIsCarriedOut(w: World, l: LinkId, id: RemoteId, choice: Choice)
    requires Comparable(w, l, id) && w.worker.Idle? && Asks(w, l, id)
    requires Reconcile(w.db.links[l].baseline, TaskOf(w, l).fields, w.db.remote[id].fields.value).Err?
    ensures var answered := Next(w, Owner(Choose(l, w.db.links[l].dispute.value.id, choice)));
            var m := Resolve(w.db.links[l].baseline, TaskOf(w, l).fields, w.db.remote[id].fields.value, choice);
            Settled(Run(answered, Pass(l, id)), l, id, m) <==> GoogleTakes(w, id, m) && StoreTakes(w, l, m)
  {
    AnswerIsTaken(w, l, id, choice);
    var answered := Next(w, Owner(Choose(l, w.db.links[l].dispute.value.id, choice)));
    var m := Resolve(w.db.links[l].baseline, TaskOf(w, l).fields, w.db.remote[id].fields.value, choice);
    if BothTake(answered, l, id, m) {
      PassSettles(answered, l, id, m);
    } else {
      RefusedPasses(answered, l, id, m);
    }
  }

  /** What one side refuses is not settled. */
  lemma RefusedPasses(w: World, l: LinkId, id: RemoteId, m: TaskFields)
    requires Computes(w, l, id, m) && w.worker.Idle? && !BothTake(w, l, id, m)
    ensures !Settled(Run(w, Pass(l, id)), l, id, m)
  {
    PatchDone(w, l, id, m);
    RefusedPass(w, 10, l, id, m);
    WholePass(w, l, id);
    NotSettled(w, Run(w, Pass(l, id)), l, id, m);
  }

  // ---- what the store refuses ----

  /** Any number of passes, each cut off somewhere or not. */
  ghost function Attempts(w: World, cuts: seq<nat>, l: LinkId, id: RemoteId): World
    requires forall i :: 0 <= i < |cuts| ==> cuts[i] <= 10
    decreases |cuts|
  {
    if cuts == [] then w else Attempts(Halted(w, cuts[0], l, id), cuts[1..], l, id)
  }

  /** Google takes the merge, the store does not. */
  ghost predicate Refused(w: World, l: LinkId, id: RemoteId, m: TaskFields) {
    Mergeable(w, l, id, m) && w.worker.Idle? && GoogleTakes(w, id, m) && !StoreTakes(w, l, m)
  }

  lemma OneAttempt(w: World, cut: nat, l: LinkId, id: RemoteId, m: TaskFields)
    requires Refused(w, l, id, m) && cut <= 10
    ensures var h := Halted(w, cut, l, id);
            && Refused(h, l, id, m) && h.db.tasks == w.db.tasks && h.db.links == w.db.links
            && (cut >= 7 || w.db.remote[id].fields == Some(m) ==> h.db.remote[id].fields == Some(m))
  {
    if cut <= 6 {
      HaltedEarly(w, cut, l, id, m);
    } else {
      HaltedHalfway(w, cut, l, id, m);
    }
    MergeAbsorbsCrash(w.db.links[l].baseline, TaskOf(w, l).fields, w.db.remote[id].fields.value);
  }

  /** A merge that the store refuses is never settled: after any number of passes the link is still
      linked, task and baseline are what they were, and from the first PATCH on Google has the
      merge. */
  lemma {:induction false} RefusedForEver(w: World, cuts: seq<nat>, l: LinkId, id: RemoteId, m: TaskFields)
    requires Refused(w, l, id, m) && forall i :: 0 <= i < |cuts| ==> cuts[i] <= 10
    ensures var after := Attempts(w, cuts, l, id);
            && Refused(after, l, id, m) && after.db.tasks == w.db.tasks && after.db.links == w.db.links
            && !Settled(after, l, id, m)
            && ((exists i :: 0 <= i < |cuts| && cuts[i] >= 7) || w.db.remote[id].fields == Some(m) ==>
                  after.db.remote[id].fields == Some(m))
    decreases |cuts|
  {
    if cuts != [] {
      OneAttempt(w, cuts[0], l, id, m);
      RefusedForEver(Halted(w, cuts[0], l, id), cuts[1..], l, id, m);
      if i :| 0 <= i < |cuts| && cuts[i] >= 7 && i > 0 {
        assert cuts[1..][i - 1] >= 7;
      }
    }
  }
}
