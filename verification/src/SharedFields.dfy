/** The fields Google Tasks and the local store share, and their three-way merge
    (apps/api/src/google_tasks.rs). */
module SharedFields {
  import opened Prelude
  import opened Strings

  datatype TaskFields = TaskFields(title: string, date: Option<int>, completed: bool)

  datatype ConflictField = Title | Date | Completion

  datatype Choice = KeepGoogle | KeepLocal

  function Merge<T(==)>(baseline: T, local: T, remote: T): Option<T> {
    if local == remote || remote == baseline then Some(local)
    else if local == baseline then Some(remote)
    else None
  }

  function Reconcile(b: TaskFields, l: TaskFields, r: TaskFields): Result<TaskFields, ConflictField> {
    match Merge(b.title, l.title, r.title)
    case None => Err(Title)
    case Some(title) =>
      match Merge(b.date, l.date, r.date)
      case None => Err(Date)
      case Some(date) =>
        match Merge(b.completed, l.completed, r.completed)
        case None => Err(Completion)
        case Some(completed) => Ok(TaskFields(title, date, completed))
  }

  function OrElse<T>(o: Option<T>, fallback: T): T {
    if o.Some? then o.value else fallback
  }

  function Resolve(b: TaskFields, l: TaskFields, r: TaskFields, choice: Choice): TaskFields {
    var preferred := if choice.KeepGoogle? then r else l;
    TaskFields(
      OrElse(Merge(b.title, l.title, r.title), preferred.title),
      OrElse(Merge(b.date, l.date, r.date), preferred.date),
      OrElse(Merge(b.completed, l.completed, r.completed), preferred.completed))
  }

  // ---- what is sent ----

  /** `TaskFields::valid`; anything else is not sent. */
  predicate Sendable(f: TaskFields) {
    1 <= |Trim(f.title)| <= 240
  }

  /** Fields that are sent come back, but a title that is written comes back without the white
      space around it. */
  function Echo(f: TaskFields, before: Option<TaskFields>): TaskFields {
    if before.Some? && before.value.title == f.title then f else f.(title := Trim(f.title))
  }

  // ---- what a merge is ----

  /** What a merge owes to each side, said without the algorithm: every edit made since
      the baseline survives, and a field nobody edited keeps its baseline value. */
  ghost predicate Honours<T(!new)>(b: T, l: T, r: T, m: T) {
    && (l != b ==> m == l)
    && (r != b ==> m == r)
    && (l == b && r == b ==> m == b)
  }

  ghost predicate HonoursAll(b: TaskFields, l: TaskFields, r: TaskFields, m: TaskFields) {
    && Honours(b.title, l.title, r.title, m.title)
    && Honours(b.date, l.date, r.date, m.date)
    && Honours(b.completed, l.completed, r.completed, m.completed)
  }

  /** `after` may replace `before` on a side whose last agreed value was `baseline`:
      every field that changes was still at the baseline. */
  ghost predicate OnlyBaselineReplaced(baseline: TaskFields, before: TaskFields, after: TaskFields) {
    && (after.title != before.title ==> before.title == baseline.title)
    && (after.date != before.date ==> before.date == baseline.date)
    && (after.completed != before.completed ==> before.completed == baseline.completed)
  }

  /** The merge succeeds with `m` exactly when `m` honours both sides, so a conflict is
      reported exactly when no value could. */
  lemma ReconcileExact(b: TaskFields, l: TaskFields, r: TaskFields)
    ensures forall m :: Reconcile(b, l, r) == Ok(m) <==> HonoursAll(b, l, r, m)
    ensures Reconcile(b, l, r).Err? <==> !exists m :: HonoursAll(b, l, r, m)
  {
    forall m: TaskFields
      ensures Reconcile(b, l, r) == Ok(m) <==> HonoursAll(b, l, r, m)
    {
    }
    if Reconcile(b, l, r).Ok? {
      assert HonoursAll(b, l, r, Reconcile(b, l, r).value);
    }
  }

  /** Neither app is privileged: swapping the two sides changes nothing, not even which
      field is reported. */
  lemma ReconcileSymmetric(b: TaskFields, l: TaskFields, r: TaskFields)
    ensures Reconcile(b, l, r) == Reconcile(b, r, l)
  {
  }

  /** A successful merge overwrites, on either side, only fields still at the baseline. */
  lemma ReconcileLosesNoEdit(b: TaskFields, l: TaskFields, r: TaskFields)
    requires Reconcile(b, l, r).Ok?
    ensures OnlyBaselineReplaced(b, l, Reconcile(b, l, r).value)
    ensures OnlyBaselineReplaced(b, r, Reconcile(b, l, r).value)
  {
    ReconcileExact(b, l, r);
  }

  /** A choice touches only the divergent fields: everything else is merged as usual, and
      the preferred side keeps every one of its edits. */
  lemma ResolveRespectsMerge(b: TaskFields, l: TaskFields, r: TaskFields, choice: Choice)
    ensures Reconcile(b, l, r).Ok? ==> Resolve(b, l, r, choice) == Reconcile(b, l, r).value
    ensures OnlyBaselineReplaced(b, if choice.KeepGoogle? then r else l, Resolve(b, l, r, choice))
  {
  }

  /** Crash absorption. Whatever prefix of "patch Google, update the task, record the
      baseline" took effect before a crash, merging again yields the same value. */
  lemma MergeAbsorbsCrash(b: TaskFields, l: TaskFields, r: TaskFields)
    requires Reconcile(b, l, r).Ok?
    ensures var m := Reconcile(b, l, r).value;
            && Reconcile(b, l, m) == Ok(m)
            && Reconcile(b, m, r) == Ok(m)
            && Reconcile(b, m, m) == Ok(m)
            && Reconcile(m, m, m) == Ok(m)
  {
  }

  /** A choice is weaker: once the chosen value replaces the remote one, merging it with the
      task's old fields gives it again exactly when the choice was to keep the local copy or
      there was no divergent field to choose about. */
  lemma ChoiceAbsorbsCrashExactly(b: TaskFields, l: TaskFields, r: TaskFields, choice: Choice)
    ensures var m := Resolve(b, l, r, choice);
            Reconcile(b, l, m) == Ok(m) <==> choice.KeepLocal? || Reconcile(b, l, r).Ok?
  {
  }

  /** Google's echo of a value that was computed for it merges to that value again, or conflicts. */
  lemma EchoMergesOrConflicts(b: TaskFields, l: TaskFields, r: TaskFields, choice: Choice)
    ensures var m := Resolve(b, l, r, choice);
            Reconcile(b, l, Echo(m, Some(r))).Ok? ==> Reconcile(b, l, Echo(m, Some(r))) == Ok(m)
  {
  }

  /** Keeping Google's copy leaves the divergence where it was. */
  lemma KeptGoogleStillConflicts(b: TaskFields, l: TaskFields, r: TaskFields)
    requires Reconcile(b, l, r).Err?
    ensures Reconcile(b, l, Echo(Resolve(b, l, r, KeepGoogle), Some(r))).Err?
  {
  }

  /** The failing family is inhabited: both sides renamed the task, the date was cleared
      locally, and the user kept Google's name. */
  lemma ChoiceLostToCrash()
    ensures var b := TaskFields("a", Some(1), false);
            var l := TaskFields("b", None, false);
            var r := TaskFields("c", Some(1), false);
            var m := Resolve(b, l, r, KeepGoogle);
            && m != r
            && Reconcile(b, l, m) == Err(Title)
  {
    assert "b" != "c" && "a" != "b" && "a" != "c" by {
      assert "a"[0] == 'a' && "b"[0] == 'b' && "c"[0] == 'c';
    }
  }
}
