/** When an undo succeeds at once, and what its success says about the time in between
    (apps/api/src/task_delete_store.rs:393-506). */
module ImmediateUndo {
  import opened Prelude
  import opened Rows
  import opened Transactions
  import opened ScheduleMirror
  import opened RecurrenceLineage
  import opened DeleteUndo
  import opened DeleteRoundTrip

  // ---- success means that nothing guarded was touched ----

  /** Rows that the deletion left alone and the undo depends on. */
  ghost predicate RelativesUntouched(before: Db, t: Id, deleted: Db, later: Db)
    requires t in before.tasks
  {
    var task := before.tasks[t];
    && (forall p :: p in Ids(task.place.project, task.template.project) ==>
          p in before.side.projects && p in later.side.projects && later.side.projects[p] == before.side.projects[p])
    && (forall k :: k in Ids(task.place.parent, task.place.source) ==>
          k in before.tasks && k in later.tasks && later.tasks[k] == before.tasks[k])
    && (forall k :: k in before.tasks && before.tasks[k].place.source == Some(t) && k != t ==>
          k in deleted.tasks && k in later.tasks && later.tasks[k] == deleted.tasks[k])
  }

  ghost predicate FilesUntouched(before: Db, t: Id, later: Db) {
    var events := Ids(EventId(before, t), None);
    forall f :: f in FilesOf(before.side.files, {t}, events, NotesOf(before.side.notes, {t}, events)) ==>
      f in later.side.files && later.side.files[f] == DetachedFile(before.side.files[f])
  }

  /** The revisions cover every focus list of the task and, with an event, the calendar choice. */
  ghost predicate RevisionsUntouched(before: Db, t: Id, deleted: Db, later: Db) {
    && (forall k :: k in before.side.focus && k.1 == t ==>
          && Rev(later.side.revisions, FocusScope(k.0)) == Rev(deleted.side.revisions, FocusScope(k.0))
          && Rev(later.side.revisions, ReviewScope) == Rev(deleted.side.revisions, ReviewScope))
    && (EventId(before, t).Some? ==> Rev(later.side.revisions, CalendarScope) == Rev(deleted.side.revisions, CalendarScope))
  }

  /** The event's calendar is as it was, up to the columns of its synchronization, and so are the
      Google account and, in every column, the held mapping, which no conflict was raised about. */
  ghost predicate CalendarUntouched(before: Db, t: Id, deleted: Db, later: Db) {
    && (forall e :: EventId(before, t) == Some(e) ==>
          && e in before.cal.events && before.cal.events[e].calendar in before.cal.calendars
          && var c := before.cal.events[e].calendar;
             && c in later.cal.calendars && CalendarGuard(later.cal.calendars[c]) == CalendarGuard(before.cal.calendars[c])
             && (IsGoogle(before.cal, c) ==> before.cal.account.Some? && later.cal.account == before.cal.account))
    && (forall m :: MappingId(before, t) == Some(m) ==>
          && m in deleted.cal.mappings && m in later.cal.mappings
          && later.cal.mappings[m] == deleted.cal.mappings[m] && m !in later.cal.conflicts)
  }

  lemma SuccessorGuarded(before: Db, t: Id, base: Db, s: Snapshot, saved: Snapshot, later: Db, k: Id)
    requires t in before.tasks && Base(before, base, t, s) && Records(before, t, saved)
    requires SuccessorsUnchanged(later.tasks, saved.owned.successors)
    requires k in before.tasks && before.tasks[k].place.source == Some(t) && k != t
    ensures k in RemoveTasks(base.tasks, {t}) && k in later.tasks && later.tasks[k] == RemoveTasks(base.tasks, {t})[k]
  {
    assert k in SuccessorsOf(before.tasks, t);
    assert k in saved.owned.successors && saved.owned.successors[k] == before.tasks[k];
  }

  lemma RelativesGuarded(before: Db, t: Id, base: Db, s: Snapshot, deleted: Db, later: Db, saved: Snapshot)
    requires Happened(before, t, base, s, deleted) && Records(before, t, saved)
    requires RowsUnchanged(later.side.projects, saved.guards.projects) && RowsUnchanged(later.tasks, saved.guards.tasks)
    requires SuccessorsUnchanged(later.tasks, saved.owned.successors)
    ensures RelativesUntouched(before, t, deleted, later)
  {
    var task := before.tasks[t];
    forall p | p in Ids(task.place.project, task.template.project)
      ensures p in before.side.projects && p in later.side.projects && later.side.projects[p] == before.side.projects[p]
    {
      assert p in saved.guards.projects && saved.guards.projects[p] == before.side.projects[p];
    }
    forall k | k in Ids(task.place.parent, task.place.source)
      ensures k in before.tasks && k in later.tasks && later.tasks[k] == before.tasks[k]
    {
      assert k in saved.guards.tasks && saved.guards.tasks[k] == before.tasks[k];
    }
    forall k | k in before.tasks && before.tasks[k].place.source == Some(t) && k != t
      ensures k in deleted.tasks && k in later.tasks && later.tasks[k] == deleted.tasks[k]
    {
      SuccessorGuarded(before, t, base, s, saved, later, k);
    }
  }

  lemma FilesGuarded(before: Db, t: Id, saved: Snapshot, later: Db)
    requires t in before.tasks && Records(before, t, saved) && FilesUnchanged(later.side.files, saved.owned.files)
    ensures FilesUntouched(before, t, later)
  {
    var events := Ids(EventId(before, t), None);
    forall f | f in FilesOf(before.side.files, {t}, events, NotesOf(before.side.notes, {t}, events))
      ensures f in later.side.files && later.side.files[f] == DetachedFile(before.side.files[f])
    {
      assert f in saved.owned.files && saved.owned.files[f] == before.side.files[f];
    }
  }

  lemma RevisionsRecorded(before: Db, t: Id, base: Db, s: Snapshot, m: Option<Id>, scope: Scope)
    requires t in before.tasks && Base(before, base, t, s) && scope in s.guards.revisions
    ensures var saved := Deleted(base, s, m).undo.deletes[base.clock.next].snapshot.guards.revisions;
            scope in saved && saved[scope] == Rev(Deleted(base, s, m).side.revisions, scope)
  {
  }

  lemma ScopesTaken(before: Db, t: Id, s: Snapshot, scope: Scope)
    requires t in before.tasks && (s == Taken(before, t) || s == Repaired(Taken(before, t)))
    requires || (exists k :: k in before.side.focus && k.1 == t && (scope == FocusScope(k.0) || scope == ReviewScope))
             || (EventId(before, t).Some? && scope == CalendarScope)
    ensures scope in s.guards.revisions
  {
    RepairedIs(Taken(before, t));
    var focus := FocusOf(before.side.focus, t);
    if k :| k in before.side.focus && k.1 == t && (scope == FocusScope(k.0) || scope == ReviewScope) {
      assert k == (k.0, t) && k.0 in focus;
    }
  }

  lemma RevisionGuarded(before: Db, t: Id, base: Db, s: Snapshot, deleted: Db, later: Db, saved: Snapshot, scope: Scope)
    requires Happened(before, t, base, s, deleted) && RevisionsUnchanged(later, saved.guards)
    requires saved == deleted.undo.deletes[base.clock.next].snapshot
    requires || (exists k :: k in before.side.focus && k.1 == t && (scope == FocusScope(k.0) || scope == ReviewScope))
             || (EventId(before, t).Some? && scope == CalendarScope)
    ensures Rev(later.side.revisions, scope) == Rev(deleted.side.revisions, scope)
  {
    ScopesTaken(before, t, s, scope);
    RevisionsRecorded(before, t, base, s, MappingId(before, t), scope);
  }

  lemma RevisionsGuarded(before: Db, t: Id, base: Db, s: Snapshot, deleted: Db, later: Db, saved: Snapshot)
    requires Happened(before, t, base, s, deleted) && RevisionsUnchanged(later, saved.guards)
    requires saved == deleted.undo.deletes[base.clock.next].snapshot
    ensures RevisionsUntouched(before, t, deleted, later)
  {
    forall k | k in before.side.focus && k.1 == t
      ensures Rev(later.side.revisions, FocusScope(k.0)) == Rev(deleted.side.revisions, FocusScope(k.0))
      ensures Rev(later.side.revisions, ReviewScope) == Rev(deleted.side.revisions, ReviewScope)
    {
      RevisionGuarded(before, t, base, s, deleted, later, saved, FocusScope(k.0));
      RevisionGuarded(before, t, base, s, deleted, later, saved, ReviewScope);
    }
    if EventId(before, t).Some? {
      RevisionGuarded(before, t, base, s, deleted, later, saved, CalendarScope);
    }
  }

  lemma MappingGuarded(before: Db, t: Id, base: Db, s: Snapshot, deleted: Db, later: Db, m: Id)
    requires Happened(before, t, base, s, deleted) && MappingId(before, t) == Some(m)
    requires MappingHeld(later, s.core, before.clock.now + UNDO_WINDOW)
    ensures m in deleted.cal.mappings && m in later.cal.mappings
    ensures later.cal.mappings[m] == deleted.cal.mappings[m] && m !in later.cal.conflicts
  {
    BaseMapping(before, t, base, s, m);
    CleanIsUnmarked(before, t);
    MappingReady(before, t, base, s, deleted);
  }

  lemma CalendarGuarded(before: Db, t: Id, base: Db, s: Snapshot, deleted: Db, later: Db, saved: Snapshot)
    requires Happened(before, t, base, s, deleted) && Records(before, t, saved) && saved.core == s.core
    requires CalendarUnchanged(later, saved.guards) && AccountUnchanged(later, saved.guards)
    requires MappingHeld(later, saved.core, before.clock.now + UNDO_WINDOW)
    ensures CalendarUntouched(before, t, deleted, later)
  {
    if MappingId(before, t).Some? {
      MappingGuarded(before, t, base, s, deleted, later, MappingId(before, t).value);
    }
  }

  /** Whatever happened in between: if the undo succeeds, every row and revision it depends on
      is as the deletion left it. */
  lemma UndoSeesNoChange(before: Db, t: Id, expected: int, validated: Option<Snapshot>, deleted: Db,
                         later: Db, provider: Option<AppError>, after: Db)
    requires Deletes(before, t, expected, validated, deleted)
    requires Undoes(deleted, before.clock.next, later, provider, after)
    ensures t in before.tasks && RelativesUntouched(before, t, deleted, later)
    ensures FilesUntouched(before, t, later) && RevisionsUntouched(before, t, deleted, later)
    ensures CalendarUntouched(before, t, deleted, later)
  {
    var base, s := DeletionIs(before, t, expected, validated, deleted);
    ReceiptOf(before, t, base, s, deleted);
    BaseTables(before, t, base, s);
    var saved := later.undo.deletes[before.clock.next].snapshot;
    RelativesGuarded(before, t, base, s, deleted, later, saved);
    FilesGuarded(before, t, saved, later);
    RevisionsGuarded(before, t, base, s, deleted, later, saved);
    CalendarGuarded(before, t, base, s, deleted, later, saved);
  }

  // ---- undoing at once ----

  /** What the tables promise of the rows a deletion takes along: unique indexes and the checks
      that a file hangs on one thing and that a day's focus positions differ. */
  ghost predicate Sound(db: Db) {
    && OneEvent(db.cal.events) && OneMapping(db.cal.mappings) && Lines(db.tasks)
    && (forall f :: f in db.side.files ==> OneHome(db.side.files[f].home))
    && (forall k, l :: k in db.side.focus && l in db.side.focus && k.0 == l.0 && db.side.focus[k] == db.side.focus[l] ==> k == l)
  }

  ghost predicate OneMapping(mappings: Mappings) {
    forall m, n :: m in mappings && n in mappings && mappings[m].canonical.Some? && mappings[m].canonical == mappings[n].canonical ==> m == n
  }

  predicate OneHome(h: Home) {
    && (h.task.Some? ==> h.project.None? && h.event.None? && h.note.None?)
    && (h.event.Some? ==> h.project.None? && h.note.None?)
    && (h.note.Some? ==> h.project.None?)
  }

  /** The task hangs under its own successor. */
  ghost predicate UnderSuccessor(db: Db, t: Id)
    requires t in db.tasks
  {
    var p := db.tasks[t].place.parent;
    p.Some? && p.value in db.tasks && db.tasks[p.value].place.source == Some(t)
  }

  lemma FilesDetached(files: map<Id, File>, t: Id, events: set<Id>, notes: set<Id>)
    requires forall f :: f in files ==> OneHome(files[f].home)
    ensures FilesUnchanged(DetachFiles(files, {t}, events, notes), Among(files, FilesOf(files, {t}, events, notes)))
  {
  }

  lemma SuccessorsDetached(tasks: Tasks, t: Id)
    requires Lines(tasks)
    ensures SuccessorsUnchanged(RemoveTasks(tasks, {t}), Among(tasks, SuccessorsOf(tasks, t)))
  {
    forall k | k in SuccessorsOf(tasks, t)
      ensures k != t
    {
      assert SourceDone(tasks, k, t);
    }
  }

  /** The one row that the deletion changes and the undo expects unchanged is a parent whose
      own source is the task. */
  lemma RelativesKept(tasks: Tasks, t: Id)
    requires Lines(tasks) && t in tasks && tasks[t].place.parent != Some(t)
    requires Ids(tasks[t].place.parent, tasks[t].place.source) <= tasks.Keys
    ensures var kept := Among(tasks, Ids(tasks[t].place.parent, tasks[t].place.source));
            var p := tasks[t].place.parent;
            RowsUnchanged(RemoveTasks(tasks, {t}), kept) <==> !(p.Some? && tasks[p.value].place.source == Some(t))
  {
    var kept := Among(tasks, Ids(tasks[t].place.parent, tasks[t].place.source));
    var after := RemoveTasks(tasks, {t});
    if tasks[t].place.source.Some? {
      var s := tasks[t].place.source.value;
      assert SourceDone(tasks, t, s);
      assert tasks[s].place.source == Some(t) ==> SourceDone(tasks, s, t);
    }
    if tasks[t].place.parent.Some? {
      var p := tasks[t].place.parent.value;
      assert p in kept;
      assert after[p] == if tasks[p].place.source == Some(t) then WithoutSource(tasks[p]) else tasks[p];
    }
  }

  lemma RoomForTask(tasks: Tasks, t: Id)
    requires Lines(tasks) && t in tasks
    ensures t !in RemoveTasks(tasks, {t})
    ensures tasks[t].place.source.Some? ==> SuccessorsOf(RemoveTasks(tasks, {t}), tasks[t].place.source.value) == {}
  {
    var after := RemoveTasks(tasks, {t});
    if tasks[t].place.source.Some? {
      var s := tasks[t].place.source.value;
      forall k | k in after
        ensures after[k].place.source != Some(s)
      {
        assert k in tasks && k != t;
      }
    }
  }

  lemma RoomForEvent(events: Events, t: Id)
    ensures EventsOf(events - EventsOf(events, {t}), {t}) == {}
  {
  }

  lemma RoomForFocus(focus: Focus, t: Id, d: int, k: (int, Id))
    requires forall k, l :: k in focus && l in focus && k.0 == l.0 && focus[k] == focus[l] ==> k == l
    requires d in FocusOf(focus, t) && k in focus - FocusRowsOf(focus, {t}) && k.0 == d
    ensures k.1 != t && focus[k] != FocusOf(focus, t)[d]
  {
    assert (d, t) in focus;
    assert k !in FocusRowsOf(focus, {t});
  }

  /** What a deletion writes in the side tables, and that the way back is free there. */
  lemma SideIsFree(db: Db, t: Id, events: set<Id>, owned: SnapshotOwned)
    requires Sound(db)
    requires owned.notes == Among(db.side.notes, NotesOf(db.side.notes, {t}, events))
    requires owned.files == Among(db.side.files, FilesOf(db.side.files, {t}, events, NotesOf(db.side.notes, {t}, events)))
    requires owned.focus == FocusOf(db.side.focus, t)
    ensures var side := DropSide(db.side, {t}, events);
            && FilesUnchanged(side.files, owned.files)
            && (forall n :: n in owned.notes ==> n !in side.notes)
            && (forall d, k :: d in owned.focus && k in side.focus && k.0 == d ==> k.1 != t && side.focus[k] != owned.focus[d])
  {
    var side := DropSide(db.side, {t}, events);
    FilesDetached(db.side.files, t, events, NotesOf(db.side.notes, {t}, events));
    forall d, k | d in owned.focus && k in side.focus && k.0 == d
      ensures k.1 != t && side.focus[k] != owned.focus[d]
    {
      RoomForFocus(db.side.focus, t, d, k);
    }
  }

  /** The mapping's hold is what the undo expects. */
  lemma HeldIs(mappings: Mappings, core: SnapshotCore, m: Option<Id>, expires: int, gone: set<Id>, after: Db)
    requires core.mapping.Some? <==> m.Some?
    requires m.Some? ==>
               && core.mapping.value.0 == m.value && m.value in mappings && m.value !in after.cal.conflicts
               && mappings[m.value] == core.mapping.value.1 && !core.mapping.value.1.flags.dirty
    requires after.cal.mappings == CutMappings(HoldMapping(mappings, m, expires), gone)
    ensures MappingHeld(after, core, expires)
  {
  }

  /** The event side of the snapshot. */
  lemma EventSide(before: Db, t: Id, base: Db, s: Snapshot)
    requires t in before.tasks && Base(before, base, t, s)
    ensures EventId(before, t).Some? ==>
              EventId(before, t).value in before.cal.events
              && s.core.event == Some((EventId(before, t).value, before.cal.events[EventId(before, t).value]))
    ensures EventId(before, t).None? ==> s.core.event.None?
    ensures MappingId(before, t).None? ==> s.core.mapping.None?
  {
    RepairedIs(Taken(before, t));
  }

  lemma OneLinked(events: Events, t: Id)
    requires OneEvent(events)
    ensures EventsOf(events, {t}) == Ids(LinkedEvent(events, t), None)
  {
    var linked := EventsOf(events, {t});
    var e := LinkedEvent(events, t);
    if e.Some? {
      forall f | f in linked
        ensures f == e.value
      {
      }
    }
  }

  /** The database at `now`, as the deletion left it. */
  function At(db: Db, now: int): Db {
    db.(clock := db.clock.(now := now))
  }

  lemma BaseMapping(before: Db, t: Id, base: Db, s: Snapshot, m: Id)
    requires t in before.tasks && Base(before, base, t, s) && MappingId(before, t) == Some(m)
    ensures m in before.cal.mappings && m in base.cal.mappings && base.cal.conflicts == before.cal.conflicts
    ensures s.core.mapping.Some? && s.core.mapping.value.0 == m && base.cal.mappings[m] == s.core.mapping.value.1
    ensures s.core.mapping.value.1.flags == before.cal.mappings[m].flags
  {
    TakenMapping(before, t);
    RepairedMapping(Taken(before, t));
  }

  lemma MappingIsHeld(before: Db, t: Id, base: Db, s: Snapshot, m: Option<Id>, gone: set<Id>, expires: int, after: Db)
    requires t in before.tasks && Base(before, base, t, s) && m == MappingId(before, t)
    requires after.cal.mappings == CutMappings(HoldMapping(base.cal.mappings, m, expires), gone)
    requires after.cal.conflicts == base.cal.conflicts
    requires m.None? ==> s.core.mapping.None?
    requires m.Some? ==> m.value in before.cal.mappings && m.value !in before.cal.conflicts && !before.cal.mappings[m.value].flags.dirty
    ensures MappingHeld(after, s.core, expires)
  {
    if m.Some? {
      BaseMapping(before, t, base, s, m.value);
      assert m.value in base.cal.mappings && m.value !in after.cal.conflicts;
    }
    HeldIs(base.cal.mappings, s.core, m, expires, gone, after);
  }

  lemma RecordedGuards(before: Db, t: Id, base: Db, s: Snapshot, m: Option<Id>, now: int)
    requires t in before.tasks && Base(before, base, t, s)
    ensures var later := At(Deleted(base, s, m), now);
            base.clock.next in later.undo.deletes
    ensures var later := At(Deleted(base, s, m), now);
            var saved := later.undo.deletes[base.clock.next].snapshot;
            && RevisionsUnchanged(later, saved.guards)
            && RowsUnchanged(later.side.projects, saved.guards.projects)
            && CalendarUnchanged(later, saved.guards)
            && AccountUnchanged(later, saved.guards)
  {
    RepairedIs(Taken(before, t));
    DeletedReceipt(base, s, m);
  }

  ghost predicate Unmarked(db: Db, t: Id) {
    MappingId(db, t).Some? ==>
      var m := MappingId(db, t).value;
      m in db.cal.mappings && m !in db.cal.conflicts && !db.cal.mappings[m].flags.dirty
  }

  lemma CleanIsUnmarked(db: Db, t: Id)
    requires WasClean(db, t)
    ensures Unmarked(db, t)
  {
  }

  lemma MappingReady(before: Db, t: Id, base: Db, s: Snapshot, deleted: Db)
    requires t in before.tasks && Base(before, base, t, s) && Unmarked(before, t)
    requires deleted.cal == Deleted(base, s, MappingId(before, t)).cal
    ensures MappingHeld(deleted, s.core, before.clock.now + UNDO_WINDOW)
  {
    var m := MappingId(before, t);
    EventSide(before, t, base, s);
    BaseTables(before, t, base, s);
    DeletedTables(base, s, m);
    assert m.None? ==> s.core.mapping.None?;
    assert deleted.cal.conflicts == base.cal.conflicts;
    var gone := EventsOf(base.cal.events, {s.core.id});
    var expires := base.clock.now + UNDO_WINDOW;
    assert deleted.cal.mappings == CutMappings(HoldMapping(base.cal.mappings, m, expires), gone);
    MappingIsHeld(before, t, base, s, m, gone, expires, deleted);
    assert expires == before.clock.now + UNDO_WINDOW;
  }

  lemma RoomAfter(before: Db, t: Id, base: Db, s: Snapshot, deleted: Db, now: int, saved: Snapshot)
    requires Happened(before, t, base, s, deleted) && Sound(before)
    requires saved.core == s.core && saved.owned == s.owned
    ensures NoViolation(At(deleted, now), saved)
    ensures FilesUnchanged(deleted.side.files, saved.owned.files)
    ensures SuccessorsUnchanged(deleted.tasks, saved.owned.successors)
  {
    BaseTables(before, t, base, s);
    DeletedTables(base, s, MappingId(before, t));
    EventSide(before, t, base, s);
    OneLinked(before.cal.events, t);
    RoomForTask(before.tasks, t);
    RoomForEvent(before.cal.events, t);
    SideIsFree(before, t, Ids(EventId(before, t), None), s.owned);
    SuccessorsDetached(before.tasks, t);
  }

  lemma RelativesAfter(before: Db, t: Id, base: Db, s: Snapshot, deleted: Db)
    requires Happened(before, t, base, s, deleted) && Lines(before.tasks)
    ensures RowsUnchanged(deleted.tasks, s.guards.tasks) <==> !UnderSuccessor(before, t)
  {
    BaseTables(before, t, base, s);
    DeletedTables(base, s, MappingId(before, t));
    RelativesKept(before.tasks, t);
  }

  lemma UndoIs(later: Db, r: Id)
    requires r in later.undo.deletes && Active(later.undo.deletes[r].expires, later.clock.now)
    ensures UndoDelete(later, r, None).Ok? <==>
              && GuardsHold(later, later.undo.deletes[r].snapshot, later.undo.deletes[r].expires)
              && NoViolation(later, later.undo.deletes[r].snapshot)
  {
  }

  /** Everything but the relatives is always as the undo expects. */
  lemma OthersReady(before: Db, t: Id, base: Db, s: Snapshot, deleted: Db, now: int)
    requires Happened(before, t, base, s, deleted) && Sound(before)
    ensures before.clock.next in deleted.undo.deletes
    ensures var later := At(deleted, now);
            var receipt := deleted.undo.deletes[before.clock.next];
            && NoViolation(later, receipt.snapshot)
            && receipt.expires == before.clock.now + UNDO_WINDOW
            && (GuardsHold(later, receipt.snapshot, receipt.expires) <==> RowsUnchanged(deleted.tasks, s.guards.tasks))
  {
    var m := MappingId(before, t);
    BaseTables(before, t, base, s);
    DeletedReceipt(base, s, m);
    RecordedGuards(before, t, base, s, m, now);
    CleanIsUnmarked(before, t);
    MappingReady(before, t, base, s, At(deleted, now));
    RoomAfter(before, t, base, s, deleted, now, deleted.undo.deletes[before.clock.next].snapshot);
  }

  /** Within the sixty seconds, and with nothing else done, the undo succeeds, unless the task
      hangs under its own successor: then the deletion itself changes the parent that the undo
      wants unchanged, and the receipt is worthless from the start. */
  lemma UndoAtOnce(before: Db, t: Id, expected: int, validated: Option<Snapshot>, deleted: Db, now: int)
    requires Deletes(before, t, expected, validated, deleted) && Sound(before)
    requires before.clock.now <= now < before.clock.now + UNDO_WINDOW
    ensures t in before.tasks
    ensures UndoDelete(At(deleted, now), before.clock.next, None).Ok? <==> !UnderSuccessor(before, t)
  {
    var base, s := DeletionIs(before, t, expected, validated, deleted);
    OthersReady(before, t, base, s, deleted, now);
    RelativesAfter(before, t, base, s, deleted);
    UndoIs(At(deleted, now), before.clock.next);
  }
}
