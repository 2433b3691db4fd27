/** Deleting a task reversibly and undoing it is a round trip
    (apps/api/src/task_delete_store.rs:141-372,385-518). */
module DeleteRoundTrip {
  import opened Prelude
  import opened Rows
  import opened Transactions
  import opened DeleteUndo

  // ---- what a successful deletion wrote ----

  /** `after` is `before` with `t` deleted reversibly. */
  ghost predicate Deletes(before: Db, t: Id, expected: int, validated: Option<Snapshot>, after: Db) {
    DeleteReversibly(before, t, expected, validated) == Ok(Done(after))
  }

  ghost function EventId(db: Db, t: Id): Option<Id> {
    LinkedEvent(db.cal.events, t)
  }

  ghost function MappingId(db: Db, t: Id): Option<Id> {
    if EventId(db, t).Some? then LinkedMapping(db.cal.mappings, EventId(db, t).value) else None
  }

  ghost function Taken(db: Db, t: Id): Snapshot
    requires t in db.tasks
  {
    TakeSnapshot(db, t, EventId(db, t), MappingId(db, t))
  }

  /** The snapshot a receipt holds: the rows as they were, possibly with the mapping's old
      fingerprint replaced by the complete one. */
  ghost predicate Records(db: Db, t: Id, s: Snapshot)
    requires t in db.tasks
  {
    var taken := Taken(db, t);
    && s.core.id == t && s.core.task == db.tasks[t] && s.core.event == taken.core.event
    && (s.core.mapping == taken.core.mapping || s.core.mapping == Repaired(taken).core.mapping)
    && s.owned == taken.owned
    && s.guards.projects == taken.guards.projects && s.guards.tasks == taken.guards.tasks
    && s.guards.calendar == taken.guards.calendar && s.guards.account == taken.guards.account
    && s.guards.revisions.Keys == taken.guards.revisions.Keys
  }

  /** The database the deletion started from once the fingerprint was repaired. */
  ghost predicate Base(before: Db, base: Db, t: Id, s: Snapshot)
    requires t in before.tasks
  {
    var taken := Taken(before, t);
    (base == before && s == taken) || (base == RepairMapping(before, Repaired(taken)) && s == Repaired(taken))
  }

  lemma FinishIs(db: Db, s: Snapshot, legacy: bool, validated: Option<Snapshot>, m: Option<Id>, after: Db)
    requires Finish(db, s, legacy, validated, m) == Ok(Done(after))
    ensures if legacy then after == Deleted(RepairMapping(db, Repaired(s)), Repaired(s), m) else after == Deleted(db, s, m)
  {
  }

  /** A mapped event was deleted only with a clean mapping. */
  ghost predicate WasClean(db: Db, t: Id) {
    MappingId(db, t).Some? ==>
      var e, m := EventId(db, t), MappingId(db, t).value;
      && e.Some? && e.value in db.cal.events && m in db.cal.mappings
      && db.cal.events[e.value].calendar in db.cal.calendars
      && IsGoogle(db.cal, db.cal.events[e.value].calendar)
      && CleanMapping(db.cal, db.cal.events[e.value], m)
  }

  ghost predicate CalendarExists(db: Db, t: Id) {
    EventId(db, t).Some? ==>
      && EventId(db, t).value in db.cal.events && db.cal.events[EventId(db, t).value].calendar in db.cal.calendars
      && (IsGoogle(db.cal, db.cal.events[EventId(db, t).value].calendar) ==> db.cal.account.Some?)
  }

  /** What is known of a deletion that happened: what it started from, what it wrote, and what
      it had checked. */
  ghost predicate Happened(before: Db, t: Id, base: Db, s: Snapshot, after: Db) {
    && t in before.tasks && !HasChildren(before.tasks, t) && DependenciesExist(before, t)
    && WasClean(before, t) && CalendarExists(before, t)
    && Base(before, base, t, s) && after == Deleted(base, s, MappingId(before, t))
    && (MappingId(before, t).Some? && CalendarExists(before, t) && EventId(before, t).Some? ==>
          s.core.mapping == Renewed(before, t))
  }

  /** The mapping with the fingerprint of the event's whole write shape. */
  ghost function Renewed(db: Db, t: Id): Option<(Id, Mapping)> {
    var e, m := EventId(db, t), MappingId(db, t);
    if e.None? || m.None? || e.value !in db.cal.events || m.value !in db.cal.mappings then None
    else
      var row := db.cal.mappings[m.value];
      Some((m.value, row.(remote := row.remote.(base := Some(FullPrint(db.cal.events[e.value]))))))
  }

  lemma EventChecked(before: Db, t: Id, expected: int)
    requires DeleteRefusal(before, t, expected, EventId(before, t), MappingId(before, t)).None?
    ensures WasClean(before, t) && CalendarExists(before, t)
  {
    var e, m := EventId(before, t), MappingId(before, t);
    if e.Some? {
      assert EventRefusal(before.cal, before.cal.events[e.value], m).None?;
    }
  }

  lemma TaskChecked(before: Db, t: Id, expected: int)
    requires DeleteRefusal(before, t, expected, EventId(before, t), MappingId(before, t)).None?
    ensures t in before.tasks && !HasChildren(before.tasks, t) && DependenciesExist(before, t)
  {
    assert TaskRefusal(before, t, expected).None?;
  }

  lemma TakenMapping(before: Db, t: Id)
    requires t in before.tasks && MappingId(before, t).Some?
    ensures var e, m := EventId(before, t), MappingId(before, t).value;
            && e.Some? && e.value in before.cal.events && m in before.cal.mappings
            && Taken(before, t).core.event == Some((e.value, before.cal.events[e.value]))
            && Taken(before, t).core.mapping == Some((m, before.cal.mappings[m]))
  {
  }

  lemma RepairedMapping(s: Snapshot)
    requires s.core.mapping.Some? && s.core.event.Some?
    ensures var (m, row) := s.core.mapping.value;
            Repaired(s).core.mapping == Some((m, row.(remote := row.remote.(base := Some(FullPrint(s.core.event.value.1))))))
  {
  }

  lemma FullIsKept(row: Mapping, full: Fingerprint)
    requires row.remote.base == Some(full)
    ensures row.(remote := row.remote.(base := Some(full))) == row
  {
  }

  lemma MappingRecorded(before: Db, t: Id, legacy: bool)
    requires t in before.tasks && MappingId(before, t).Some? && WasClean(before, t)
    requires var e, m := EventId(before, t), MappingId(before, t);
             legacy == IsLegacy(before.cal, before.cal.events[e.value], m)
    ensures (if legacy then Repaired(Taken(before, t)) else Taken(before, t)).core.mapping == Renewed(before, t)
  {
    TakenMapping(before, t);
    RepairedMapping(Taken(before, t));
    if !legacy {
      FullIsKept(before.cal.mappings[MappingId(before, t).value], FullPrint(before.cal.events[EventId(before, t).value]));
    }
  }

  lemma DeletionIs(before: Db, t: Id, expected: int, validated: Option<Snapshot>, after: Db) returns (base: Db, s: Snapshot)
    requires Deletes(before, t, expected, validated, after)
    ensures Happened(before, t, base, s, after)
  {
    var e, m := EventId(before, t), MappingId(before, t);
    TaskChecked(before, t, expected);
    EventChecked(before, t, expected);
    var legacy := e.Some? && IsLegacy(before.cal, before.cal.events[e.value], m);
    s := Taken(before, t);
    FinishIs(before, s, legacy, validated, m, after);
    if m.Some? {
      MappingRecorded(before, t, legacy);
    }
    base := before;
    if legacy {
      base, s := RepairMapping(before, Repaired(s)), Repaired(s);
    }
  }

  lemma RepairedIs(s: Snapshot)
    ensures Repaired(s).owned == s.owned && Repaired(s).guards == s.guards
    ensures Repaired(s).core.id == s.core.id && Repaired(s).core.task == s.core.task && Repaired(s).core.event == s.core.event
  {
  }

  lemma DeletedReceipt(base: Db, s: Snapshot, m: Option<Id>)
    ensures base.clock.next in Deleted(base, s, m).undo.deletes
    ensures var receipt := Deleted(base, s, m).undo.deletes[base.clock.next];
            && receipt.expires == base.clock.now + UNDO_WINDOW
            && receipt.snapshot.core == s.core && receipt.snapshot.owned == s.owned
            && receipt.snapshot.guards == s.guards.(revisions := receipt.snapshot.guards.revisions)
            && receipt.snapshot.guards.revisions.Keys == s.guards.revisions.Keys
  {
  }

  lemma DeletedTables(base: Db, s: Snapshot, m: Option<Id>)
    ensures var after := Deleted(base, s, m);
            var events := EventsOf(base.cal.events, {s.core.id});
            && after.tasks == RemoveTasks(base.tasks, {s.core.id})
            && after.cal.events == base.cal.events - events
            && after.cal.mappings == CutMappings(HoldMapping(base.cal.mappings, m, base.clock.now + UNDO_WINDOW), events)
            && after.cal.conflicts == base.cal.conflicts && after.cal.calendars == base.cal.calendars
            && after.side == DropSide(base.side, {s.core.id}, events)
  {
  }

  lemma BaseTables(before: Db, t: Id, base: Db, s: Snapshot)
    requires t in before.tasks && Base(before, base, t, s)
    ensures base.tasks == before.tasks && base.cal.events == before.cal.events && base.cal.calendars == before.cal.calendars
    ensures base.side == before.side && base.clock == before.clock && base.undo == before.undo
    ensures s.core.id == t && s.core.task == before.tasks[t] && s.owned == Taken(before, t).owned && s.guards == Taken(before, t).guards
  {
    RepairedIs(Taken(before, t));
  }

  lemma TablesAfter(before: Db, t: Id, base: Db, s: Snapshot, after: Db)
    requires Happened(before, t, base, s, after)
    ensures after.tasks == RemoveTasks(before.tasks, {t}) && after.clock.next == before.clock.next + 1
    ensures before.clock.next in after.undo.deletes
    ensures after.undo.deletes == before.undo.deletes[before.clock.next := after.undo.deletes[before.clock.next]]
    ensures after.cal.events == before.cal.events - EventsOf(before.cal.events, {t})
    ensures after.undo.moves == DropMoves(before.undo.moves, {t}, EventsOf(before.cal.events, {t}))
  {
    BaseTables(before, t, base, s);
    DeletedTables(base, s, MappingId(before, t));
  }

  lemma ReceiptOf(before: Db, t: Id, base: Db, s: Snapshot, after: Db)
    requires Happened(before, t, base, s, after)
    ensures before.clock.next in after.undo.deletes
    ensures Records(before, t, after.undo.deletes[before.clock.next].snapshot)
    ensures after.undo.deletes[before.clock.next].expires == before.clock.now + UNDO_WINDOW
    ensures after.undo.deletes[before.clock.next].snapshot.core == s.core
  {
    DeletedReceipt(base, s, MappingId(before, t));
    RepairedIs(Taken(before, t));
  }

  // ---- success restores the rows ----

  /** The task is back, its successor is linked again, and its relatives are as they were. */
  ghost predicate TasksBack(before: Db, t: Id, after: Db, now: int) {
    && t in before.tasks && t in after.tasks
    && after.tasks[t] == before.tasks[t].(stamp := Bump(before.tasks[t].stamp, now))
    && (forall k :: k in before.tasks && before.tasks[k].place.source == Some(t) && k != t ==>
          k in after.tasks && after.tasks[k] == before.tasks[k].(stamp := Bump(before.tasks[k].stamp, now)))
  }

  ghost predicate EventBack(before: Db, t: Id, after: Db, now: int) {
    forall e :: EventId(before, t) == Some(e) ==>
      && e in before.cal.events && e in after.cal.events
      && after.cal.events[e] == before.cal.events[e].(stamp := Bump(before.cal.events[e].stamp, now))
  }

  /** Clean again and pointing to the event, with its fingerprint complete. */
  ghost predicate MappingBack(before: Db, t: Id, after: Db) {
    forall m :: MappingId(before, t) == Some(m) ==>
      && m in before.cal.mappings && m in after.cal.mappings
      && after.cal.mappings[m] == before.cal.mappings[m].(remote := before.cal.mappings[m].remote.(base := after.cal.mappings[m].remote.base))
      && EventId(before, t).Some? && EventId(before, t).value in before.cal.events
      && after.cal.mappings[m].remote.base == Some(FullPrint(before.cal.events[EventId(before, t).value]))
  }

  ghost predicate NotesBack(before: Db, t: Id, after: Db, now: int) {
    forall n :: n in NotesOf(before.side.notes, {t}, Ids(EventId(before, t), None)) ==>
      && n in after.side.notes
      && after.side.notes[n] == before.side.notes[n].(stamp := Bump(before.side.notes[n].stamp, now))
  }

  ghost predicate FilesBack(before: Db, t: Id, after: Db) {
    var events := Ids(EventId(before, t), None);
    forall f :: f in FilesOf(before.side.files, {t}, events, NotesOf(before.side.notes, {t}, events)) ==>
      f in after.side.files && after.side.files[f] == before.side.files[f]
  }

  ghost predicate FocusBack(before: Db, t: Id, after: Db) {
    forall k :: k in before.side.focus && k.1 == t ==> k in after.side.focus && after.side.focus[k] == before.side.focus[k]
  }

  /** The receipt of `before`'s deletion is still there, unchanged, and its undo succeeds. */
  ghost predicate Undoes(deleted: Db, r: Id, later: Db, provider: Option<AppError>, after: Db) {
    && r in deleted.undo.deletes && r in later.undo.deletes
    && later.undo.deletes[r] == deleted.undo.deletes[r]
    && UndoDelete(later, r, provider) == Ok(after)
  }

  lemma TasksRestored(before: Db, t: Id, s: Snapshot, later: Db, now: int)
    requires t in before.tasks && Records(before, t, s)
    requires SuccessorsUnchanged(later.tasks, s.owned.successors)
    ensures TasksBack(before, t, later.(tasks := RestoreTasks(later.tasks, s, now)), now)
  {
    var after := RestoreTasks(later.tasks, s, now);
    forall k | k in before.tasks && before.tasks[k].place.source == Some(t) && k != t
      ensures k in after && after[k] == before.tasks[k].(stamp := Bump(before.tasks[k].stamp, now))
    {
      assert k in SuccessorsOf(before.tasks, t);
      assert k in s.owned.successors && s.owned.successors[k] == before.tasks[k];
      assert later.tasks[k] == WithoutSource(before.tasks[k]);
    }
  }

  lemma FilesRestored(before: Db, t: Id, s: Snapshot, files: map<Id, File>, f: Id)
    requires t in before.tasks && Records(before, t, s) && FilesUnchanged(files, s.owned.files)
    requires var events := Ids(EventId(before, t), None);
             f in FilesOf(before.side.files, {t}, events, NotesOf(before.side.notes, {t}, events))
    ensures f in RestoreFiles(files, s.owned.files) && RestoreFiles(files, s.owned.files)[f] == before.side.files[f]
  {
    assert f in s.owned.files && s.owned.files[f] == before.side.files[f];
    assert files[f] == DetachedFile(before.side.files[f]);
  }

  lemma NotesRestored(before: Db, t: Id, s: Snapshot, notes: map<Id, Note>, now: int, n: Id)
    requires t in before.tasks && Records(before, t, s)
    requires n in NotesOf(before.side.notes, {t}, Ids(EventId(before, t), None))
    ensures n in RestoreNotes(notes, s.owned.notes, now)
    ensures RestoreNotes(notes, s.owned.notes, now)[n] == before.side.notes[n].(stamp := Bump(before.side.notes[n].stamp, now))
  {
    assert n in s.owned.notes && s.owned.notes[n] == before.side.notes[n];
  }

  lemma FocusRestored(before: Db, t: Id, s: Snapshot, focus: Focus, d: int)
    requires t in before.tasks && Records(before, t, s) && (d, t) in before.side.focus
    ensures (d, t) in RestoreFocus(focus, s.owned.focus, t)
    ensures RestoreFocus(focus, s.owned.focus, t)[(d, t)] == before.side.focus[(d, t)]
  {
    assert d in s.owned.focus && s.owned.focus[d] == before.side.focus[(d, t)];
  }

  lemma SideRestored(before: Db, t: Id, s: Snapshot, side: SideTables, now: int, after: Db)
    requires t in before.tasks && Records(before, t, s) && FilesUnchanged(side.files, s.owned.files)
    requires after.side == RestoreSide(side, s, now)
    ensures NotesBack(before, t, after, now) && FilesBack(before, t, after) && FocusBack(before, t, after)
  {
    var events := Ids(EventId(before, t), None);
    var notes := NotesOf(before.side.notes, {t}, events);
    forall n | n in notes
      ensures n in after.side.notes && after.side.notes[n] == before.side.notes[n].(stamp := Bump(before.side.notes[n].stamp, now))
    {
      NotesRestored(before, t, s, side.notes, now, n);
    }
    forall f | f in FilesOf(before.side.files, {t}, events, notes)
      ensures f in after.side.files && after.side.files[f] == before.side.files[f]
    {
      FilesRestored(before, t, s, side.files, f);
    }
    forall k | k in before.side.focus && k.1 == t
      ensures k in after.side.focus && after.side.focus[k] == before.side.focus[k]
    {
      assert k == (k.0, t);
      FocusRestored(before, t, s, side.focus, k.0);
    }
  }

  /** Whatever happened to the database in between, if the undo succeeds then the task, its
      event, notes, files, focus rows, successor and mapping are exactly what they were before
      the deletion, apart from versions that are one higher and the time of the change. */
  lemma DeleteThenUndo(before: Db, t: Id, expected: int, validated: Option<Snapshot>, deleted: Db,
                       later: Db, provider: Option<AppError>, after: Db)
    requires Deletes(before, t, expected, validated, deleted)
    requires Undoes(deleted, before.clock.next, later, provider, after)
    ensures TasksBack(before, t, after, later.clock.now)
    ensures EventBack(before, t, after, later.clock.now)
    ensures NotesBack(before, t, after, later.clock.now) && FilesBack(before, t, after) && FocusBack(before, t, after)
  {
    var base, taken := DeletionIs(before, t, expected, validated, deleted);
    ReceiptOf(before, t, base, taken, deleted);
    Restores(before, t, later, provider, after);
  }

  lemma Restores(before: Db, t: Id, later: Db, provider: Option<AppError>, after: Db)
    requires t in before.tasks && before.clock.next in later.undo.deletes
    requires Records(before, t, later.undo.deletes[before.clock.next].snapshot)
    requires UndoDelete(later, before.clock.next, provider) == Ok(after)
    ensures TasksBack(before, t, after, later.clock.now)
    ensures EventBack(before, t, after, later.clock.now)
    ensures NotesBack(before, t, after, later.clock.now) && FilesBack(before, t, after) && FocusBack(before, t, after)
  {
    var s := later.undo.deletes[before.clock.next].snapshot;
    TasksRestored(before, t, s, later, later.clock.now);
    SideRestored(before, t, s, later.side, later.clock.now, after);
  }

  // ---- the mapping ----

  lemma ReleasedIs(later: Db, s: Snapshot, expires: int, m: Id, row: Mapping)
    requires s.core.mapping == Some((m, row)) && s.core.event.Some? && row.canonical == Some(s.core.event.value.0)
    requires row.flags == Flags(false, false, false, None, false) && row.hold == Hold(None, false)
    requires MappingHeld(later, s.core, expires)
    ensures m in ReleaseMapping(later.cal.mappings, s.core) && ReleaseMapping(later.cal.mappings, s.core)[m] == row
  {
  }

  lemma RenewedIs(before: Db, t: Id)
    requires t in before.tasks && MappingId(before, t).Some? && WasClean(before, t)
    ensures Renewed(before, t).Some? && Renewed(before, t).value.0 == MappingId(before, t).value
    ensures var row := Renewed(before, t).value.1;
            && row.canonical == EventId(before, t)
            && row.flags == Flags(false, false, false, None, false) && row.hold == Hold(None, false)
    ensures Taken(before, t).core.event.Some? && EventId(before, t) == Some(Taken(before, t).core.event.value.0)
  {
    assert MappingId(before, t).value in MappingsOf(before.cal.mappings, EventId(before, t).value);
  }

  /** The mapping is back, clean, and its fingerprint is that of the event's whole write shape. */
  lemma MappingRestored(before: Db, t: Id, expected: int, validated: Option<Snapshot>, deleted: Db,
                        later: Db, provider: Option<AppError>, after: Db)
    requires Deletes(before, t, expected, validated, deleted)
    requires Undoes(deleted, before.clock.next, later, provider, after)
    ensures MappingBack(before, t, after)
  {
    var base, s := DeletionIs(before, t, expected, validated, deleted);
    ReceiptOf(before, t, base, s, deleted);
    if MappingId(before, t).Some? {
      MappingReturns(before, t, base, s, deleted, later, provider, after);
    }
  }

  lemma MappingReturns(before: Db, t: Id, base: Db, s: Snapshot, deleted: Db, later: Db, provider: Option<AppError>, after: Db)
    requires Happened(before, t, base, s, deleted) && MappingId(before, t).Some?
    requires before.clock.next in later.undo.deletes && later.undo.deletes[before.clock.next].snapshot.core == s.core
    requires UndoDelete(later, before.clock.next, provider) == Ok(after)
    ensures MappingBack(before, t, after)
  {
    var receipt := later.undo.deletes[before.clock.next];
    RenewedIs(before, t);
    RepairedIs(Taken(before, t));
    ReleasedIs(later, receipt.snapshot, receipt.expires, MappingId(before, t).value, Renewed(before, t).value.1);
  }
}
