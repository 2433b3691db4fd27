/** The two operations of apps/api/src/task_delete_store.rs as they run: a transaction works on
    a copy of the tables and is committed as a whole or dropped. */
module DeleteStore {
  import opened Prelude
  import opened Rows
  import opened ScheduleMirror
  import opened DeleteUndo
  import opened ImmediateUndo

  // ---- guards, row by row ----

  method GuardRows<V(==)>(table: map<Id, V>, expected: map<Id, V>) returns (ok: bool)
    ensures ok <==> RowsUnchanged(table, expected)
  {
    var todo := expected.Keys;
    while todo != {}
      invariant todo <= expected.Keys
      invariant forall k :: k in expected && k !in todo ==> k in table && table[k] == expected[k]
      decreases todo
    {
      var k := Pick(todo);
      if k !in table || table[k] != expected[k] {
        return false;
      }
      todo := todo - {k};
    }
    return true;
  }

  method GuardRevisions(revisions: map<Scope, int>, expected: map<Scope, int>) returns (ok: bool)
    ensures ok <==> forall s :: s in expected ==> Rev(revisions, s) == expected[s]
  {
    var todo := expected.Keys;
    while todo != {}
      invariant todo <= expected.Keys
      invariant forall s :: s in expected && s !in todo ==> Rev(revisions, s) == expected[s]
      decreases todo
    {
      var s := Pick(todo);
      if Rev(revisions, s) != expected[s] {
        return false;
      }
      todo := todo - {s};
    }
    return true;
  }

  method GuardFiles(files: map<Id, File>, expected: map<Id, File>) returns (ok: bool)
    ensures ok <==> FilesUnchanged(files, expected)
  {
    var todo := expected.Keys;
    while todo != {}
      invariant todo <= expected.Keys
      invariant forall f :: f in expected && f !in todo ==> f in files && files[f] == DetachedFile(expected[f])
      decreases todo
    {
      var f := Pick(todo);
      if f !in files || files[f] != DetachedFile(expected[f]) {
        return false;
      }
      todo := todo - {f};
    }
    return true;
  }

  method GuardSuccessors(tasks: Tasks, expected: Tasks) returns (ok: bool)
    ensures ok <==> SuccessorsUnchanged(tasks, expected)
  {
    var todo := expected.Keys;
    while todo != {}
      invariant todo <= expected.Keys
      invariant forall k :: k in expected && k !in todo ==> k in tasks && tasks[k] == WithoutSource(expected[k])
      decreases todo
    {
      var k := Pick(todo);
      if k !in tasks || tasks[k] != WithoutSource(expected[k]) {
        return false;
      }
      todo := todo - {k};
    }
    return true;
  }

  // ---- rows that come back, one by one ----

  method InsertNotes(notes: map<Id, Note>, saved: map<Id, Note>, now: int) returns (after: map<Id, Note>)
    ensures after == RestoreNotes(notes, saved, now)
  {
    after := notes;
    var todo := saved.Keys;
    while todo != {}
      invariant todo <= saved.Keys
      invariant forall n :: n in after <==> n in notes || (n in saved && n !in todo)
      invariant forall n :: n in after ==>
                  after[n] == if n in saved && n !in todo then saved[n].(stamp := Bump(saved[n].stamp, now)) else notes[n]
      decreases todo
    {
      var n := Pick(todo);
      after := after[n := saved[n].(stamp := Bump(saved[n].stamp, now))];
      todo := todo - {n};
    }
    SameTable(after, RestoreNotes(notes, saved, now));
  }

  method RelinkFiles(files: map<Id, File>, saved: map<Id, File>) returns (after: map<Id, File>)
    ensures after == RestoreFiles(files, saved)
  {
    after := files;
    var todo := saved.Keys;
    while todo != {}
      invariant todo <= saved.Keys
      invariant forall f :: f in after <==> f in files
      invariant forall f :: f in files ==>
                  after[f] == if f in saved && f !in todo then files[f].(home := saved[f].home.(project := files[f].home.project)) else files[f]
      decreases todo
    {
      var f := Pick(todo);
      if f in after {
        after := after[f := after[f].(home := saved[f].home.(project := after[f].home.project))];
      }
      todo := todo - {f};
    }
    SameTable(after, RestoreFiles(files, saved));
  }

  method RelinkSuccessors(tasks: Tasks, snapshot: Snapshot, now: int) returns (after: Tasks)
    requires snapshot.core.id !in tasks
    ensures after == RestoreTasks(tasks, snapshot, now)
  {
    var t, heirs := snapshot.core.id, snapshot.owned.successors;
    after := tasks[t := Revived(snapshot.core.task, now)];
    var todo := heirs.Keys;
    while todo != {}
      invariant todo <= heirs.Keys && after.Keys == tasks.Keys + {t}
      invariant after[t] == Revived(snapshot.core.task, now)
      invariant forall k :: k in tasks ==> after[k] == if k in heirs && k !in todo then Adopted(tasks[k], t, now) else tasks[k]
      decreases todo
    {
      var k := Pick(todo);
      if k in tasks {
        after := after[k := Adopted(after[k], t, now)];
      }
      todo := todo - {k};
    }
  }

  method InsertFocus(focus: Focus, saved: map<int, int>, t: Id) returns (after: Focus)
    ensures after == RestoreFocus(focus, saved, t)
  {
    after := focus;
    var todo := saved.Keys;
    while todo != {}
      invariant todo <= saved.Keys
      invariant forall k :: k in after <==> k in focus || (k.1 == t && k.0 in saved && k.0 !in todo)
      invariant forall k :: k in after ==> after[k] == if k.1 == t && k.0 in saved && k.0 !in todo then saved[k.0] else focus[k]
      decreases todo
    {
      var d := Pick(todo);
      after := after[(d, t) := saved[d]];
      todo := todo - {d};
    }
    var days := set d | d in saved :: (d, t);
    forall k: (int, Id)
      ensures k in after <==> k in RestoreFocus(focus, saved, t)
    {
      var d, u := k.0, k.1;
      assert k == (d, u);
      assert d in saved ==> (d, t) in days;
    }
    SameMap(after, RestoreFocus(focus, saved, t));
  }

  /** Each inserted row advances the revision of its day. */
  method BumpFocus(revisions: map<Scope, int>, saved: map<int, int>) returns (after: map<Scope, int>)
    ensures after == FocusAdded(revisions, saved)
  {
    after := revisions;
    var todo := saved.Keys;
    while todo != {}
      invariant todo <= saved.Keys
      invariant forall s :: s in after <==> s in revisions || (s.FocusScope? && s.date in saved && s.date !in todo)
      invariant forall s :: s in after ==>
                  after[s] == Rev(revisions, s) + (if s.FocusScope? && s.date in saved && s.date !in todo then 1 else 0)
      decreases todo
    {
      var d := Pick(todo);
      after := after[FocusScope(d) := Rev(after, FocusScope(d)) + 1];
      todo := todo - {d};
    }
    forall s: Scope
      ensures s in after <==> s in FocusAdded(revisions, saved)
    {
      assert s.FocusScope? ==> s == FocusScope(s.date);
    }
    SameMap(after, FocusAdded(revisions, saved));
  }

  // ---- the operations ----

  /** `undo_task_delete`: nothing is written unless every guard holds and every row fits. */
  method UndoTaskDelete(store: Store, receipt: Id, provider: Option<AppError>) returns (r: Result<(), AppError>)
    modifies store
    ensures var done := UndoDelete(old(store.db), receipt, provider);
            && r.Ok? == done.Ok?
            && (r.Ok? ==> store.db == done.value)
            && (r.Err? ==> store.db == old(store.db) && r.error == done.error)
  {
    var tx := store.db;
    if receipt !in tx.undo.deletes {
      return Err(NotFound);
    }
    var saved := tx.undo.deletes[receipt];
    var s := saved.snapshot;
    if !Active(saved.expires, tx.clock.now) {
      return Err(Changed);
    }
    if s.core.mapping.Some? && provider.Some? {
      return Err(provider.value);
    }
    var revisions := GuardRevisions(tx.side.revisions, s.guards.revisions);
    var projects := GuardRows(tx.side.projects, s.guards.projects);
    var tasks := GuardRows(tx.tasks, s.guards.tasks);
    var files := GuardFiles(tx.side.files, s.owned.files);
    var successors := GuardSuccessors(tx.tasks, s.owned.successors);
    if !revisions || !projects || !tasks || !files || !successors
       || !CalendarUnchanged(tx, s.guards) || !AccountUnchanged(tx, s.guards) || !MappingHeld(tx, s.core, saved.expires) {
      return Err(Changed);
    }
    if !NoViolation(tx, s) {
      return Err(Changed);
    }
    var restored := RelinkSuccessors(tx.tasks, s, tx.clock.now);
    var notes := InsertNotes(tx.side.notes, s.owned.notes, tx.clock.now);
    var relinked := RelinkFiles(tx.side.files, s.owned.files);
    var focus := InsertFocus(tx.side.focus, s.owned.focus, s.core.id);
    var bumped := BumpFocus(tx.side.revisions, s.owned.focus);
    tx := tx.(tasks := restored);
    tx := tx.(side := tx.side.(notes := notes, files := relinked, focus := focus, revisions := bumped));
    tx := tx.(cal := tx.cal.(events := RestoreEvents(tx.cal.events, s.core, tx.clock.now)));
    tx := tx.(cal := tx.cal.(mappings := ReleaseMapping(tx.cal.mappings, s.core)));
    tx := tx.(undo := tx.undo.(deletes := tx.undo.deletes - {receipt}));
    store.db := tx;
    return Ok(());
  }

  method FindOne(ids: set<Id>) returns (id: Option<Id>)
    requires forall a, b :: a in ids && b in ids ==> a == b
    ensures id == Only(ids)
  {
    if ids == {} {
      return None;
    }
    var x := Pick(ids);
    ghost var y := Only(ids).value;
    assert x == y;
    return Some(x);
  }

  method RefreshRevisions(revisions: map<Scope, int>, expected: map<Scope, int>) returns (after: map<Scope, int>)
    ensures after == Revisions(revisions, expected.Keys)
  {
    after := expected;
    var todo := expected.Keys;
    while todo != {}
      invariant todo <= expected.Keys
      invariant forall s :: s in after <==> s in expected
      invariant forall s :: s in expected && s !in todo ==> after[s] == Rev(revisions, s)
      decreases todo
    {
      var s := Pick(todo);
      after := after[s := Rev(revisions, s)];
      todo := todo - {s};
    }
    SameMap(after, Revisions(revisions, expected.Keys));
  }

  /** The outcome of a deletion: its receipt, or a snapshot whose outdated fingerprint the
      provider must confirm first. */
  datatype Prepared = Receipt(id: Id) | Unconfirmed(snapshot: Snapshot)

  method WriteDeletion(db: Db, taken: Snapshot, m: Option<Id>) returns (tx: Db)
    ensures tx == Deleted(db, taken, m)
  {
    var snapshot := taken;
    var receipt, expires := db.clock.next, db.clock.now + UNDO_WINDOW;
    tx := db.(cal := db.cal.(mappings := HoldMapping(db.cal.mappings, m, expires)));
    tx := DropTasks(tx, {snapshot.core.id});
    var revisions := RefreshRevisions(tx.side.revisions, snapshot.guards.revisions);
    snapshot := snapshot.(guards := snapshot.guards.(revisions := revisions));
    tx := tx.(undo := tx.undo.(deletes := tx.undo.deletes[receipt := DeleteReceipt(snapshot, expires)]));
    tx := tx.(clock := tx.clock.(next := receipt + 1));
  }

  method FindEvent(events: Events, t: Id) returns (e: Option<Id>)
    requires OneEvent(events)
    ensures e == LinkedEvent(events, t)
  {
    e := FindOne(EventsOf(events, {t}));
  }

  method FindMapping(mappings: Mappings, e: Option<Id>) returns (m: Option<Id>)
    requires OneMapping(mappings)
    ensures m == if e.Some? then LinkedMapping(mappings, e.value) else None
  {
    if e.None? {
      return None;
    }
    m := FindOne(MappingsOf(mappings, e.value));
  }

  /** `delete_task_with_undo_inner` */
  method DeleteTaskWithUndo(store: Store, t: Id, expected: int, validated: Option<Snapshot>) returns (r: Result<Prepared, AppError>)
    requires OneEvent(store.db.cal.events) && OneMapping(store.db.cal.mappings)
    modifies store
    ensures match DeleteReversibly(old(store.db), t, expected, validated)
            case Err(error) => r == Err(error) && store.db == old(store.db)
            case Ok(LegacyMapping(snapshot)) => r == Ok(Unconfirmed(snapshot)) && store.db == old(store.db)
            case Ok(Done(after)) => r == Ok(Receipt(old(store.db).clock.next)) && store.db == after
  {
    var db := store.db;
    var e := FindEvent(db.cal.events, t);
    var m := FindMapping(db.cal.mappings, e);
    var refusal := DeleteRefusal(db, t, expected, e, m);
    if refusal.Some? {
      return Err(refusal.value);
    }
    var snapshot := TakeSnapshot(db, t, e, m);
    var legacy := e.Some? && IsLegacy(db.cal, db.cal.events[e.value], m);
    var tx: Db;
    if validated.Some? {
      if validated.value != snapshot || !legacy {
        return Err(Changed);
      }
      snapshot := Repaired(snapshot);
      tx := WriteDeletion(RepairMapping(db, snapshot), snapshot, m);
    } else if legacy {
      return Ok(Unconfirmed(snapshot));
    } else {
      tx := WriteDeletion(db, snapshot, m);
    }
    store.db := tx;
    return Ok(Receipt(db.clock.next));
  }
}
