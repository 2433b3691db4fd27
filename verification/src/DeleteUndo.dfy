/** Reversible deletion of a task and its undo (apps/api/src/task_delete_store.rs). What the
    provider answers to a validation is a parameter; sizes in bytes are not modelled. */
module DeleteUndo {
  import opened Prelude
  import opened EventShape
  import opened Rows
  import opened Transactions

  const MAX_RECEIPTS: int := 100
  const MAX_NOTES: int := 64
  const MAX_FILES: int := 128
  const MAX_FOCUS: int := 32

  function ActiveDeletes(deletes: DeleteReceipts, now: int): set<Id> {
    set r | r in deletes && Active(deletes[r].expires, now)
  }

  // ---- what hangs on a task ----

  function MappingsOf(mappings: Mappings, e: Id): set<Id> {
    set m | m in mappings && mappings[m].canonical == Some(e)
  }

  /** The one mapping of an event, by the unique index on `canonical_event_id`. */
  ghost function LinkedMapping(mappings: Mappings, e: Id): Option<Id> {
    Only(MappingsOf(mappings, e))
  }

  /** The rows of a table with some ids. */
  function Among<V>(table: map<Id, V>, ids: set<Id>): map<Id, V> {
    map k | k in table && k in ids :: table[k]
  }

  function FilesOf(files: map<Id, File>, tasks: set<Id>, events: set<Id>, notes: set<Id>): set<Id> {
    set f | f in files && (In(files[f].home.task, tasks) || In(files[f].home.event, events) || In(files[f].home.note, notes))
  }

  /** The focus rows of one task by day. */
  function FocusOf(focus: Focus, t: Id): map<int, int> {
    map d | d in (set k | k in focus && k.1 == t :: k.0) :: focus[(d, t)]
  }

  function Ids(a: Option<Id>, b: Option<Id>): set<Id> {
    (if a.Some? then {a.value} else {}) + (if b.Some? then {b.value} else {})
  }

  function OwnedBy(db: Db, t: Id, e: Option<Id>): SnapshotOwned {
    var events := Ids(e, None);
    var notes := NotesOf(db.side.notes, {t}, events);
    SnapshotOwned(
      Among(db.side.notes, notes),
      Among(db.side.files, FilesOf(db.side.files, {t}, events, notes)),
      FocusOf(db.side.focus, t),
      Among(db.tasks, SuccessorsOf(db.tasks, t)))
  }

  predicate WithinCaps(owned: SnapshotOwned) {
    |owned.notes| <= MAX_NOTES && |owned.files| <= MAX_FILES && |owned.focus| <= MAX_FOCUS && |owned.successors| <= 1
  }

  /** Which revisions a deletion depends on. */
  function ScopesOf(owned: SnapshotOwned, hasEvent: bool): set<Scope> {
    (if owned.focus == map[] then {} else {ReviewScope})
    + (set d | d in owned.focus :: FocusScope(d))
    + (if hasEvent then {CalendarScope} else {})
  }

  function Revisions(revisions: map<Scope, int>, scopes: set<Scope>): map<Scope, int> {
    map s | s in scopes :: Rev(revisions, s)
  }

  predicate Eligible(c: Calendar) {
    c.google && c.preference.selected && c.preference.primary && c.preference.writable
  }

  /** `ORDER BY id LIMIT 1` */
  predicate IsPreferred(calendars: map<Id, Calendar>, c: Id) {
    c in calendars && Eligible(calendars[c]) && forall d :: d in calendars && Eligible(calendars[d]) ==> c <= d
  }

  function FullPrint(e: Event): Fingerprint {
    Full(FromLocal(e.body))
  }

  function LegacyPrint(e: Event): Fingerprint {
    Legacy(e.body.text.title, e.body.text.description, (e.body.span.start, e.body.span.end), e.body.text.location, e.body.rule.cadence)
  }

  /** A Google event may be deleted reversibly only from the preferred calendar and with a clean
      mapping of its current write shape, or of the older, incomplete fingerprint. */
  predicate CleanMapping(cal: CalendarTables, event: Event, m: Id)
    requires event.calendar in cal.calendars && m in cal.mappings
  {
    var mapping := cal.mappings[m];
    && IsPreferred(cal.calendars, event.calendar)
    && mapping.calendar == event.calendar
    && mapping.remote.calendar == cal.calendars[event.calendar].external
    && mapping.remote.event != ""
    && mapping.remote.etag.Some? && mapping.remote.etag.value != ""
    && mapping.flags == Flags(false, false, false, None, false)
    && mapping.hold == Hold(None, false)
    && m !in cal.conflicts
    && (mapping.remote.base == Some(FullPrint(event)) || mapping.remote.base == Some(LegacyPrint(event)))
  }

  /** What stands in the way of the event side of a deletion. */
  function EventRefusal(cal: CalendarTables, event: Event, m: Option<Id>): Option<AppError>
    requires m.Some? ==> m.value in cal.mappings
  {
    if event.calendar !in cal.calendars then Some(Changed)
    else if !cal.calendars[event.calendar].google then if m.Some? then Some(GoogleRefusal) else None
    else if cal.account.None? then Some(Changed)
    else if m.None? || !CleanMapping(cal, event, m.value) then Some(GoogleRefusal)
    else None
  }

  predicate IsLegacy(cal: CalendarTables, event: Event, m: Option<Id>)
    requires m.Some? ==> m.value in cal.mappings
  {
    IsGoogle(cal, event.calendar) && m.Some? && cal.mappings[m.value].remote.base != Some(FullPrint(event))
  }

  function GuardsOf(db: Db, t: Id, event: Option<Event>, scopes: set<Scope>): SnapshotGuards
    requires t in db.tasks
  {
    var task := db.tasks[t];
    SnapshotGuards(
      Among(db.side.projects, Ids(task.place.project, task.template.project)),
      Among(db.tasks, Ids(task.place.parent, task.place.source)),
      if event.Some? && event.value.calendar in db.cal.calendars
      then Some((event.value.calendar, CalendarGuard(db.cal.calendars[event.value.calendar]))) else None,
      if event.Some? && IsGoogle(db.cal, event.value.calendar) then db.cal.account else None,
      Revisions(db.side.revisions, scopes))
  }

  /** Every row the task names is there. */
  predicate DependenciesExist(db: Db, t: Id)
    requires t in db.tasks
  {
    var task := db.tasks[t];
    && Ids(task.place.project, task.template.project) <= db.side.projects.Keys
    && Ids(task.place.parent, task.place.source) <= db.tasks.Keys
  }

  function WithId<V>(id: Option<Id>, table: map<Id, V>): Option<(Id, V)> {
    if id.Some? && id.value in table then Some((id.value, table[id.value])) else None
  }

  /** The snapshot of a task with its event `e` and that event's mapping `m`. */
  function TakeSnapshot(db: Db, t: Id, e: Option<Id>, m: Option<Id>): Snapshot
    requires t in db.tasks
  {
    var event := if e.Some? && e.value in db.cal.events then Some(db.cal.events[e.value]) else None;
    var owned := OwnedBy(db, t, e);
    Snapshot(SnapshotCore(t, db.tasks[t], WithId(e, db.cal.events), WithId(m, db.cal.mappings)),
             owned, GuardsOf(db, t, event, ScopesOf(owned, event.Some?)))
  }

  // ---- deleting ----

  function Held(m: Mapping, expires: int): Mapping {
    m.(canonical := None, flags := m.flags.(dirty := false, deleted := true), hold := Hold(Some(expires), true))
  }

  function HoldMapping(mappings: Mappings, m: Option<Id>, expires: int): Mappings {
    if m.Some? && m.value in mappings then mappings[m.value := Held(mappings[m.value], expires)] else mappings
  }

  /** Write the receipt, hold the mapping, delete the task, and record the revisions it leaves. */
  function Deleted(db: Db, snapshot: Snapshot, m: Option<Id>): Db {
    var expires := db.clock.now + UNDO_WINDOW;
    var held := db.(cal := db.cal.(mappings := HoldMapping(db.cal.mappings, m, expires)));
    var gone := DropTasks(held, {snapshot.core.id});
    var written := snapshot.(guards := snapshot.guards.(
      revisions := Revisions(gone.side.revisions, snapshot.guards.revisions.Keys)));
    gone.(undo := gone.undo.(deletes := gone.undo.deletes[db.clock.next := DeleteReceipt(written, expires)]),
          clock := db.clock.(next := db.clock.next + 1))
  }

  datatype Preparation = Done(db: Db) | LegacyMapping(snapshot: Snapshot)

  function Repaired(snapshot: Snapshot): Snapshot {
    if snapshot.core.mapping.Some? && snapshot.core.event.Some? then
      var (m, mapping) := snapshot.core.mapping.value;
      snapshot.(core := snapshot.core.(
        mapping := Some((m, mapping.(remote := mapping.remote.(base := Some(FullPrint(snapshot.core.event.value.1))))))))
    else snapshot
  }

  function RepairMapping(db: Db, snapshot: Snapshot): Db {
    if snapshot.core.mapping.Some?
    then db.(cal := db.cal.(mappings := db.cal.mappings[snapshot.core.mapping.value.0 := snapshot.core.mapping.value.1]))
    else db
  }

  /** What stands in the way of deleting `t`, besides its event. */
  function TaskRefusal(db: Db, t: Id, expected: int): Option<AppError> {
    if expected < 1 then Some(Validation)
    else if t !in db.tasks then Some(NotFound)
    else if db.tasks[t].stamp.version != expected then Some(Changed)
    else if HasChildren(db.tasks, t) then Some(HasSubtasks)
    else if |ActiveDeletes(db.undo.deletes, db.clock.now)| >= MAX_RECEIPTS then Some(Capacity)
    else None
  }

  /** What stands in the way of deleting `t` with its event `e` and that event's mapping `m`. */
  function DeleteRefusal(db: Db, t: Id, expected: int, e: Option<Id>, m: Option<Id>): Option<AppError>
    requires e.Some? ==> e.value in db.cal.events
    requires m.Some? ==> m.value in db.cal.mappings
  {
    if TaskRefusal(db, t, expected).Some? then TaskRefusal(db, t, expected)
    else if !WithinCaps(OwnedBy(db, t, e)) then Some(Capacity)
    else if !DependenciesExist(db, t) then Some(Changed)
    else if e.Some? then EventRefusal(db.cal, db.cal.events[e.value], m)
    else None
  }

  /** An outdated fingerprint is replaced only for a snapshot that was validated and that is
      still the same. */
  function Finish(db: Db, snapshot: Snapshot, legacy: bool, validated: Option<Snapshot>, m: Option<Id>): Result<Preparation, AppError> {
    if validated.Some? then
      if validated.value != snapshot || !legacy then Err(Changed)
      else Ok(Done(Deleted(RepairMapping(db, Repaired(snapshot)), Repaired(snapshot), m)))
    else if legacy then Ok(LegacyMapping(snapshot))
    else Ok(Done(Deleted(db, snapshot, m)))
  }

  /** `delete_task_with_undo_inner` for the event `e` and the mapping `m` that the indexes find. */
  function DeleteWith(db: Db, t: Id, expected: int, validated: Option<Snapshot>, e: Option<Id>, m: Option<Id>): Result<Preparation, AppError>
    requires e.Some? ==> e.value in db.cal.events
    requires m.Some? ==> m.value in db.cal.mappings
  {
    if DeleteRefusal(db, t, expected, e, m).Some? then Err(DeleteRefusal(db, t, expected, e, m).value)
    else Finish(db, TakeSnapshot(db, t, e, m), e.Some? && IsLegacy(db.cal, db.cal.events[e.value], m), validated, m)
  }

  ghost function DeleteReversibly(db: Db, t: Id, expected: int, validated: Option<Snapshot>): Result<Preparation, AppError> {
    var e := LinkedEvent(db.cal.events, t);
    var m := if e.Some? then LinkedMapping(db.cal.mappings, e.value) else None;
    DeleteWith(db, t, expected, validated, e, m)
  }

  // ---- undoing ----

  predicate RevisionsUnchanged(db: Db, g: SnapshotGuards) {
    forall s :: s in g.revisions ==> Rev(db.side.revisions, s) == g.revisions[s]
  }

  predicate RowsUnchanged<V(==)>(table: map<Id, V>, expected: map<Id, V>) {
    forall k :: k in expected ==> k in table && table[k] == expected[k]
  }

  predicate CalendarUnchanged(db: Db, g: SnapshotGuards) {
    g.calendar.Some? ==>
      var (c, row) := g.calendar.value;
      c in db.cal.calendars && CalendarGuard(db.cal.calendars[c]) == row
  }

  predicate AccountUnchanged(db: Db, g: SnapshotGuards) {
    g.account.Some? ==> db.cal.account == g.account
  }

  function DetachedFile(f: File): File {
    f.(home := Home(f.home.project, None, None, None))
  }

  predicate FilesUnchanged(files: map<Id, File>, expected: map<Id, File>) {
    forall f :: f in expected ==> f in files && files[f] == DetachedFile(expected[f])
  }

  predicate SuccessorsUnchanged(tasks: Tasks, expected: Tasks) {
    forall k :: k in expected ==> k in tasks && tasks[k] == WithoutSource(expected[k])
  }

  predicate MappingHeld(db: Db, core: SnapshotCore, expires: int) {
    core.mapping.Some? ==>
      var (m, mapping) := core.mapping.value;
      && m in db.cal.mappings && m !in db.cal.conflicts
      && db.cal.mappings[m] == mapping.(canonical := None, flags := mapping.flags.(deleted := true), hold := Hold(Some(expires), true))
  }

  predicate GuardsHold(db: Db, s: Snapshot, expires: int) {
    && RevisionsUnchanged(db, s.guards)
    && RowsUnchanged(db.side.projects, s.guards.projects)
    && RowsUnchanged(db.tasks, s.guards.tasks)
    && CalendarUnchanged(db, s.guards)
    && AccountUnchanged(db, s.guards)
    && FilesUnchanged(db.side.files, s.owned.files)
    && SuccessorsUnchanged(db.tasks, s.owned.successors)
    && MappingHeld(db, s.core, expires)
  }

  /** Primary keys, unique indexes and foreign keys leave room for the rows that come back. */
  predicate NoViolation(db: Db, s: Snapshot) {
    && s.core.id !in db.tasks
    && (s.core.task.place.source.Some? ==> SuccessorsOf(db.tasks, s.core.task.place.source.value) == {})
    && (s.core.event.Some? ==>
          && s.core.event.value.0 !in db.cal.events
          && s.core.event.value.1.calendar in db.cal.calendars
          && EventsOf(db.cal.events, {s.core.id}) == {})
    && (forall n :: n in s.owned.notes ==> n !in db.side.notes)
    && (forall d, k :: d in s.owned.focus && k in db.side.focus && k.0 == d ==> k.1 != s.core.id && db.side.focus[k] != s.owned.focus[d])
  }

  function RestoreEvents(events: Events, core: SnapshotCore, now: int): Events {
    if core.event.None? then events
    else
      var (e, row) := core.event.value;
      events[e := row.(stamp := Bump(row.stamp, now))]
  }

  function RestoreNotes(notes: map<Id, Note>, saved: map<Id, Note>, now: int): map<Id, Note> {
    map n | n in notes.Keys + saved.Keys ::
      if n in saved then saved[n].(stamp := Bump(saved[n].stamp, now)) else notes[n]
  }

  function RestoreFiles(files: map<Id, File>, saved: map<Id, File>): map<Id, File> {
    map f | f in files ::
      if f in saved then files[f].(home := saved[f].home.(project := files[f].home.project)) else files[f]
  }

  function RestoreFocus(focus: Focus, saved: map<int, int>, t: Id): Focus {
    map k | k in focus.Keys + (set d | d in saved :: (d, t)) :: if k.1 == t && k.0 in saved then saved[k.0] else focus[k]
  }

  function FocusAdded(revisions: map<Scope, int>, saved: map<int, int>): map<Scope, int> {
    map s | s in revisions.Keys + (set d | d in saved :: FocusScope(d)) ::
      Rev(revisions, s) + (if s.FocusScope? && s.date in saved then 1 else 0)
  }

  function RestoreSide(side: SideTables, s: Snapshot, now: int): SideTables {
    side.(notes := RestoreNotes(side.notes, s.owned.notes, now),
          files := RestoreFiles(side.files, s.owned.files),
          focus := RestoreFocus(side.focus, s.owned.focus, s.core.id),
          revisions := FocusAdded(side.revisions, s.owned.focus))
  }

  function ReleaseMapping(mappings: Mappings, core: SnapshotCore): Mappings {
    if core.mapping.None? || core.mapping.value.0 !in mappings || core.event.None? then mappings
    else
      var m := core.mapping.value.0;
      mappings[m := mappings[m].(canonical := Some(core.event.value.0),
                                 flags := mappings[m].flags.(dirty := false, deleted := false),
                                 hold := Hold(None, false))]
  }

  function Restored(db: Db, r: Id): Db
    requires r in db.undo.deletes
  {
    var s := db.undo.deletes[r].snapshot;
    Db(RestoreTasks(db.tasks, s, db.clock.now),
       db.cal.(events := RestoreEvents(db.cal.events, s.core, db.clock.now), mappings := ReleaseMapping(db.cal.mappings, s.core)),
       RestoreSide(db.side, s, db.clock.now),
       db.undo.(deletes := db.undo.deletes - {r}),
       db.clock)
  }

  /** `undo_task_delete_inner`; `provider` is the outcome of validating a Google event. */
  function UndoDelete(db: Db, r: Id, provider: Option<AppError>): Outcome {
    if r !in db.undo.deletes then Err(NotFound)
    else
      var receipt := db.undo.deletes[r];
      if !Active(receipt.expires, db.clock.now) then Err(Changed)
      else if receipt.snapshot.core.mapping.Some? && provider.Some? then Err(provider.value)
      else if !GuardsHold(db, receipt.snapshot, receipt.expires) then Err(Changed)
      else if !NoViolation(db, receipt.snapshot) then Err(Changed)
      else Ok(Restored(db, r))
  }

  // ---- when they are accepted ----

  /** A local event has nothing at Google; one at Google has an account and a clean mapping. */
  predicate EventMayGo(cal: CalendarTables, event: Event, m: Option<Id>)
    requires m.Some? ==> m.value in cal.mappings
  {
    && event.calendar in cal.calendars
    && if IsGoogle(cal, event.calendar) then cal.account.Some? && m.Some? && CleanMapping(cal, event, m.value) else m.None?
  }

  /** The version is right, nothing is below the task, there is room for another receipt and for what
      hangs on the task, and what the task names exists. */
  predicate TaskMayGo(db: Db, t: Id, expected: int, e: Option<Id>) {
    && expected >= 1 && t in db.tasks && db.tasks[t].stamp.version == expected
    && (forall k :: k in db.tasks ==> db.tasks[k].place.parent != Some(t))
    && |ActiveDeletes(db.undo.deletes, db.clock.now)| < MAX_RECEIPTS
    && WithinCaps(OwnedBy(db, t, e)) && DependenciesExist(db, t)
  }

  lemma NotRefused(db: Db, t: Id, expected: int, e: Option<Id>, m: Option<Id>)
    requires e.Some? ==> e.value in db.cal.events
    requires m.Some? ==> m.value in db.cal.mappings
    ensures DeleteRefusal(db, t, expected, e, m).None? <==>
              TaskMayGo(db, t, expected, e) && (e.Some? ==> EventMayGo(db.cal, db.cal.events[e.value], m))
  {
  }

  /** A reversible deletion is refused in every other case. One whose mapping has an outdated
      fingerprint is carried out with a validated snapshot only, and any other without one only. */
  lemma DeletedExactly(db: Db, t: Id, expected: int, validated: Option<Snapshot>)
    ensures var e := LinkedEvent(db.cal.events, t);
            var m := if e.Some? then LinkedMapping(db.cal.mappings, e.value) else None;
            var outcome := DeleteReversibly(db, t, expected, validated);
            var legacy := e.Some? && IsLegacy(db.cal, db.cal.events[e.value], m);
            && (outcome.Ok? <==>
                  && TaskMayGo(db, t, expected, e) && (e.Some? ==> EventMayGo(db.cal, db.cal.events[e.value], m))
                  && (validated.Some? ==> legacy && validated.value == TakeSnapshot(db, t, e, m)))
            && (outcome.Ok? ==> (outcome.value.Done? <==> (validated.Some? <==> legacy)))
  {
    var e := LinkedEvent(db.cal.events, t);
    NotRefused(db, t, expected, e, if e.Some? then LinkedMapping(db.cal.mappings, e.value) else None);
  }

  /** What the provider answers decides only about an event that is there; its refusal is passed on
      while the receipt lasts, and leaves everything as it is. */
  lemma UndoneExactly(db: Db, r: Id, provider: Option<AppError>)
    ensures UndoDelete(db, r, provider).Ok? <==>
              && r in db.undo.deletes && db.undo.deletes[r].expires > db.clock.now
              && (db.undo.deletes[r].snapshot.core.mapping.Some? ==> provider.None?)
              && GuardsHold(db, db.undo.deletes[r].snapshot, db.undo.deletes[r].expires) && NoViolation(db, db.undo.deletes[r].snapshot)
    ensures r in db.undo.deletes && db.undo.deletes[r].expires > db.clock.now && db.undo.deletes[r].snapshot.core.mapping.Some? && provider.Some? ==>
              UndoDelete(db, r, provider) == Err(provider.value)
  {
  }
}
