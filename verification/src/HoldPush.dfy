/** What a push sends, and what it leaves behind: a change that is listed reaches Google as one request
    of the right kind, with what was stored when the list was read
    (apps/api/src/sync_service.rs:793-868). */
module HoldPush {
  import opened Prelude
  import opened EventShape
  import opened Rows
  import opened Transactions
  import opened Workspace
  import opened WorkspaceTheorems
  import opened HoldProtocol
  import opened HoldMappings
  import opened HoldSafety
  import opened HoldOwner
  import opened HoldTheorems
  import opened HoldQuiet

  // ---- which requests there are ----

  predicate NamesStoredEvent(cal: CalendarTables, row: Mapping) {
    row.canonical.Some? && row.canonical.value in cal.events
  }

  /** What a mapping asks to be told to Google: that its event is gone, if it is marked so or there is
      no such event, and otherwise what the event says. */
  function Asked(cal: CalendarTables, row: Mapping): Request {
    if row.flags.deleted || !NamesStoredEvent(cal, row) then Delete(TargetOf(row), row.remote.etag)
    else
      var e := row.canonical.value;
      Put(TargetOf(row), row.remote.etag, FromLocal(cal.events[e].body))
  }

  function Times(r: Request, asked: Request): nat {
    if r == asked then 1 else 0
  }

  // ---- between the list and the request ----

  predicate RemovesCalendar(step: HoldStep, c: Id) {
    step == Owner(OnEvents(RemoveCalendar(c)))
  }

  /** The worker goes on with its list, and the calendar stays. */
  predicate GoesOn(step: HoldStep, c: Id) {
    step != Works(Finish) && !RemovesCalendar(step, c)
  }

  predicate Stored(mappings: Mappings, m: Id, c: Id, target: Target) {
    m in mappings && mappings[m].calendar == c && TargetOf(mappings[m]) == target
  }

  /** Row `m` was listed as `item` and is still to be sent; no other row of the list is of its event. */
  ghost predicate ToBeSent(w: World, m: Id, item: Item) {
    && w.worker.Busy? && (w.worker.act.Pushing? || (w.worker.act.Answered? && w.worker.act.mapping != m))
    && m in w.worker.act.items && w.worker.act.items[m] == item
    && (forall k :: k in w.worker.act.items && k != m ==> TargetOf(w.worker.act.items[k].row) != TargetOf(item.row))
    && Stored(w.db.cal.mappings, m, item.row.calendar, TargetOf(item.row))
  }

  /** Row `m` has been sent, and no other row is of its event; the answer is still to be recorded. */
  ghost predicate OnItsWay(w: World, m: Id, item: Item, written: Option<EventBody>) {
    && w.worker.Busy? && w.worker.act.Answered? && w.worker.act.mapping == m && w.worker.act.written == written
    && CalmItems(w.worker.act.items, TargetOf(item.row))
    && Stored(w.db.cal.mappings, m, item.row.calendar, TargetOf(item.row))
  }

  /** While the worker has the lock, no transaction removes a mapping, unless with its calendar. */
  lemma StaysByOwner(w: World, step: Step, m: Id, c: Id, target: Target)
    requires HoldInv(w) && w.worker.Busy? && Stored(w.db.cal.mappings, m, c, target) && !RemovesCalendar(Owner(step), c)
    ensures Stored(NextOwner(w, step).db.cal.mappings, m, c, target)
    ensures NextOwner(w, step).worker == w.worker && NextOwner(w, step).log.requests == w.log.requests
  {
    if !NeedsLock(step) {
      var after := Next(w.db, Tame(w.db, step));
      PlainOnward(w.db, step);
      assert NextOwner(w, step).db == after;
      PlainStays(w.db, step, m, c, target);
    }
  }

  lemma PlainStays(db: Db, step: Step, m: Id, c: Id, target: Target)
    requires Inv(db) && !NeedsLock(step) && Stored(db.cal.mappings, m, c, target) && !RemovesCalendar(Owner(step), c)
    ensures Stored(Next(db, Tame(db, step)).cal.mappings, m, c, target)
  {
    PlainOnward(db, step);
    match step
    case OnTasks(t) => KeepByTask(db, t);
    case OnEvents(e) => KeepByEvent(db, e);
    case OnUndo(u) =>
    case Other(o) =>
  }

  lemma StaysByResolve(w: World, k: Id, choice: Resolution, m: Id, c: Id, target: Target)
    requires Stored(w.db.cal.mappings, m, c, target)
    ensures Stored(NextResolve(w, k, choice).db.cal.mappings, m, c, target)
    ensures NextResolve(w, k, choice).worker == w.worker && NextResolve(w, k, choice).log.requests == w.log.requests
  {
  }

  lemma ToBeSentByWork(w: World, step: WorkerStep, m: Id, item: Item)
    requires ToBeSent(w, m, item) && step != Finish && step != Send(m)
    ensures ToBeSent(NextWork(w, step), m, item) && SameRequests(w, NextWork(w, step), TargetOf(item.row))
  {
  }

  lemma ToBeSentKept(w: World, step: HoldStep, m: Id, item: Item)
    requires HoldInv(w) && ToBeSent(w, m, item) && GoesOn(step, item.row.calendar) && step != Works(Send(m))
    ensures ToBeSent(NextHold(w, step), m, item) && SameRequests(w, NextHold(w, step), TargetOf(item.row))
  {
    match step
    case Owner(s) => StaysByOwner(w, s, m, item.row.calendar, TargetOf(item.row));
    case Resolve(k, choice) => StaysByResolve(w, k, choice, m, item.row.calendar, TargetOf(item.row));
    case Works(s) => ToBeSentByWork(w, s, m, item);
  }

  lemma {:induction false} ToBeSentOfRun(w: World, steps: seq<HoldStep>, m: Id, item: Item)
    requires HoldInv(w) && ToBeSent(w, m, item)
    requires forall i :: 0 <= i < |steps| ==> GoesOn(steps[i], item.row.calendar) && steps[i] != Works(Send(m))
    ensures HoldInv(RunHold(w, steps)) && ToBeSent(RunHold(w, steps), m, item)
    ensures SameRequests(w, RunHold(w, steps), TargetOf(item.row))
    decreases |steps|
  {
    if steps != [] {
      HoldKept(w, steps[0]);
      ToBeSentKept(w, steps[0], m, item);
      ToBeSentOfRun(NextHold(w, steps[0]), steps[1..], m, item);
    }
  }

  lemma OnItsWayKept(w: World, step: HoldStep, m: Id, item: Item, written: Option<EventBody>)
    requires HoldInv(w) && OnItsWay(w, m, item, written) && GoesOn(step, item.row.calendar)
    requires !(step.Works? && step.statement.Record?)
    ensures OnItsWay(NextHold(w, step), m, item, written) && NextHold(w, step).log.requests == w.log.requests
  {
    match step
    case Owner(s) => StaysByOwner(w, s, m, item.row.calendar, TargetOf(item.row));
    case Resolve(k, choice) => StaysByResolve(w, k, choice, m, item.row.calendar, TargetOf(item.row));
    case Works(s) =>
  }

  lemma {:induction false} OnItsWayOfRun(w: World, steps: seq<HoldStep>, m: Id, item: Item, written: Option<EventBody>)
    requires HoldInv(w) && OnItsWay(w, m, item, written)
    requires forall i :: 0 <= i < |steps| ==> GoesOn(steps[i], item.row.calendar) && !(steps[i].Works? && steps[i].statement.Record?)
    ensures HoldInv(RunHold(w, steps)) && OnItsWay(RunHold(w, steps), m, item, written) && RunHold(w, steps).log.requests == w.log.requests
    decreases |steps|
  {
    if steps != [] {
      HoldKept(w, steps[0]);
      OnItsWayKept(w, steps[0], m, item, written);
      OnItsWayOfRun(NextHold(w, steps[0]), steps[1..], m, item, written);
    }
  }

  // ---- one push ----

  /** The worker is not waiting for an answer. */
  predicate CanSend(w: World) {
    w.worker.Busy? && w.worker.act.Pushing?
  }

  /** A mapping that is to be pushed when the worker lists its calendar. */
  ghost predicate Due(w: World, m: Id) {
    ReachableHold(w) && w.worker == Busy(Free) && m in w.db.cal.mappings && Pushable(w.db.cal.mappings[m], w.db.clock.now)
  }

  ghost function ListedIn(w: World, m: Id): World
    requires m in w.db.cal.mappings
  {
    NextHold(w, Works(List(w.db.cal.mappings[m].calendar)))
  }

  function ItemOf(w: World, m: Id): Item
    requires m in w.db.cal.mappings
  {
    Item(w.db.cal.mappings[m], BodyOf(w.db.cal, w.db.cal.mappings[m]), CauseOf(w, m))
  }

  lemma DueIsListed(w: World, m: Id)
    requires Due(w, m)
    ensures HoldInv(ListedIn(w, m)) && ToBeSent(ListedIn(w, m), m, ItemOf(w, m))
    ensures ListedIn(w, m).log == w.log
  {
    HoldOfReachable(w);
    HoldKept(w, Works(List(w.db.cal.mappings[m].calendar)));
    OneTargetOfReachable(w);
    ListedOnce(w, m);
  }

  lemma ListedOnce(w: World, m: Id)
    requires m in w.db.cal.mappings && w.worker == Busy(Free) && Pushable(w.db.cal.mappings[m], w.db.clock.now)
    requires OneTarget(w.db.cal.mappings)
    ensures ToBeSent(ListedIn(w, m), m, ItemOf(w, m)) && ListedIn(w, m).log == w.log
  {
  }

  /** What the worker remembers of the request. */
  function WrittenBy(cal: CalendarTables, row: Mapping): Option<EventBody> {
    if row.flags.deleted then None else BodyOf(cal, row)
  }

  /** Between `w` and `sent`, Google was told this of the event of row `m`, once, and nothing else. */
  ghost predicate ToldOnce(w: World, sent: World, m: Id)
    requires m in w.db.cal.mappings
  {
    forall r: Request :: r.target == TargetOf(w.db.cal.mappings[m]) ==>
      sent.log.requests[r] == w.log.requests[r] + Times(r, Asked(w.db.cal, w.db.cal.mappings[m]))
  }

  lemma SentOnce(w: World, listed: World, due: World, m: Id, item: Item)
    requires m in w.db.cal.mappings && item == ItemOf(w, m) && ToBeSent(due, m, item) && CanSend(due)
    requires listed.log == w.log && SameRequests(listed, due, TargetOf(item.row))
    ensures ToldOnce(w, NextHold(due, Works(Send(m))), m)
  {
    assert NextHold(due, Works(Send(m))).log.requests == due.log.requests + multiset{Asked(w.db.cal, item.row)};
  }

  lemma ItIsSent(w: World, due: World, m: Id)
    requires m in w.db.cal.mappings && ToBeSent(due, m, ItemOf(w, m)) && CanSend(due)
    ensures var row, sent := w.db.cal.mappings[m], NextHold(due, Works(Send(m)));
            OnItsWay(sent, m, ItemOf(w, m), WrittenBy(w.db.cal, row)) && sent.db == due.db
  {
  }

  /** The world in which the worker sends the request of row `m`, after the steps `before`. */
  ghost function SentAfter(w: World, m: Id, before: seq<HoldStep>): World
    requires m in w.db.cal.mappings
  {
    NextHold(RunHold(ListedIn(w, m), before), Works(Send(m)))
  }

  /** Nothing stops the worker, takes the calendar away, or does what is still to be done for `m`. */
  predicate Undisturbed(steps: seq<HoldStep>, m: Id, c: Id) {
    forall i :: 0 <= i < |steps| ==>
      GoesOn(steps[i], c) && steps[i] != Works(Send(m)) && !(steps[i].Works? && steps[i].statement.Record?)
  }

  predicate GetsThere(steps: seq<HoldStep>, m: Id, c: Id) {
    forall i :: 0 <= i < |steps| ==> GoesOn(steps[i], c) && steps[i] != Works(Send(m))
  }

  /** Whatever else happens after the list was read: Google is told once, when row `m` has its turn,
      that the event is gone, if the mapping was marked as deleted or named no stored event when it
      was listed, and otherwise what the event then said; and it is told nothing else about that
      event. */
  lemma ListedIsSent(w: World, m: Id, before: seq<HoldStep>)
    requires Due(w, m) && GetsThere(before, m, w.db.cal.mappings[m].calendar)
    requires CanSend(RunHold(ListedIn(w, m), before))
    ensures ToldOnce(w, SentAfter(w, m, before), m)
  {
    var item := ItemOf(w, m);
    DueIsListed(w, m);
    ToBeSentOfRun(ListedIn(w, m), before, m, item);
    SentOnce(w, ListedIn(w, m), RunHold(ListedIn(w, m), before), m, item);
  }

  /** Of the mappings only `m` has changed: it is clean, and says that Google has `body` under the new
      ETag. */
  ghost predicate MadeClean(w: World, done: World, m: Id, body: EventBody, etag: Option<string>) {
    && m in w.db.cal.mappings && m in done.db.cal.mappings && done.db.cal.mappings == w.db.cal.mappings[m := done.db.cal.mappings[m]]
    && var was, row := w.db.cal.mappings[m], done.db.cal.mappings[m];
       && !row.flags.dirty && row.flags == was.flags.(dirty := false)
       && row.remote.etag == etag && row.remote.base == Some(Full(FromLocal(body)))
       && row.remote.calendar == was.remote.calendar && row.remote.event == was.remote.event
       && row.calendar == was.calendar && row.canonical == was.canonical && row.hold == was.hold
  }

  lemma AnswerIsRecorded(w: World, m: Id, item: Item, written: Option<EventBody>, etag: Option<string>)
    requires OnItsWay(w, m, item, written)
    ensures var done := NextHold(w, Works(Record(etag)));
            if written.Some? then MadeClean(w, done, m, written.value, etag)
            else done.db.cal.mappings == w.db.cal.mappings - {m}
  {
  }

  /** And when the answer is recorded, after whatever else happened meanwhile, the mapping is gone if
      Google was told that the event is; otherwise it is still there and clean, with the new ETag and
      the fingerprint of what was sent. */
  lemma SentIsRecorded(w: World, m: Id, before: seq<HoldStep>, between: seq<HoldStep>, etag: Option<string>)
    requires Due(w, m) && GetsThere(before, m, w.db.cal.mappings[m].calendar)
    requires CanSend(RunHold(ListedIn(w, m), before))
    requires Undisturbed(between, m, w.db.cal.mappings[m].calendar)
    ensures var row, later := w.db.cal.mappings[m], RunHold(SentAfter(w, m, before), between);
            var done := NextHold(later, Works(Record(etag)));
            && m in later.db.cal.mappings && later.log.requests == SentAfter(w, m, before).log.requests
            && if row.flags.deleted || !NamesStoredEvent(w.db.cal, row) then done.db.cal.mappings == later.db.cal.mappings - {m}
               else MadeClean(later, done, m, w.db.cal.events[row.canonical.value].body, etag)
  {
    var row, item := w.db.cal.mappings[m], ItemOf(w, m);
    LaterStands(w, m, before, between);
    AnswerIsRecorded(RunHold(SentAfter(w, m, before), between), m, item, WrittenBy(w.db.cal, row), etag);
  }

  // ---- an edit while the request is on its way ----

  /** The fingerprint of the mapping is that of its event as it now is. */
  predicate UpToDate(cal: CalendarTables, row: Mapping) {
    && NamesStoredEvent(cal, row)
    && var e := row.canonical.value; row.remote.base == Some(Full(FromLocal(cal.events[e].body)))
  }

  lemma RecordedIsQuiet(w: World, m: Id, item: Item, body: EventBody, etag: Option<string>)
    requires OnItsWay(w, m, item, Some(body)) && OneTarget(w.db.cal.mappings)
    requires m in w.db.cal.mappings && !w.db.cal.mappings[m].flags.deleted && !w.db.cal.mappings[m].hold.tombstone && m !in w.db.cal.conflicts
    ensures Quiet(NextHold(w, Works(Record(etag))), TargetOf(item.row))
  {
  }

  lemma RecordedFits(later: World, done: World, m: Id, body: EventBody, etag: Option<string>)
    requires MadeClean(later, done, m, body, etag) && NamesStoredEvent(later.db.cal, later.db.cal.mappings[m])
    requires done.db.cal.events == later.db.cal.events
    ensures var e := later.db.cal.mappings[m].canonical.value;
            UpToDate(done.db.cal, done.db.cal.mappings[m]) <==> FromLocal(later.db.cal.events[e].body) == FromLocal(body)
  {
  }

  /** The mapping of `m` can be pushed: it names a stored event and is neither deleted, held nor in
      conflict. */
  predicate Plainly(cal: CalendarTables, m: Id) {
    && m in cal.mappings && NamesStoredEvent(cal, cal.mappings[m])
    && !cal.mappings[m].flags.deleted && !cal.mappings[m].hold.tombstone && m !in cal.conflicts
  }

  /** Event of mapping `m` as Google is told of it. */
  function ShapeOf(cal: CalendarTables, m: Id): Wire
    requires m in cal.mappings && NamesStoredEvent(cal, cal.mappings[m])
  {
    var e := cal.mappings[m].canonical.value;
    FromLocal(cal.events[e].body)
  }

  /** The mapping is clean, it fits its event exactly if the event is as it was sent, and nothing more
      is sent in any run without a local action. */
  ghost predicate Forgets(later: World, done: World, m: Id, sent: Wire, target: Target, after: seq<HoldStep>)
    requires Plainly(later.db.cal, m)
  {
    && m in done.db.cal.mappings && !done.db.cal.mappings[m].flags.dirty
    && (UpToDate(done.db.cal, done.db.cal.mappings[m]) <==> ShapeOf(later.db.cal, m) == sent)
    && (NoLocalAction(done, after, target) ==> SameRequests(done, RunHold(done, after), target))
  }

  lemma RecordingForgets(later: World, m: Id, item: Item, body: EventBody, etag: Option<string>, after: seq<HoldStep>)
    requires HoldInv(later) && OnItsWay(later, m, item, Some(body)) && OneTarget(later.db.cal.mappings) && Plainly(later.db.cal, m)
    ensures Forgets(later, NextHold(later, Works(Record(etag))), m, FromLocal(body), TargetOf(item.row), after)
  {
    var done := NextHold(later, Works(Record(etag)));
    AnswerIsRecorded(later, m, item, Some(body), etag);
    RecordedFits(later, done, m, body, etag);
    RecordedIsQuiet(later, m, item, body, etag);
    HoldKept(later, Works(Record(etag)));
    if NoLocalAction(done, after, TargetOf(item.row)) {
      QuietOfRun(done, after, TargetOf(item.row));
    }
  }

  /** An edit that comes between the reading of the list and the recording of the answer is forgotten:
      Google has what was listed, the mapping is clean, and nothing more is sent for the event in any
      run until another local action. The mapping fits its event exactly if the edit changed nothing
      that is written to Google. */
  lemma EditDuringPushIsForgotten(w: World, m: Id, before: seq<HoldStep>, between: seq<HoldStep>, etag: Option<string>, after: seq<HoldStep>)
    requires Due(w, m) && GetsThere(before, m, w.db.cal.mappings[m].calendar) && CanSend(RunHold(ListedIn(w, m), before))
    requires Undisturbed(between, m, w.db.cal.mappings[m].calendar)
    requires !w.db.cal.mappings[m].flags.deleted && NamesStoredEvent(w.db.cal, w.db.cal.mappings[m])
    ensures var later := RunHold(SentAfter(w, m, before), between);
            Plainly(later.db.cal, m) ==>
              Forgets(later, NextHold(later, Works(Record(etag))), m, ShapeOf(w.db.cal, m), TargetOf(w.db.cal.mappings[m]), after)
  {
    var item, later := ItemOf(w, m), RunHold(SentAfter(w, m, before), between);
    LaterStands(w, m, before, between);
    if Plainly(later.db.cal, m) {
      RecordingForgets(later, m, item, item.body.value, etag, after);
    }
  }

  /** Before the answer is recorded. */
  lemma LaterStands(w: World, m: Id, before: seq<HoldStep>, between: seq<HoldStep>)
    requires Due(w, m) && GetsThere(before, m, w.db.cal.mappings[m].calendar) && CanSend(RunHold(ListedIn(w, m), before))
    requires Undisturbed(between, m, w.db.cal.mappings[m].calendar)
    ensures var later := RunHold(SentAfter(w, m, before), between);
            && HoldInv(later) && OnItsWay(later, m, ItemOf(w, m), WrittenBy(w.db.cal, w.db.cal.mappings[m]))
            && OneTarget(later.db.cal.mappings) && later.log.requests == SentAfter(w, m, before).log.requests
  {
    var item, listed := ItemOf(w, m), ListedIn(w, m);
    var due := RunHold(listed, before);
    DueIsListed(w, m);
    ToBeSentOfRun(listed, before, m, item);
    ItIsSent(w, due, m);
    HoldKept(due, Works(Send(m)));
    OnItsWayOfRun(SentAfter(w, m, before), between, m, item, WrittenBy(w.db.cal, w.db.cal.mappings[m]));
    OneTargetOfReachable(w);
    HoldOfReachable(w);
    OneTargetKept(w, Works(List(w.db.cal.mappings[m].calendar)));
    OneTargetOfRun(listed, before);
    OneTargetKept(due, Works(Send(m)));
    OneTargetOfRun(SentAfter(w, m, before), between);
  }
}
