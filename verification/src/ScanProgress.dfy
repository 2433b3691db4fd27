/** A batch of the scan as the worker runs it, and why scanning comes to an end when nothing
    else changes (apps/api/src/google_tasks_sync.rs:72-202). */
module ScanProgress {
  import opened Prelude
  import opened TasksScan
  import opened ScanSafety

  // ---- sizes ----

  lemma StrictlyFewer<T>(a: set<T>, b: set<T>, x: T)
    requires a <= b && x in b && x !in a
    ensures |a| < |b|
  {
    FewerOf(a, b - {x});
  }

  lemma Missing<T>(a: set<T>, b: set<T>) returns (x: T)
    requires a <= b && a != b
    ensures x in b && x !in a
  {
    x :| x in b && x !in a;
  }

  // ---- what is left to do ----

  /** Remote tasks that an import would still take over. */
  function Importable(remote: Remotes, links: Links): set<RemoteId> {
    set id | id in remote && remote[id].usable && id !in Externals(links)
      && !(remote[id].marker.Some? && remote[id].marker.value in References(links))
  }

  function Behind(links: Links): set<LinkId> {
    set l | l in links && links[l].behind
  }

  /** The writes to tasks that are still due; each of them makes the scan start again. */
  function Due(remote: Remotes, links: Links): nat {
    |Importable(remote, links)| + |Behind(links)|
  }

  /** A checkpoint from before the last change. */
  function Stale(c: Connection): nat {
    if c.checkpoint.Some? && c.checkpoint.value.revision != c.change then 1 else 0
  }

  function CursorsOf(c: Connection): Cursors {
    if c.checkpoint.Some? then c.checkpoint.value.at else Cursors(None, None)
  }

  function KnownIn(links: Links): Known {
    Known(Externals(links), References(links))
  }

  function ImportsLeft(t: Tables, remote: Remotes): nat {
    |Candidates(remote, KnownIn(t.links), CursorsOf(t.connection).imports)|
  }

  function LinksLeft(t: Tables): nat {
    |LiveBeyond(t.links, CursorsOf(t.connection).link)|
  }

  /** Due writes first, then whether the checkpoint is stale, unprepared tasks, imports and
      links. */
  ghost predicate Closer(remote: Remotes, a: Tables, b: Tables) {
    var dueA, dueB := Due(remote, a.links), Due(remote, b.links);
    var staleA, staleB := Stale(a.connection), Stale(b.connection);
    var tasksA, tasksB := |Unlinked(a)|, |Unlinked(b)|;
    var importsA, importsB := ImportsLeft(a, remote), ImportsLeft(b, remote);
    || dueB < dueA
    || (dueB == dueA && (|| staleB < staleA
        || (staleB == staleA && (|| tasksB < tasksA
            || (tasksB == tasksA && (|| importsB < importsA
                || (importsB == importsA && LinksLeft(b) < LinksLeft(a))))))))
  }

  // ---- what the steps of a batch do to it ----

  /** No identity is forgotten. */
  ghost predicate Remembers(a: Links, b: Links) {
    Externals(a) <= Externals(b) && References(a) <= References(b)
  }

  /** Nothing more became due; a change of the revision was a due write. */
  ghost predicate Ebb(remote: Remotes, a: Tables, b: Tables) {
    && Remembers(a.links, b.links)
    && Behind(b.links) <= Behind(a.links) && Importable(remote, b.links) <= Importable(remote, a.links)
    && a.connection.change <= b.connection.change
    && b.connection.checkpoint == a.connection.checkpoint && b.connection.enabled == a.connection.enabled
    && (a.connection.change < b.connection.change ==> Due(remote, b.links) < Due(remote, a.links))
    && (a.connection.change == b.connection.change ==> b.tasks == a.tasks && Unlinked(b) <= Unlinked(a))
  }

  lemma DueFalls(remote: Remotes, a: Tables, b: Tables)
    requires Behind(b.links) <= Behind(a.links) && Importable(remote, b.links) <= Importable(remote, a.links)
    ensures Due(remote, b.links) <= Due(remote, a.links)
  {
    FewerOf(Behind(b.links), Behind(a.links));
    FewerOf(Importable(remote, b.links), Importable(remote, a.links));
  }

  lemma EbbTwice(remote: Remotes, a: Tables, b: Tables, c: Tables)
    requires Ebb(remote, a, b) && Ebb(remote, b, c)
    ensures Ebb(remote, a, c)
  {
    DueFalls(remote, a, b);
    DueFalls(remote, b, c);
  }

  /** The same links; some were detached, some learned their identity. */
  ghost predicate SameLinks(a: Tables, b: Tables) {
    && b.links.Keys == a.links.Keys
    && (forall l :: l in b.links && b.links[l].live ==> a.links[l].live)
    && (forall l :: l in b.links ==> b.links[l].reference == a.links[l].reference)
    && Externals(a.links) <= Externals(b.links)
  }

  lemma SameLinksTwice(a: Tables, b: Tables, c: Tables)
    requires SameLinks(a, b) && SameLinks(b, c)
    ensures SameLinks(a, c)
  {
  }

  lemma EbbByPrepare(remote: Remotes, a: Tables, task: TaskId)
    requires a.next !in a.links
    ensures var b := a.(links := a.links[a.next := Link(task, true, None, true, false)], next := a.next + 1);
            Ebb(remote, a, b) && Linked(b.links, task) && forall k :: Linked(a.links, k) ==> Linked(b.links, k)
  {
    var row := Link(task, true, None, true, false);
    var b := a.(links := a.links[a.next := row], next := a.next + 1);
    forall k | Linked(a.links, k) || k == task
      ensures Linked(b.links, k)
    {
      LinkedGrows(a.links, a.next, row, k);
    }
    forall id | id in Externals(a.links)
      ensures id in Externals(b.links)
    {
      var l :| l in a.links && a.links[l].external.Some? && a.links[l].external.value == id;
      assert b.links[l].external.value == id;
    }
    assert References(a.links) <= References(b.links);
    assert Importable(remote, b.links) <= Importable(remote, a.links);
  }

  /** A visit in a quiet world: it writes only what is behind, completes nothing that recurs and
      confirms the identity it knows. */
  function Undisturbed(o: Visited, row: Link): Visited {
    Visited(o.ok, o.detached, if row.external.Some? then row.external else o.external, o.wrote && row.behind, false)
  }

  lemma VisitLearns(a: Links, l: LinkId, o: Visited)
    requires l in a
    ensures Externals(a) <= Externals(a[l := VisitedRow(a[l], Undisturbed(o, a[l]))])
  {
    var b := a[l := VisitedRow(a[l], Undisturbed(o, a[l]))];
    forall id | id in Externals(a)
      ensures id in Externals(b)
    {
      var k :| k in a && a[k].external.Some? && a[k].external.value == id;
      assert b[k].external.Some? && b[k].external.value == id;
    }
  }

  lemma SameTasksLinked(a: Links, l: LinkId, row: Link)
    requires l in a && row.task == a[l].task
    ensures forall k :: Linked(a[l := row], k) <==> Linked(a, k)
  {
    var b := a[l := row];
    forall k | Linked(a, k)
      ensures Linked(b, k)
    {
      var i :| i in a && a[i].task == k;
      assert b[i].task == k;
    }
    forall k | Linked(b, k)
      ensures Linked(a, k)
    {
      var i :| i in b && b[i].task == k;
      assert a[i].task == k;
    }
  }

  lemma EbbByVisit(remote: Remotes, a: Tables, l: LinkId, o: Visited)
    requires l in a.links && a.connection.enabled
    ensures var u := Undisturbed(o, a.links[l]);
            var b := a.(links := a.links[l := VisitedRow(a.links[l], u)]);
            var c := b.(connection := b.connection.(change := b.connection.change + 1), next := b.next + 1);
            SameLinks(a, b) && Ebb(remote, a, if u.wrote then c else b)
  {
    var u := Undisturbed(o, a.links[l]);
    var b := a.(links := a.links[l := VisitedRow(a.links[l], u)]);
    VisitLearns(a.links, l, o);
    SameTasksLinked(a.links, l, VisitedRow(a.links[l], u));
    assert References(b.links) == References(a.links);
    assert Importable(remote, b.links) <= Importable(remote, a.links);
    assert Behind(b.links) <= Behind(a.links);
    if u.wrote {
      FewerOf(Importable(remote, b.links), Importable(remote, a.links));
      StrictlyFewer(Behind(b.links), Behind(a.links), l);
    }
  }

  lemma EbbByImport(remote: Remotes, a: Tables, id: RemoteId)
    requires a.next + 1 !in a.links && id in Importable(remote, a.links)
    ensures var b := a.(tasks := a.tasks + {a.next}, links := a.links[a.next + 1 := Link(a.next, true, Some(id), false, false)],
                        connection := a.connection.(change := a.connection.change + 1), next := a.next + 3);
            Ebb(remote, a, b)
  {
    var row := Link(a.next, true, Some(id), false, false);
    var b := a.(tasks := a.tasks + {a.next}, links := a.links[a.next + 1 := row],
                connection := a.connection.(change := a.connection.change + 1), next := a.next + 3);
    forall x | x in Externals(a.links)
      ensures x in Externals(b.links)
    {
      var l :| l in a.links && a.links[l].external.Some? && a.links[l].external.value == x;
      assert b.links[l].external.value == x;
    }
    assert b.links[a.next + 1].external.value == id;
    assert id in Externals(b.links);
    assert References(a.links) <= References(b.links);
    assert Importable(remote, b.links) <= Importable(remote, a.links);
    assert Behind(b.links) <= Behind(a.links);
    FewerOf(Behind(b.links), Behind(a.links));
    StrictlyFewer(Importable(remote, b.links), Importable(remote, a.links), id);
  }

  // ---- the tasks that the scan itself creates ----

  /** A listing shows what others put there, and possibly tasks that a link's request created. */
  function Listing(others: Remotes, created: Remotes, links: Links): Remotes {
    others + map id | id in created && id !in others
      && (id in Externals(links) || (created[id].marker.Some? && created[id].marker.value in References(links))) :: created[id]
  }

  /** The scan has nothing to do about tasks it created. */
  lemma OwnTasksAreKnown(others: Remotes, created: Remotes, a: Links, b: Links, cursor: Option<RemoteId>)
    requires Remembers(a, b)
    ensures Importable(Listing(others, created, a), b) == Importable(others, b)
    ensures Candidates(Listing(others, created, a), KnownIn(b), cursor) == Candidates(others, KnownIn(b), cursor)
  {
    var listed := Listing(others, created, a);
    forall id | id in listed && id !in others
      ensures id in Externals(b) || (listed[id].marker.Some? && listed[id].marker.value in References(b))
    {
    }
    SameMembers(Importable(listed, b), Importable(others, b));
    SameMembers(Candidates(listed, KnownIn(b), cursor), Candidates(others, KnownIn(b), cursor));
  }

  /** So a batch that comes closer by its listing comes closer. */
  lemma CloserAnyway(others: Remotes, created: Remotes, a: Tables, b: Tables)
    requires Remembers(a.links, b.links) && Closer(Listing(others, created, a.links), a, b)
    ensures Closer(others, a, b)
  {
    OwnTasksAreKnown(others, created, a.links, a.links, CursorsOf(a.connection).imports);
    OwnTasksAreKnown(others, created, a.links, b.links, CursorsOf(b.connection).imports);
  }

  // ---- the end of a batch ----

  /** Every later id is beyond the earlier cursor too. */
  ghost predicate Later(from: Option<int>, at: Option<int>) {
    forall x :: Beyond(x, at) ==> Beyond(x, from)
  }

  /** Where a batch that began with the tables `a` has arrived. */
  ghost predicate Advanced(remote: Remotes, a: Tables, t: Tables, b: Batch) {
    var from := CursorsOf(a.connection);
    && Ebb(remote, a, t)
    && b.log.revision == (if a.connection.checkpoint.Some? then a.connection.checkpoint.value.revision else a.connection.change)
    && (t.connection.change == a.connection.change ==>
          if Unlinked(a) != {} then Unlinked(t) != Unlinked(a)
          else
            && SameLinks(a, t) && Later(from.link, b.at.link) && Later(from.imports, b.at.imports)
            && (b.more ==>
                  || (exists x :: x in Candidates(remote, KnownIn(a.links), from.imports) && !Beyond(x, b.at.imports))
                  || (exists x :: x in LiveBeyond(a.links, from.link) && !Beyond(x, b.at.link))))
  }

  lemma FewerTasksLeft(a: Tables, t: Tables)
    requires Unlinked(t) <= Unlinked(a) && Unlinked(t) != Unlinked(a)
    ensures |Unlinked(t)| < |Unlinked(a)|
  {
    var x := Missing(Unlinked(t), Unlinked(a));
    StrictlyFewer(Unlinked(t), Unlinked(a), x);
  }

  lemma FewerImportsLeft(remote: Remotes, a: Tables, t: Tables, from: Option<RemoteId>, at: Option<RemoteId>)
    requires SameLinks(a, t) && Later(from, at)
    ensures var before, after := Candidates(remote, KnownIn(a.links), from), Candidates(remote, KnownIn(t.links), at);
            && |after| <= |before|
            && ((exists x :: x in before && !Beyond(x, at)) ==> |after| < |before|)
  {
    var before, after := Candidates(remote, KnownIn(a.links), from), Candidates(remote, KnownIn(t.links), at);
    assert forall l :: l in References(t.links) <==> l in References(a.links);
    assert after <= before;
    FewerOf(after, before);
    if x :| x in before && !Beyond(x, at) {
      StrictlyFewer(after, before, x);
    }
  }

  lemma FewerLinksLeft(a: Tables, t: Tables, from: Option<LinkId>, at: Option<LinkId>)
    requires SameLinks(a, t) && Later(from, at)
    ensures var before, after := LiveBeyond(a.links, from), LiveBeyond(t.links, at);
            && |after| <= |before|
            && ((exists x :: x in before && !Beyond(x, at)) ==> |after| < |before|)
  {
    var before, after := LiveBeyond(a.links, from), LiveBeyond(t.links, at);
    assert after <= before;
    FewerOf(after, before);
    if x :| x in before && !Beyond(x, at) {
      StrictlyFewer(after, before, x);
    }
  }

  lemma FinishIsCloser(remote: Remotes, a: Tables, w: World)
    requires w.worker.Busy? && w.worker.act.Importing? && w.worker.act.imports == {}
    requires Advanced(remote, a, w.t, w.worker.act.batch)
    ensures StepFinish(w).worker.act == Finished(Incomplete) ==> Closer(remote, a, StepFinish(w).t)
  {
    var b, t := w.worker.act.batch, StepFinish(w).t;
    var from := CursorsOf(a.connection);
    DueFalls(remote, a, t);
    if t.connection.change == a.connection.change && b.more {
      assert Stale(t.connection) == Stale(a.connection);
      if Unlinked(a) != {} {
        FewerTasksLeft(a, w.t);
        assert Unlinked(t) == Unlinked(w.t);
      } else {
        assert Unlinked(t) == {};
        FewerImportsLeft(remote, a, w.t, from.imports, b.at.imports);
        FewerLinksLeft(a, w.t, from.link, b.at.link);
      }
    }
  }
}
