/** What a transaction owes to the rows around the one it writes: a linked task follows its event,
    and Google is told through the event's mapping. */
module Effects {
  import opened Prelude
  import opened EventShape
  import opened Rows
  import opened Transactions

  /** A linked task gets this schedule and a higher version, and no other column of it changes; no
      other task does. */
  ghost predicate TaskFollows(db: Db, after: Db, task: Option<Id>, start: Option<int>, end: Option<int>) {
    match task
    case None => after.tasks == db.tasks
    case Some(t) =>
      && t in db.tasks && t in after.tasks && after.tasks == db.tasks[t := after.tasks[t]]
      && var was, row := db.tasks[t], after.tasks[t];
         && row.content.timing == Timing(was.content.timing.due, start, end, was.content.timing.remind)
         && row.content.text == was.content.text && row.content.cadence == was.content.cadence
         && row.place == was.place && row.template == was.template && row.progress == was.progress
         && row.stamp == Stamp(was.stamp.version + 1, db.clock.now)
  }

  /** No mapping appears or disappears, and only that of `e` is touched. */
  ghost predicate OtherMappingsLeft(db: Db, after: Db, e: Id) {
    && (forall m :: m in after.cal.mappings <==> m in db.cal.mappings)
    && (forall m :: m in db.cal.mappings && db.cal.mappings[m].canonical != Some(e) ==> after.cal.mappings[m] == db.cal.mappings[m])
  }

  /** The mapping still names its event, and says that Google is to be told of a change. */
  predicate SaysChanged(was: Mapping, row: Mapping) {
    row == was.(flags := was.flags.(dirty := true, deleted := false))
  }

  /** The mapping names no event, and says that Google is to be told of a deletion. */
  predicate SaysDeleted(was: Mapping, row: Mapping) {
    row == was.(canonical := None, flags := was.flags.(dirty := false, deleted := true))
  }

  /** Google is to be told that `e` has changed. */
  ghost predicate ToBeWritten(db: Db, after: Db, e: Id) {
    forall m :: m in db.cal.mappings && db.cal.mappings[m].canonical == Some(e) ==>
      m in after.cal.mappings && SaysChanged(db.cal.mappings[m], after.cal.mappings[m])
  }

  /** Google is to be told that `e` is gone. */
  ghost predicate ToBeDeleted(db: Db, after: Db, e: Id) {
    forall m :: m in db.cal.mappings && db.cal.mappings[m].canonical == Some(e) ==>
      m in after.cal.mappings && SaysDeleted(db.cal.mappings[m], after.cal.mappings[m])
  }

  /** A local event has nothing at Google; a mapping that names it nonetheless is not touched. */
  ghost predicate ToldOfChange(db: Db, after: Db, e: Id, calendar: Id) {
    if IsGoogle(db.cal, calendar) then ToBeWritten(db, after, e) else after.cal.mappings == db.cal.mappings
  }
}
