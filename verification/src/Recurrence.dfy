/** Recurring tasks: one-occurrence exceptions and the next occurrence
    (apps/api/src/task_recurrence.rs:59-159, apps/api/src/store.rs:1438-1504,1776-1788). */
module Recurrence {
  import opened Prelude
  import opened CivilTime
  import opened EventShape
  import opened Rows

  datatype EditScope = ThisOccurrence | ThisAndFuture

  datatype TaskRequest = TaskRequest(project: Option<Id>, parent: Option<Id>, content: Content, status: Status, expected: int)

  // ---- the date of the next occurrence ----

  function NextDue(due: Moment, cadence: Cadence): (next: Option<Moment>)
    ensures next.Some? ==> Instant(next.value) > Instant(due) && !cadence.Once?
  {
    match cadence
    case Once => None
    case Daily => AddDaysIsExact(due, 1); Later(AddDays(due, 1))
    case Weekly => AddDaysIsExact(due, 7); Later(AddDays(due, 7))
    case Monthly =>
      if AddMonths(due, 1).None? then None else NextMonthIsLater(due); Later(AddMonths(due, 1))
    case Yearly =>
      if AddMonths(due, 12).None? then None else NextYearIsLater(due); Later(AddMonths(due, 12))
  }

  function Later(t: Option<DateTime>): (next: Option<Moment>)
    requires t.Some? ==> Valid(t.value)
    ensures next == t
  {
    if t.None? then None else Some(t.value)
  }

  // ---- one-occurrence exceptions ----

  /** The template a task has after an edit. */
  function Prepared(task: Task, request: TaskRequest, scope: Option<EditScope>): Result<Template, AppError> {
    if task.stamp.version != request.expected then Err(Changed)
    else if scope.Some? && task.Done() then Err(Validation)
    else
      match scope
      case Some(ThisOccurrence) =>
        if !task.Recurring() || request.content.cadence != task.content.cadence then Err(Validation)
        else if task.template.saved.Some? then Ok(task.template)
        else if task.content.timing.due.None? then Err(Validation)
        else Ok(Template(Some(task.content), task.place.project))
      case Some(ThisAndFuture) => Ok(Template(None, None))
      case None =>
        if request.content.cadence != task.content.cadence || request.content.cadence.Once?
        then Ok(Template(None, None))
        else Ok(task.template)
  }

  /** The values the next occurrence is made from: the saved ones, or the task's own. */
  function SuccessorSource(task: Task): Task {
    if task.template.saved.Some?
    then task.(content := task.template.saved.value, place := task.place.(project := task.template.project))
    else task
  }

  // ---- what an edit means for the occurrences that follow ----

  /** The values and the project that a row hands on to the next occurrence. */
  function HandedOn(content: Content, project: Option<Id>, template: Template): (Content, Option<Id>) {
    if template.saved.Some? then (template.saved.value, template.project) else (content, project)
  }

  /** The edit is about one occurrence only: it says so, or it says nothing, keeps the cadence and
      finds an exception. */
  predicate Exceptional(task: Task, request: TaskRequest, scope: Option<EditScope>) {
    match scope
    case Some(ThisOccurrence) => true
    case Some(ThisAndFuture) => false
    case None => task.template.saved.Some? && request.content.cadence == task.content.cadence && !request.content.cadence.Once?
  }

  /** After an edit of one occurrence the task hands on exactly what it handed on before; after any
      other it hands on itself. */
  predicate HandsOn(task: Task, request: TaskRequest, scope: Option<EditScope>, template: Template) {
    && (template.saved.Some? <==> Exceptional(task, request, scope))
    && HandedOn(request.content, request.project, template) ==
         if Exceptional(task, request, scope) then HandedOn(task.content, task.place.project, task.template)
         else (request.content, request.project)
  }

  /** The version is the expected one; a completed task has no scope to choose; an edit of one
      occurrence keeps the cadence of a task that recurs and, for the first one, has a deadline. */
  predicate Preparable(task: Task, request: TaskRequest, scope: Option<EditScope>) {
    && task.stamp.version == request.expected
    && (scope.Some? ==> !task.Done())
    && (scope == Some(ThisOccurrence) ==>
          && task.Recurring() && request.content.cadence == task.content.cadence
          && (task.template.saved.Some? || task.content.timing.due.Some?))
  }

  lemma PreparedMeans(task: Task, request: TaskRequest, scope: Option<EditScope>)
    ensures Prepared(task, request, scope).Ok? <==> Preparable(task, request, scope)
    ensures Prepared(task, request, scope).Ok? ==> HandsOn(task, request, scope, Prepared(task, request, scope).value)
  {
  }

  class RecurringTaskState {
    var task: Task
    var recurrenceDefaults: Option<Content>
    var recurrenceProject: Option<Id>

    constructor Load(row: Task)
      ensures Current() == row && task == row
    {
      task := row;
      recurrenceDefaults := row.template.saved;
      recurrenceProject := row.template.project;
    }

    /** The task with the template as it now stands. */
    ghost function Current(): Task
      reads this
    {
      task.(template := Template(recurrenceDefaults, recurrenceProject))
    }

    method Prepare(request: TaskRequest, scope: Option<EditScope>) returns (r: Result<(), AppError>)
      modifies this`recurrenceDefaults, this`recurrenceProject
      ensures r.Ok? <==> Prepared(old(Current()), request, scope).Ok?
      ensures r.Ok? ==> Current().template == Prepared(old(Current()), request, scope).value
      ensures r.Err? ==> r.error == Prepared(old(Current()), request, scope).error && Current() == old(Current())
      ensures r.Ok? <==> Preparable(old(Current()), request, scope)
      ensures r.Ok? ==> HandsOn(old(Current()), request, scope, Current().template)
    {
      if task.stamp.version != request.expected {
        return Err(Changed);
      }
      if scope.Some? && task.Done() {
        return Err(Validation);
      }
      match scope {
        case Some(ThisOccurrence) =>
          if !task.Recurring() || request.content.cadence != task.content.cadence {
            return Err(Validation);
          }
          if recurrenceDefaults.None? {
            if task.content.timing.due.None? {
              return Err(Validation);
            }
            recurrenceDefaults := Some(task.content);
            recurrenceProject := task.place.project;
          }
        case Some(ThisAndFuture) =>
          recurrenceDefaults := None;
          recurrenceProject := None;
        case None =>
          if request.content.cadence != task.content.cadence || request.content.cadence.Once? {
            recurrenceDefaults := None;
            recurrenceProject := None;
          }
      }
      return Ok(());
    }

    method TakeSuccessorSource() returns (source: Task)
      modifies this`task
      ensures source.content == SuccessorSource(old(Current())).content
      ensures source.place == SuccessorSource(old(Current())).place
      ensures task == source
    {
      if recurrenceDefaults.Some? {
        task := task.(place := task.place.(project := recurrenceProject));
        task := task.(content := recurrenceDefaults.value);
      }
      source := task;
    }
  }

  // ---- the next occurrence ----

  function Shifted(t: Option<int>, shift: int): Option<int> {
    if t.None? then None else Some(t.value + shift)
  }

  function ShiftedTiming(timing: Timing, due: Moment, next: Moment): Timing {
    var shift := Instant(next) - Instant(due);
    Timing(Some(next), Shifted(timing.start, shift), Shifted(timing.end, shift), Shifted(timing.remind, shift))
  }

  /** The row inserted when the occurrence `id` is completed. */
  function NextOccurrence(id: Id, task: Task, position: int, now: int): Result<Task, AppError> {
    var source := SuccessorSource(task);
    if source.content.timing.due.None? then Err(Validation)
    else
      var due := source.content.timing.due.value;
      var next := NextDue(due, source.content.cadence);
      if next.None? then Err(Validation)
      else Ok(Task(
        Place(source.place.project, None, Some(id)),
        Content(source.content.text, ShiftedTiming(source.content.timing, due, next.value), source.content.cadence),
        Template(None, None),
        Progress(Todo, None, position),
        Stamp(1, now)))
  }

  /** The row an edit writes; the edit keeps the lineage and the position. */
  function UpdatedRow(task: Task, request: TaskRequest, template: Template, now: int): Task {
    var completed :=
      if !request.status.Completed? then None
      else if task.progress.completedAt.Some? then task.progress.completedAt else Some(now);
    Task(Place(request.project, request.parent, task.place.source), request.content, template,
         Progress(request.status, completed, task.progress.position), Bump(task.stamp, now))
  }

  // ---- sequences of edits ----

  datatype Edit = Edit(request: TaskRequest, scope: Option<EditScope>, at: int)

  /** A refused edit leaves the task as it was. */
  function Edited(task: Task, e: Edit): Task {
    match Prepared(task, e.request, e.scope)
    case Err(_) => task
    case Ok(template) => UpdatedRow(task, e.request, template, e.at)
  }

  function EditedAll(task: Task, edits: seq<Edit>): Task
    decreases |edits|
  {
    if edits == [] then task else EditedAll(Edited(task, edits[0]), edits[1..])
  }

  /** An edit of one occurrence, or one that names no scope and keeps the cadence. */
  predicate Keeps(e: Edit, cadence: Cadence) {
    e.scope == Some(ThisOccurrence) || (e.scope.None? && e.request.content.cadence == cadence)
  }

  /** Once an exception exists, such edits, in any number and in any order, leave what the next
      occurrence is made from unchanged, although every one of them may change every field of
      the task itself. */
  lemma {:induction false} TemplateOutlivesEdits(task: Task, edits: seq<Edit>)
    requires task.Recurring() && task.template.saved.Some?
    requires forall i :: 0 <= i < |edits| ==> Keeps(edits[i], task.content.cadence)
    ensures EditedAll(task, edits).template == task.template
    ensures EditedAll(task, edits).content.cadence == task.content.cadence
    ensures SuccessorSource(EditedAll(task, edits)).content == SuccessorSource(task).content
    ensures SuccessorSource(EditedAll(task, edits)).place.project == SuccessorSource(task).place.project
    decreases |edits|
  {
    if edits != [] {
      var after := Edited(task, edits[0]);
      assert after.template == task.template && after.content.cadence == task.content.cadence;
      TemplateOutlivesEdits(after, edits[1..]);
    }
  }

  lemma HandedOnIsSource(task: Task)
    ensures HandedOn(task.content, task.place.project, task.template) == (SuccessorSource(task).content, SuccessorSource(task).place.project)
  {
  }

  /** The first exception saves the task as it was: after it, and any number of edits that keep to one
      occurrence or to the cadence, the next occurrence is made from the values and the project that
      the task had before. */
  lemma FirstExceptionSaves(task: Task, edits: seq<Edit>)
    requires task.Recurring() && task.template.saved.None?
    requires edits != [] && edits[0].scope == Some(ThisOccurrence) && Preparable(task, edits[0].request, edits[0].scope)
    requires forall i :: 0 <= i < |edits| ==> Keeps(edits[i], task.content.cadence)
    ensures var source := SuccessorSource(EditedAll(task, edits));
            source.content == task.content && source.place.project == task.place.project
  {
    var first := Edited(task, edits[0]);
    PreparedMeans(task, edits[0].request, edits[0].scope);
    HandedOnIsSource(first);
    TemplateOutlivesEdits(first, edits[1..]);
  }

  /** Whatever exceptions there were, an edit of this and all future occurrences is what the next
      occurrence is made from. */
  lemma FutureEditForgets(task: Task, e: Edit)
    requires e.scope == Some(ThisAndFuture) && Preparable(task, e.request, e.scope)
    ensures var after := Edited(task, e);
            && SuccessorSource(after) == after
            && after.content == e.request.content && after.place.project == e.request.project
  {
  }

  /** The occurrence that follows a completion after such
      edits has the text and the project of before the first exception, and is due on the cadence from
      the deadline of before, with schedule and reminder at their old distances from it. */
  lemma ExceptionsSpareNext(task: Task, edits: seq<Edit>, id: Id, position: int, now: int)
    requires task.Recurring() && task.template.saved.None?
    requires edits != [] && edits[0].scope == Some(ThisOccurrence) && Preparable(task, edits[0].request, edits[0].scope)
    requires forall i :: 0 <= i < |edits| ==> Keeps(edits[i], task.content.cadence)
    requires NextOccurrence(id, EditedAll(task, edits), position, now).Ok?
    ensures var next := NextOccurrence(id, EditedAll(task, edits), position, now).value;
            && next.place.project == task.place.project && next.content.text == task.content.text
            && task.content.timing.due.Some? && next.content.timing.due.Some?
            && OnCadence(task.content.timing.due.value, next.content.timing.due.value, task.content.cadence)
            && SameDistances(task.content.timing, Instant(task.content.timing.due.value),
                             next.content.timing, Instant(next.content.timing.due.value))
  {
    FirstExceptionSaves(task, edits);
    NextOccurrenceKeepsDistances(id, EditedAll(task, edits), position, now);
    NextOccurrenceIsFresh(id, EditedAll(task, edits), position, now);
  }

  /** Saved values recur with the task and have a deadline, through every edit. */
  predicate TemplateSound(task: Task) {
    task.template.saved.Some? ==>
      && task.template.saved.value.cadence == task.content.cadence
      && task.Recurring()
      && task.template.saved.value.timing.due.Some?
  }

  lemma EditKeepsTemplateSound(task: Task, e: Edit)
    requires TemplateSound(task)
    ensures TemplateSound(Edited(task, e))
  {
  }

  /** Clamped to the last day of a shorter month; otherwise the same day of the month. */
  ghost predicate OnCadence(due: Moment, next: Moment, cadence: Cadence) {
    match cadence
    case Once => false
    case Daily => Instant(next) == Instant(due) + 86400
    case Weekly => Instant(next) == Instant(due) + 7 * 86400
    case Monthly =>
      Clamped(due, next) && (next.year, next.month) == if due.month < 12 then (due.year, due.month + 1) else (due.year + 1, 1)
    case Yearly => Clamped(due, next) && next.year == due.year + 1 && next.month == due.month
  }

  lemma NextDueOnCadence(due: Moment, cadence: Cadence)
    requires NextDue(due, cadence).Some?
    ensures OnCadence(due, NextDue(due, cadence).value, cadence)
  {
    match cadence
    case Once =>
    case Daily => AddDaysIsExact(due, 1);
    case Weekly => AddDaysIsExact(due, 7);
    case Monthly => NextMonthIsLater(due);
    case Yearly => NextYearIsLater(due);
  }

  /** How far a time is from a deadline. */
  function Distance(t: Option<int>, deadline: int): Option<int> {
    if t.None? then None else Some(t.value - deadline)
  }

  ghost predicate SameDistances(timing: Timing, deadline: int, later: Timing, next: int) {
    && Distance(later.start, next) == Distance(timing.start, deadline)
    && Distance(later.end, next) == Distance(timing.end, deadline)
    && Distance(later.remind, next) == Distance(timing.remind, deadline)
  }

  lemma ShiftKeepsDistances(timing: Timing, due: Moment, next: Moment)
    ensures SameDistances(timing, Instant(due), ShiftedTiming(timing, due, next), Instant(next))
  {
    var from, to := Instant(due), Instant(next);
    assert ShiftedTiming(timing, due, next).start == Shifted(timing.start, to - from);
  }

  /** The next occurrence is due strictly later, on the cadence, with schedule and reminder at
      the same distance from the deadline. */
  lemma NextOccurrenceKeepsDistances(id: Id, task: Task, position: int, now: int)
    requires NextOccurrence(id, task, position, now).Ok?
    ensures var next := NextOccurrence(id, task, position, now).value.content;
            var from := SuccessorSource(task).content;
            && from.timing.due.Some? && next.timing.due.Some?
            && next.text == from.text && next.cadence == from.cadence
            && OnCadence(from.timing.due.value, next.timing.due.value, from.cadence)
            && Instant(next.timing.due.value) > Instant(from.timing.due.value)
            && SameDistances(from.timing, Instant(from.timing.due.value), next.timing, Instant(next.timing.due.value))
  {
    var from := SuccessorSource(task).content;
    var due := from.timing.due.value;
    var next := NextDue(due, from.cadence).value;
    NextDueOnCadence(due, from.cadence);
    ShiftKeepsDistances(from.timing, due, next);
    assert NextOccurrence(id, task, position, now).value.content == Content(from.text, ShiftedTiming(from.timing, due, next), from.cadence);
  }

  /** It is unfinished, recurs, has no parent and names its source. */
  lemma NextOccurrenceIsFresh(id: Id, task: Task, position: int, now: int)
    requires NextOccurrence(id, task, position, now).Ok?
    ensures var next := NextOccurrence(id, task, position, now).value;
            && next.Recurring() && !next.Done() && next.stamp.version == 1
            && next.place == Place(SuccessorSource(task).place.project, None, Some(id))
  {
  }
}
