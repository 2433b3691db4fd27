# prosepect: synchronization, undo and the task graph

A Dafny model of the parts of the prosepect API server in which several transactions, a background
worker, a provider and a user act on the same rows, and proofs of what that code is meant to keep.
`dafny verify dfyconfig.toml` checks all of it.

The rows of the database are maps, one SQL transaction is one atomic step, and everything that can
come in between is a step of its own: the owner's edits, edits made at Google, a lost or garbled
response, a crash between two statements, the clock. Main results are about every run of such a
machine.

| part | modules under `src/` |
|---|---|
| Google Tasks two-way synchronization | `SharedFields`, `TasksClient`, `TasksProtocol`, `TasksSafety`, `TasksTheorems`, `TasksEcho`, `TasksIdentity`, `TasksPass`, `TasksCrash`, `TasksCreate`, `TasksImport`, `TasksInstances`, `LocalUpdate` |
| its batched, resumable scan | `TasksScan`, `ScanSafety`, `ScanInstances`, `ScanProgress`, `ScanWorker` |
| deadlines at Google Tasks | `Deadline` |
| tables, task graph, recurrence | `Rows`, `SubtaskForest`, `RecurrenceLineage`, `CivilTime`, `Recurrence`, `Transactions`, `Effects`, `TaskEdits`, `TaskStore`, `EventStore`, `TaskGraph` |
| reversible deletion | `DeleteUndo`, `DeleteRoundTrip`, `ImmediateUndo`, `ReceiptRuns`, `UndoInstances`, `DeleteStore` |
| the task/event mirror and calendar moves | `ScheduleMirror`, `Moves`, `Versions`, `MoveTheorems`, `MoveInstances` |
| all of these transactions as one machine | `Workspace`, `GraphSteps`, `MirrorSteps`, `WorkspaceTheorems` |
| held deletions against the calendar worker | `HoldProtocol`, `HoldMappings`, `HoldSafety`, `HoldOwner`, `HoldWorker`, `HoldTheorems`, `HoldQuiet`, `HoldPush` |
| what is written to Google Calendar | `Strings`, `EventShape` |
| the sign-in limiter | `RateLimit` |

## What is taken as given

- A transaction commits as a whole or not at all; lock contention and I/O errors only make it not
  happen. The owner's synchronization lock and the task graph lock exclude as they say.
- Foreign keys cascade and triggers advance revisions as
  `migrations/0004_recurrence_lineage.sql`, `migrations/0008_calendars_and_events.sql`,
  `migrations/0012_google_sync.sql`, `migrations/0020_calendar_move_undo.sql`, `migrations/0021_task_delete_undo.sql` and
  `migrations/0022_google_tasks.sql` declare. The unique indexes and checks those tables carry are
  preconditions where a transaction alone is described (`OneEvent`, `OneMapping`, `Sound`), and
  are themselves proved of every reachable state where the code and not an index is responsible.
- Identifiers are fresh and increasing, as UUIDv7 values are, and are modelled as integers. A fingerprint
  is the write shape itself: SHA-256 is taken to be injective.
- A 4xx answer to a POST means that Google created nothing. `If-Match` is honoured (section 13.1.1 of RFC 9110). Otherwise Google may do anything:
  create and not answer, answer something else, edit, delete, drop a create marker.
- Google gives back the fields it was sent, a title without the white space around it.
- Titles and descriptions of requests are taken as they are after trimming, fields of a listed task as
  `GoogleTask::fields` reads them, with the title already trimmed.
- The clock does not run backwards. The limiter's requests reach it in the order of their times, which
  is an assumption of its own, because a request reads the clock before it takes the lock.
- Moments are whole seconds. The tables keep fractions, and a written recurrence rule drops that of its
  end.

## What turned out not to hold

Each of these has a reachable or concrete instance, and a lemma that says exactly when the code is
right.

- Two copies that can be merged need not be settled, because the store refuses some merges whenever they
  are tried: no deadline for a recurring task, an hour that the zone skips, reopening a task whose next
  occurrence was changed, completing one that has no next occurrence. `AcceptedExactly` says which it
  accepts, and `CrashAbsorbed` that exactly these are settled. `RefusedForEver`: any other one is sent to
  Google, and after any number of passes task and baseline are as they were.
  `ClearedDateIsRefused` reaches a link of a recurring task whose date was cleared at Google.
- Nor is a merge with white space around its title, which a pulled calendar event can bring: Google's
  reply has the title without it and is not believed (`CrashAbsorbed`; `PaddedTitleIsNotTaken` is
  reachable).
- A resolution "keep Google" can be lost to a crash. `ChoiceAbsorbed`: a pass over a resolved conflict
  that is cut off anywhere and run again ends with the chosen value everywhere, if and only if Google and
  the store take it, and the crash did not fall between the PATCH and the local update, or the choice was
  the local copy, or Google had the chosen value already, so that there was no PATCH. In the remaining
  case the PATCH has replaced the version that the owner answered about, and the owner is asked again.
  `FatalChoiceIsReachable` reaches such a choice; `ChoiceLostToCrash` has its fields.
- A reversible deletion of a task that hangs under its own recurrence successor can never be undone:
  the deletion clears the successor's source, and the undo wants that very row unchanged.
  `UndoAtOnce`: within sixty seconds and with nothing else done, the undo succeeds if and only if the task
  does not hang under its successor. `WorthlessForEver`: if it does, the undo fails after any run.
  `UnderOwnSuccessorIsDeletable` reaches such a workspace by creating a daily task, completing it, making
  its successor a single task and hanging the first one under it.
- An edit of an event that comes while its earlier change is being pushed is forgotten: the answer to the
  PUT clears the dirty mark whatever happened since the list was read. `EditDuringPushIsForgotten`: the
  mapping is clean, nothing more is sent for the event in any run until the next local action, and its
  fingerprint fits the stored event if and only if the edit changed nothing that is written to Google.
- A scan can be stranded: a job is claimed at most eight times, and a continuation that fails eight times
  leaves a checkpoint and no job (`StrandedIsReachable`) until the next one is asked for, by the owner or
  by the timer of five minutes. `CheckpointHasJob` says which jobs a checkpoint can have.
- A recurrence end whose year does not have four digits is lost in Google's echo (RRULE,
  section 3.3.10 of RFC 5545). `WriteShapeFixpoint`: the write shape is a fixpoint if and only if
  the end is representable; `FiveDigitYearIsLost` is an instance. After one echo every event is stable
  (`EchoSettles`).
- A deadline moved into an hour that the time zone skips is refused whatever the database picks
  (`SkippedHourIsRefused`); `RefusedExactly` says when.
- "No write touched the rows since the move" holds for everything a version covers. Sorting tasks
  and the loss of a source do not advance a task's version, so they make no difference to an undo
  (`UndoIgnoresSorting`, `UndoIgnoresLostSource`); `SortedMoveIsReachable` is a move undone after its task
  was sorted. `UndoneMoveWasUntouched`: nothing else can have happened.

## Model

| member | source | states |
|---|---|---|
| SharedFields.ReconcileExact | apps/api/src/google_tasks.rs:27-38 | The three-way merge yields m exactly when, field by field, m keeps both sides' edits; a conflict is reported exactly when no value could. |
| SharedFields.ReconcileSymmetric | apps/api/src/google_tasks.rs:78-86 | Swapping the two sides changes neither the merge nor the field reported. |
| SharedFields.ReconcileLosesNoEdit | apps/api/src/google_tasks.rs:27-38 | A merge replaces, on either side, only values that still are the baseline's. |
| SharedFields.ResolveRespectsMerge | apps/api/src/google_tasks.rs:59-76 | A resolution agrees with the merge where there is one, and the preferred side keeps all its edits. |
| SharedFields.MergeAbsorbsCrash | apps/api/src/google_tasks.rs:78-86 | Merging again after any prefix of PATCH, local update and recording gives the same value. |
| SharedFields.ChoiceAbsorbsCrashExactly | apps/api/src/google_tasks.rs:59-76 | Merging the task's fields with the chosen value gives the chosen value if and only if the choice was local or nothing diverged. |
| SharedFields.ChoiceLostToCrash | apps/api/src/google_tasks.rs:59-76 | Fields for which a Keep Google choice is not recomputed but reported as a new conflict. |
| TasksClient.RetryExactlyWhenRejected | apps/api/src/google_tasks_client.rs:175-211 | The create intent is reopened exactly for those outcomes of the POST that prove that nothing was created. |
| TasksTheorems.InvKept | apps/api/src/google_tasks_sync.rs:204-460 | Every statement of the worker, every owner's action, every action of Google and every crash keeps the protocol's invariant. |
| TasksTheorems.AtMostOneRemoteTask | apps/api/src/google_tasks_sync.rs:234-300 | In every run, two remote tasks created by the synchronization were created for different local tasks. |
| TasksTheorems.NoCreateAfterIntent | apps/api/src/google_tasks_sync.rs:234-267 | A creating link left by a crash, a linked one and a detached one never send a POST again in any later run, and no remote task is created for them. |
| TasksTheorems.NoLostEdit | apps/api/src/google_tasks_sync.rs:326-434 | In every reachable state a worker's step changes a shared field, on either side, only if that side holds the baseline's value, or if the owner resolved exactly this version, ETag and these fields, and then to what that resolution asks for. |
| TasksTheorems.AnswerIsOwners | apps/api/src/google_tasks_store.rs:155-193 | Over every step, a link gets an answer only from the owner, to the dispute that it then has, while the task is at the version in dispute, and exactly the one that the owner gave. |
| TasksCrash.AnswerIsCarriedOut | apps/api/src/google_tasks_sync.rs:330-434 | Once the owner answers what a link asks, the next pass makes task, remote task and baseline equal to what that answer resolves to, if and only if Google takes it and the store accepts it. |
| TasksCreate.CreateSendsTask | apps/api/src/google_tasks_sync.rs:259-325 | A create that succeeds makes exactly one remote task, with exactly the task's fields and the link's marker, and leaves task, remote task and baseline equal; nothing else changes. |
| TasksCreate.RecoveryLinks | apps/api/src/google_tasks_sync.rs:234-258 | A create that was cut off is linked to the one task with its marker, whatever was made of that task since, with what was sent as the baseline, and neither copy is written. |
| TasksCreate.CreateAbsorbsCrash | apps/api/src/google_tasks_sync.rs:234-325 | A create cut off between the POST and the recording, and one recovery pass, leave the same rows as no crash. |
| TasksImport.ImportStores | apps/api/src/google_tasks_sync.rs:502-532 | An import stores one new task with exactly the listed fields and one new link that ties it to the remote task with the same fields as baseline, changes nothing else, and happens for an importable task only. |
| TasksImport.ImportIsQuiet | apps/api/src/google_tasks_sync.rs:382-434 | After an import, if Google still has what was listed, both copies stay exactly as they are, version and ETag included, in every run in which neither the owner nor Google's users touch one of the two. |
| TasksImport.ImportedPassWritesNothing | apps/api/src/google_tasks_sync.rs:330-434 | A pass over an imported link after any such run writes to neither side and leaves task, remote task and baseline at the listed fields. |
| TasksImport.AgreementIsQuiet | apps/api/src/google_tasks_sync.rs:382-434 | The same from any state in which the copies of a link agree with each other and its baseline. |
| TasksTheorems.UndoExcludesDetach | apps/api/src/google_tasks_sync.rs:218-233 | No deletion is both undone and, because of it, followed by the detaching of the task's link, in either order. |
| TasksTheorems.IdentitiesUnique | apps/api/src/google_tasks_sync.rs:502-532 | In every run each remote identity and each task belongs to at most one link, detached and creating links included. |
| TasksIdentity.RecordNeverMeetsIndex | apps/api/src/google_tasks_sync.rs:437-452 | In every run in which nobody removes a create marker before linking or copies one, the identity about to be recorded belongs to no other link, so the unique index never stands in the way. |
| TasksEcho.NoEchoImport | apps/api/src/google_tasks_sync.rs:107-182 | If create markers survive until linking, no run imports a remote task that it created itself. |
| TasksCrash.CrashAbsorbed | apps/api/src/google_tasks_sync.rs:382-434 | A pass over a mergeable link, cut off after any number of statements and run again, ends with task, remote task and baseline all equal to the first merge, if and only if Google takes the merge as it is and the store accepts it; otherwise task, baseline and link are as they were. |
| TasksCrash.RefusedForEver | apps/api/src/google_tasks_sync.rs:394-434 | A merge that the store refuses is never settled: after any number of passes, each cut off anywhere or not, the link is still linked, task and baseline are unchanged, and Google has the merge from the first PATCH on. |
| LocalUpdate.AcceptedExactly | apps/api/src/google_tasks_sync.rs:391-430 | Converting the deadline and making the versioned edit succeeds for a merged value exactly when the columns are sound, a recurring task keeps a deadline, the zone does not skip the hour, the next occurrence does not stand in the way of reopening, and a completed recurring task has a next occurrence. |
| LocalUpdate.MergedIsStored | apps/api/src/google_tasks_sync.rs:391-430 | An accepted merge is stored: the task then shows exactly the merged title, day and completion at its next version, keeps its instant if the day is unchanged, and keeps all other content, its place and its position. |
| LocalUpdate.ImportShowsListed | apps/api/src/google_tasks_sync.rs:511-524 | A row with the listed title, the converted day and the listed status shows exactly the listed fields. |
| TasksInstances.ClearedDateIsRefused | apps/api/src/store.rs:1704-1727 | A reachable link of a recurring task whose date was cleared at Google, which is refused for ever. |
| TasksInstances.PaddedTitleIsNotTaken | apps/api/src/google_tasks_client.rs:68-100 | A reachable mergeable link whose title has white space around it, which Google does not take as it is. |
| TasksInstances.FatalChoiceIsReachable | apps/api/src/google_tasks_sync.rs:330-434 | A reachable resolved conflict that both sides would take and that a crash after the PATCH loses. |
| TasksCrash.ChoiceAbsorbed | apps/api/src/google_tasks_sync.rs:330-434 | A pass over a conflict that the owner resolved, cut off after any number of statements and run again, ends with task, remote task and baseline equal to the choice, if and only if Google takes it as it is, the store accepts it, and it was not cut between a PATCH that wrote and the local update with Keep Google chosen; after such a cut the owner is asked again about exactly the present copies. |
| ScanSafety.InvKept | apps/api/src/google_tasks_sync.rs:72-202 | Every statement of a batch, every owner's change, every crash and every job transition keeps the scan's invariant. |
| ScanSafety.EndedScanSawEverything | apps/api/src/google_tasks_sync.rs:72-202 | A scan that ends has the change revision it began with, every task has a link, and every live link, those of the start included, was visited. |
| ScanSafety.CompleteScanHadNoError | apps/api/src/google_tasks_sync.rs:462-487 | A scan that ends reports complete if and only if no visit and no import of any of its batches failed; otherwise it reports the failure. |
| ScanSafety.CheckpointIsContinued | apps/api/src/google_tasks_sync.rs:462-487 | A batch that commits a checkpoint leaves a queued continuation. |
| ScanSafety.CheckpointHasJob | apps/api/src/sync_store.rs:335-365 | In every reachable state with a checkpoint there is a job that can be claimed, one whose batch a worker is at, one that was claimed and waits for the lock or crashed, or one that failed at its eighth attempt. |
| ScanSafety.EightFailuresStrand | apps/api/src/sync_store.rs:335-400 | If the continuation is the only job left and fails eight times, the checkpoint stays and no job can be claimed or is running. |
| ScanInstances.StrandedIsReachable | apps/api/src/sync_store.rs:335-400 | Such a state is reachable, and the next job that is asked for can be claimed. |
| ScanProgress.FinishIsCloser | apps/api/src/google_tasks_sync.rs:462-487 | An undisturbed batch that is not the last one decreases the lexicographic measure on due writes, staleness, unprepared tasks, imports and links. |
| ScanWorker.FirstTen | apps/api/src/google_tasks_sync.rs:93-106 | The ten smallest keys, or all of them. |
| ScanWorker.TasksWorker.SyncBatch | apps/api/src/google_tasks_sync.rs:72-202 | The three loops of a batch are a run of the machine; they end the scan, or bring it closer and leave a continuation. |
| ScanProgress.OwnTasksAreKnown | apps/api/src/google_tasks_sync.rs:107-182 | Listed tasks that the synchronization created itself add nothing to import. |
| ScanWorker.TasksWorker.SyncToTheEnd | apps/api/src/google_tasks_sync.rs:462-487 | Without other writers the continuations come to an end, with the checkpoint cleared and a final report, although every batch reads its own list, with the tasks that the synchronization created by then. |
| Deadline.ConvertedDeadline | apps/api/src/google_tasks_store.rs:195-222 | For any offset function, the converted deadline is on the requested day and keeps the wall-clock time, or has the day's last second when there was none. |
| Deadline.SameDayIsIdentity | apps/api/src/google_tasks_store.rs:195-222 | An unchanged day gives the identical instant, in a repeated hour too. |
| Deadline.RefusedExactly | apps/api/src/google_tasks_store.rs:195-222 | Refused exactly when neither candidate instant reads as the requested time; exactly when there is none, if the database finds one that exists. |
| Deadline.WrittenDayProjectsBack | apps/api/src/google_tasks_sync.rs:394-400 | The day written locally is the day the next comparison projects. |
| Deadline.SkippedHourIsRefused | apps/api/src/google_tasks_store.rs:195-222 | A zone and a deadline that every choice of the database refuses. |
| SubtaskForest.CreatesCycle | apps/api/src/store.rs:1534-1602 | The recursive parent query is true exactly when the task is reachable upwards from the new parent, in any table. |
| SubtaskForest.NewParentExactly | apps/api/src/store.rs:1534-1602 | In an acyclic table a new parent closes a cycle exactly when it reaches the task. |
| SubtaskForest.ReplaceKeepsForest | apps/api/src/store.rs:1534-1602 | An edit that passes the checks keeps the forest, for the children of the edited task too. |
| TaskStore.CheckUpdate | apps/api/src/store.rs:1534-1602 | The check of an edit passes exactly when a task with subtasks stays in its project and does not recur, and the new parent does not reach the task. |
| TaskStore.CreateTaskMeans | apps/api/src/store.rs:956-1053 | A task is created exactly when its fields and relations are valid and it is not both recurring and completed; it is new, at version one, completed only if asked; a scheduled one has one new event with its schedule and title; no other task or event changes, and the workspace's invariant is kept. |
| TaskStore.CreateTaskRow | apps/api/src/store.rs:956-1053 | Creating a task succeeds exactly then, returns the id of a task so created, and keeps the invariant; an error changes nothing. |
| TaskStore.CreateNextOccurrence | apps/api/src/store.rs:1438-1504 | Creating the next occurrence is the specified transaction, the unique index on the source included. |
| TaskEdits.UpdateTaskMeans | apps/api/src/store.rs:1122-1288 | An edit is accepted exactly when fields, relations, version and scope fit, a task to be reopened has only untouched occurrences after it, and a completed recurring task has a next date. Then the row has the requested content, project, parent and status at the next version, its old source and position, and the time at which it was first completed; its one event says what it says and is to be written at Google, or is gone and to be deleted there; the only other task that appears or disappears is the occurrence that completing adds, due on the cadence and made from what the scope says, or the one that reopening removes. |
| TaskEdits.SyncMeans | apps/api/src/calendar_store.rs:483-542 | Synchronizing a task's event leaves exactly one event, which says what the task says, keeps what only the event has, and is marked for Google, or none, and changes no other event or mapping. |
| TaskStore.UpdateTaskScoped | apps/api/src/store.rs:1122-1288 | Editing, completing and reopening a task succeeds exactly then, with that effect, and keeps the workspace's invariant; an error changes nothing. |
| TaskStore.DeleteTaskMeans | apps/api/src/store.rs:1340-1395 | A task is deleted exactly when it has the expected version and no subtasks; its events, their notes, its own and its focus rows go with it, Google is told about events in its calendars, its successor stays and forgets it, files stay, and no other task, event, mapping, note or focus row changes. |
| TaskStore.DeleteTaskRow | apps/api/src/store.rs:1340-1395 | Deleting a task succeeds exactly then, with that effect, and keeps the invariant; an error changes nothing. |
| EventStore.UpdateEventMeans | apps/api/src/calendar_store.rs:242-360 | An edit is accepted exactly for a valid span, writable calendars and the expected version; the event has the new values at the next version, a linked task has the same schedule at its next version and nothing else changed, only the event's own mapping is touched: dirty, or, when it leaves a Google calendar, to be deleted there; the invariant is kept. |
| EventStore.UpdateCalendarEvent | apps/api/src/calendar_store.rs:242-360 | Editing an event succeeds exactly then, with that effect; an error changes nothing. |
| EventStore.DeleteEventMeans | apps/api/src/calendar_store.rs:362-429 | A deletion is accepted exactly for a writable calendar and the expected version; the event is gone, its task has no schedule at its next version, its mapping is to be deleted at Google, no other task, event or mapping changes, and the invariant is kept. |
| EventStore.DeleteCalendarEvent | apps/api/src/calendar_store.rs:362-429 | Deleting an event succeeds exactly then, with that effect; an error changes nothing. |
| EventStore.PullUpdateMeans | apps/api/src/sync_service.rs:1377-1405 | A pulled change of a stored event is taken exactly for a valid span; the event has exactly the pulled values at its next version, its task the same title, description and schedule at its next version and nothing else changed, and no mapping is marked. |
| EventStore.PullDeleteMeans | apps/api/src/sync_service.rs:1407-1431 | A pulled deletion removes the event and its task's schedule, its mapping names nothing and is not marked, and nothing else changes. |
| Recurrence.NextDue | apps/api/src/store.rs:1776-1788 | The next deadline exists only for a recurring task and is strictly later. |
| Recurrence.NextDueOnCadence | apps/api/src/store.rs:1776-1788 | It is one day, one week, one calendar month or one year on, on the last day of a month that is too short. |
| CivilTime.NextMonthIsLater | apps/api/src/store.rs:1776-1788 | Adding a month gives an existing, later date in the following month, clamped to its end. |
| CivilTime.NextYearIsLater | apps/api/src/store.rs:1776-1788 | Adding twelve months gives an existing, later date in the same month of the next year, clamped. |
| CivilTime.AddDaysIsExact | apps/api/src/store.rs:1776-1788 | Carrying day by day adds exactly that many days on the time line. |
| Recurrence.RecurringTaskState.Prepare | apps/api/src/task_recurrence.rs:59-107 | Preparing an edit succeeds exactly when version and scope fit; an edit of one occurrence then leaves what the task handed on before, any other what is requested; an error changes nothing. |
| Recurrence.FirstExceptionSaves | apps/api/src/task_recurrence.rs:59-123 | After any sequence of edits that begins with a first exception and keeps the cadence, the successor is made from the original content and project. |
| Recurrence.ExceptionsSpareNext | apps/api/src/task_recurrence.rs:84-123 | The occurrence after such edits has the text and project of before the first exception and is due on the cadence from the deadline of before. |
| Recurrence.FutureEditForgets | apps/api/src/task_recurrence.rs:93-97 | After an edit of all future occurrences the successor is made from the edited row itself. |
| Recurrence.RecurringTaskState.TakeSuccessorSource | apps/api/src/task_recurrence.rs:109-123 | The successor is made from the template where there is one. |
| Recurrence.TemplateOutlivesEdits | apps/api/src/task_recurrence.rs:59-123 | Once an exception exists, any sequence of this-occurrence edits and cadence-keeping edits leaves what the successor is made from unchanged. |
| Recurrence.EditKeepsTemplateSound | apps/api/src/task_recurrence.rs:59-107 | Through every edit a saved template belongs to a recurring task, has its cadence and has a deadline. |
| Recurrence.NextOccurrenceKeepsDistances | apps/api/src/store.rs:1438-1504 | The successor is due strictly later, on the cadence, with schedule and reminder at the same distance from the deadline. |
| Recurrence.NextOccurrenceIsFresh | apps/api/src/store.rs:1438-1504 | The successor is unfinished, recurs, has no parent and names its source. |
| RecurrenceLineage.UndoKeepsLineage | apps/api/src/task_delete_store.rs:422-492 | Undoing a deletion whose guards hold keeps lineage injective and acyclic, with no successor of an unfinished task. |
| GraphSteps.GraphKept | apps/api/src/store.rs:1122-1288 | Every transaction keeps forest and lineage, together with what open receipts rely on. |
| WorkspaceTheorems.InvKept | apps/api/src/task_delete_store.rs:141-518 | Every transaction, the new deadlines of a daily review included, keeps graph, mirror and receipts. |
| WorkspaceTheorems.ForestOfReachable | apps/api/src/store.rs:1604-1657 | In every run subtasks form an acyclic forest with parent and child in one project, and no recurring task has a parent or child. |
| WorkspaceTheorems.LineageOfReachable | migrations/0004_recurrence_lineage.sql:2-6 | In every run lineage is injective and acyclic, and an unfinished task has no successor. |
| WorkspaceTheorems.CompletionNeverViolatesIndex | apps/api/src/store.rs:1169-1258 | No edit of a reachable workspace, completion included, is stopped by the unique successor index. |
| WorkspaceTheorems.UndoNeverViolatesIndex | apps/api/src/task_delete_store.rs:422-449 | An undo whose guards hold finds the task's id and the place after its source free. |
| WorkspaceTheorems.ReopenSparesParents | apps/api/src/store.rs:1407-1436 | Reopening deletes only the task's own successor, and only one without subtasks. |
| WorkspaceTheorems.MirrorOfReachable | apps/api/src/calendar_store.rs:483-542 | In every run, through task edits, event edits, moves and their undo, pulls, successors and deletions and their undo, at most one event is linked to a task and it has the task's schedule. |
| ScheduleMirror.UpsertMirrors | apps/api/src/calendar_store.rs:483-542 | Writing a task's event with the task's schedule restores the mirror for it and keeps it for all others. |
| ScheduleMirror.RetimeMirrors | apps/api/src/sync_service.rs:1377-1405 | Giving an event and its task one new schedule keeps the mirror. |
| ScheduleMirror.UnscheduleMirrors | apps/api/src/sync_service.rs:1407-1431 | Removing an event and its task's schedule keeps the mirror. |
| DeleteUndo.DeletedExactly | apps/api/src/task_delete_store.rs:141-372 | A reversible deletion is accepted exactly when version, subtasks, room for receipt and snapshot, and what the task names fit, and its event is local without a mapping or at Google with an account and a clean mapping; a validated snapshot is needed exactly for an outdated fingerprint and must be the one taken now. |
| DeleteUndo.UndoneExactly | apps/api/src/task_delete_store.rs:385-449 | An undo is accepted exactly when its receipt is active, the provider refuses nothing, the guards hold and no key is in the way; a refusal of the provider is passed on while the receipt is active. |
| DeleteStore.DeleteTaskWithUndo | apps/api/src/task_delete_store.rs:141-372 | The reversible deletion is the specified transaction and returns its receipt, or asks for the calendar to be confirmed, or fails, and then changes nothing. |
| DeleteStore.UndoTaskDelete | apps/api/src/task_delete_store.rs:385-518 | The undo is the specified transaction; if it fails nothing has changed. |
| DeleteStore.GuardRows | apps/api/src/task_delete_store.rs:610-623 | The guard passes exactly when every recorded row is still there and equal. |
| DeleteRoundTrip.DeleteThenUndo | apps/api/src/task_delete_store.rs:141-518 | Whatever happened in between, a successful undo gives back task, event, notes, file links, focus rows and successor link exactly, apart from versions one higher and the time of change. |
| DeleteRoundTrip.MappingRestored | apps/api/src/task_delete_store.rs:489-518 | The calendar mapping is back, clean, with the fingerprint of the event's write shape. |
| ImmediateUndo.UndoSeesNoChange | apps/api/src/task_delete_store.rs:406-470 | A successful undo proves that every guarded row and revision is as the deletion left it: projects, parent, source and successor, files, the revisions of focus lists and calendars, the event's calendar up to its synchronization columns, the Google account, and the held mapping in every column, without a conflict. |
| ImmediateUndo.UndoAtOnce | apps/api/src/task_delete_store.rs:385-518 | Within sixty seconds, nothing else done, the undo succeeds if and only if the task does not hang under its own successor. |
| ReceiptRuns.UndoneDeletionIsRoundTrip | apps/api/src/task_delete_store.rs:141-518 | Deletion in a reachable workspace, any run, and an undo that succeeds: every row is back as above, and nothing that the undo depends on was touched meanwhile. |
| ReceiptRuns.WorthlessForEver | apps/api/src/task_delete_store.rs:422-424 | The receipt of a task that hangs under its own successor cannot be undone after any run. |
| UndoInstances.DeletableComesBack | apps/api/src/task_delete_store.rs:141-372 | Whatever the checks of a deletion accept is deleted, and comes back within sixty seconds if and only if it does not hang under its own successor. |
| UndoInstances.UnderOwnSuccessorIsDeletable | apps/api/src/task_delete_store.rs:223-231 | A reachable workspace in which a task hangs under its own successor and the checks accept its deletion. |
| UndoInstances.AloneIsDeletable | apps/api/src/task_delete_store.rs:141-372 | A reachable workspace in which the checks accept the deletion of a task that then comes back. |
| HoldTheorems.HoldKept | apps/api/src/sync_service.rs:435-868 | Every transaction, every statement of the calendar worker and every resolution keeps the invariant of held deletions. |
| HoldTheorems.UndoExcludesCalendarDelete | apps/api/src/sync_service.rs:793-842 | No deletion is both undone and, because of it, followed by a calendar DELETE, in either order. |
| HoldPush.ListedIsSent | apps/api/src/sync_service.rs:793-850 | A mapping that is to be pushed when its calendar is listed has one request in every run until then: a DELETE if it was marked as deleted or named no stored event, and otherwise a PUT of what the event then said; nothing else is sent to that event. |
| HoldPush.SentIsRecorded | apps/api/src/sync_service.rs:834-858 | When the answer is recorded, after whatever else happened, the mapping is gone after a DELETE; after a PUT it is still there and clean, with the new ETag and the fingerprint of what was sent, and no other column or mapping changed. |
| HoldPush.EditDuringPushIsForgotten | apps/api/src/sync_service.rs:793-858 | An edit between listing and recording leaves the mapping clean, is not sent in any run until another local action, and the mapping fits its event exactly if the edit changed nothing that is written. |
| HoldTheorems.ChoiceMeans | apps/api/src/sync_store.rs:451-547 | A choice is taken exactly for an unresolved conflict, and for a held deletion only Keep Google while the worker is idle; any other choice keeps the owner's side to be pushed as it is, Keep Google leaves nothing to push. |
| HoldTheorems.HeldOnlySettles | apps/api/src/sync_service.rs:534-583 | From a held deletion a pull keeps the hold, at most raising a conflict, or removes it with its receipts; a push removes it only after the hold has ended; only Keep Google resolves its conflict. |
| HoldQuiet.KeepGoogleIsFinal | apps/api/src/sync_store.rs:462-531 | After Keep Google no PUT and no DELETE of any content is sent for that event, over every run without a local action on it. |
| HoldQuiet.OneTargetOfReachable | apps/api/src/sync_service.rs:534-725 | In every run an event at Google has at most one mapping. |
| Moves.MoveMeans | apps/api/src/calendar_move_store.rs:44-143 | A move is accepted exactly when the event that was asked for, or the one event of the task, has the expected version and can be moved and there are fewer than a hundred active receipts; then event and task have the new times, every mapping of the event in a Google calendar says that it has changed, all others are as before, and the receipt is new. |
| Moves.UndoMeans | apps/api/src/calendar_move_store.rs:145-213 | An undo of a move is accepted exactly when its receipt is active and event, task and mappings are as recorded; then both have the recorded times, and every mapping of the event in a Google calendar says that it has changed. |
| Moves.MoveCalendarItem | apps/api/src/calendar_move_store.rs:44-143 | Moving succeeds exactly then, with that effect, and returns its receipt; an error changes nothing. |
| Moves.UndoCalendarMove | apps/api/src/calendar_move_store.rs:145-213 | Undoing a move succeeds exactly then, with that effect; an error changes nothing. |
| Moves.UndoRestoresSchedule | apps/api/src/calendar_move_store.rs:327-343 | Whatever happened in between, a successful undo gives event and task exactly the schedule of before the move, changes no other column but the stamp and no other row, and uses up the receipt. |
| Moves.MoveUndoneAtOnce | apps/api/src/calendar_move_store.rs:145-213 | Within sixty seconds, nothing else done, every move can be undone. |
| MoveTheorems.UndoneMoveWasUntouched | apps/api/src/calendar_move_store.rs:145-213 | If the undo of a move succeeds after any run, event and task are as the move left them, apart from the task's position and a source it may have lost. |
| MoveTheorems.UndoneMoveIsRoundTrip | apps/api/src/calendar_move_store.rs:145-213 | Move, any run, and an undo that succeeds: the event is in every column but its stamp what it was before the move, and so is the task, apart from position and source. |
| MoveTheorems.UndoIgnoresSorting | apps/api/src/store.rs:1290-1338 | A move can be undone after sorting if and only if it can be before. |
| MoveTheorems.UndoIgnoresLostSource | migrations/0004_recurrence_lineage.sql:2-6 | The same for the deletion of the moved task's source, which clears a column of the task. |
| MoveInstances.SortedMoveIsReachable | apps/api/src/store.rs:1290-1338 | A reachable move that is undone although its task was sorted meanwhile and differs from what the move left. |
| MoveTheorems.ConsumedOnce | apps/api/src/calendar_move_store.rs:145-213 | A used receipt is not found, after any run. |
| MoveTheorems.OtherReceiptsDie | apps/api/src/calendar_move_store.rs:145-213 | After an undo every other receipt for that item fails, after any run. |
| MoveTheorems.AtMostHundredActive | apps/api/src/calendar_move_store.rs:44-143 | An owner never holds more than a hundred active receipts. |
| EventShape.ParseOfRule | apps/api/src/sync_service.rs:1282-1312 | Reading a written rule gives cadence and end back, except an end whose year is not four digits, which is lost. |
| EventShape.EchoOf | apps/api/src/sync_service.rs:1240-1267 | Google's untouched copy of any event is always readable, and what it is read as. |
| EventShape.WriteShapeFixpoint | apps/api/src/sync_service.rs:1128-1155 | Projecting, reading the echo and projecting again gives the same write shape and fingerprint if and only if the recurrence end is representable. |
| EventShape.EchoSettles | apps/api/src/sync_service.rs:1240-1336 | After the first echo nothing changes any more, for every event. |
| EventShape.FiveDigitYearIsLost | apps/api/src/sync_service.rs:1282-1312 | An event that ends in the year 10000 and comes back without an end. |
| RateLimit.LoginRateLimiter.CheckKey | apps/api/src/rate_limit.rs:69-91 | Popping, counting, pushing and pruning compute the specified decision and queues. |
| RateLimit.CheckRefinesLog | apps/api/src/rate_limit.rs:69-91 | One request gets the decision the full log gives, and queues and log agree afterwards. |
| RateLimit.LimiterRefinesLog | apps/api/src/rate_limit.rs:69-91 | For monotone times every history is decided as a full log of accepted attempts decides it; neither pruning nor eviction changes a decision. |
| RateLimit.AtMostLimitPerWindow | apps/api/src/rate_limit.rs:69-91 | The full log holds at most the limit in any sixty seconds of any history. |
| RateLimit.RejectionMeansFull | apps/api/src/rate_limit.rs:69-91 | The full log rejects a request exactly when the sixty seconds up to it hold exactly the limit. |
| RateLimit.LimiterNeverExceeds | apps/api/src/rate_limit.rs:69-91 | The limiter itself accepts at most the limit of a key's requests in any sixty seconds of any history. |
| RateLimit.LimiterRejectsExactlyWhenFull | apps/api/src/rate_limit.rs:69-91 | It rejects the i-th request of any history exactly when the sixty seconds up to it hold exactly the limit of those it accepted. |

## Left out

- MoveTheorems.UndoneMoveWasUntouched: does not cover a task's position and the loss of its source, because writing them does not advance its version.
- TaskStore.UpdateTaskScoped: requires that no task is its own source, which `LineageOfReachable` proves of every reachable state.
- Moves.MoveCalendarItem: requires that a task has at most one event, which `MirrorOfReachable` proves.
- DeleteStore.DeleteTaskWithUndo: requires one event a task, which `MirrorOfReachable` proves, and one mapping an event, which is the unique index of `migrations/0012_google_sync.sql` line 22; the limits on a snapshot's rows are modelled, those on its bytes are not.
- ScanWorker.TasksWorker.SyncToTheEnd: supposes that nobody else writes and that no synchronized completion creates an occurrence, since both restart the scan.
- ScanSafety.CheckpointHasJob: does not say that a crashed or exhausted job is claimed again, because the code does not do it.
- Convergence of a calendar conflict resolved for the local side: the stale ETag is kept after the choice is cleared, so it is not claimed.
- TasksCreate.RecoveryLinks: its pass lists the task in question only, and says nothing of a create after which two tasks carry the marker, which the code leaves to the owner.
- Creating events at Google by POST: a crash between the POST and the mapping is not absorbed by the code.
- Todoist import, which does not check whether a parent recurs, and revocation of Google, which removes events of scheduled tasks: both would break what is proved of the other transactions.
- Row-lock contention, job leases and backoff: they only delay or abort a step.
- The bound of 20000 retained identities and the page limits of the Tasks client: a batch that meets them fails as a whole after preparing at most ten links, which is the step `Fail`.
- EventShape.ParseOfRule: does not cover the fraction of a second of a recurrence end, which the written rule drops.
- EventShape.EchoOf: does not cover it either; the write shape has none, so the fixpoint does not depend on it.
- Which tasks the daily review may put off: the step takes any, and writes any focus rows.
- HTTP transport, JSON, UUID generation, hashing, token refresh, OAuth, sessions: outside the model.
- Trimming and normalization of requests, checks of labels and priorities: easy per-field functions.
- Notes, search, saved views, projects beyond their deletion, settings, files beyond their links, watch channels, calendar discovery, exports: plain versioned rows that would add only easy members.
- Web client, deployment and configuration.
