/** How the Google Tasks transport classifies the outcome of a create request
    (apps/api/src/google_tasks_client.rs). */
module TasksClient {
  import opened Prelude
  import opened SharedFields

  datatype TasksError =
    | Authorization | NotFound | Conflict | RateLimited | Unavailable
    | InvalidResponse | InvalidInput | Capacity | AmbiguousCreate

  type RemoteId = int
  type ETag = int

  /** A decoded task body. `fields` is None when its title, date or status is not usable. */
  datatype Body =
    | Undecodable
    | Oversized
    | TaskBody(id: Option<RemoteId>, etag: Option<ETag>, fields: Option<TaskFields>)

  /** Everything a POST can come back as. `Withheld` never left the process: the token was
      empty or the fields or reference were refused before sending. */
  datatype Outcome =
    | Withheld(emptyToken: bool)
    | NoResponse
    | Answer(status: int, body: Body)

  datatype Created = Created(id: RemoteId, etag: ETag, fields: Option<TaskFields>)

  predicate Success(status: int) {
    200 <= status < 300
  }

  predicate ClientError(status: int) {
    400 <= status < 500
  }

  function ClassifyStatus(status: int): TasksError {
    if status == 401 || status == 403 then Authorization
    else if status == 404 || status == 410 then NotFound
    else if status == 412 || status == 409 then Conflict
    else if status == 429 then RateLimited
    else if ClientError(status) then InvalidInput
    else AmbiguousCreate
  }

  function CreateResult(o: Outcome): Result<Created, TasksError> {
    match o
    case Withheld(emptyToken) => Err(if emptyToken then Authorization else InvalidInput)
    case NoResponse => Err(AmbiguousCreate)
    case Answer(status, body) =>
      if !Success(status) then Err(ClassifyStatus(status))
      else match body
        case TaskBody(Some(id), Some(etag), fields) => Ok(Created(id, etag, fields))
        case _ => Err(AmbiguousCreate)
  }

  /** The errors after which the create intent is put back to 'prepared'. */
  predicate Retryable(e: TasksError) {
    e.Authorization? || e.NotFound? || e.InvalidInput? || e.RateLimited? || e.Conflict?
  }

  /** A request that was never sent, or that the provider answered with a 4xx. */
  predicate Rejected(o: Outcome) {
    o.Withheld? || (o.Answer? && ClientError(o.status))
  }

  /** The intent is reopened exactly for the outcomes that prove nothing was created. */
  lemma RetryExactlyWhenRejected(o: Outcome)
    ensures (CreateResult(o).Err? && Retryable(CreateResult(o).error)) <==> Rejected(o)
  {
  }
}
