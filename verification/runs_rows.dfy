/** Run rows, and what one transaction may do to one of them. */
module RunRows {
  import opened Wrappers

  import opened Messages

  type RunId = nat
  type ThreadId = nat
  type Token = nat
  type Time = nat

  datatype Agent = Agent(id: string, version: string, framework: string)

  datatype Status = Accepted | Running | Succeeded | Failed | Blocked

  /** The identity a response carries, its final message, and the rest of it. */
  datatype Response = Response(run: RunId, request: nat, thread: ThreadId, agent: Agent,
                               message: Message, rest: string)

  /** The part of a row that is written once, when the run is claimed. */
  datatype Claim = Claim(run: RunId, request: nat, agent: Agent, thread: ThreadId,
                         key: Option<string>, hash: string, token: Token, claimedAt: Time, lease: Time)

  datatype Row = Row(claim: Claim, status: Status, response: Option<Response>, error: Option<string>,
                     completedAt: Option<Time>)

  datatype Error =
    | ThreadNotFound
    | RunNotFound
    | ThreadBusy
    | IdempotencyConflict
    | OwnershipLost
    | InvalidTransition
    | DuplicateRun

  predicate Active(row: Row) { row.status.Accepted? || row.status.Running? }

  predicate Expired(row: Row, now: Time) { Active(row) && row.claim.lease <= now }

  const LEASE_EXPIRED := "owner_lease_expired"

  /** Fail a row whose owner let its lease run out. */
  function Expire(row: Row, now: Time): Row {
    if Expired(row, now)
    then row.(status := Failed, error := Some(LEASE_EXPIRED), completedAt := Some(now), response := None)
    else row
  }

  predicate Owns(row: Row, token: Token, now: Time) {
    row.claim.token == token && (Active(row) ==> now < row.claim.lease)
  }

  predicate Allowed(before: Status, after: Status) {
    || (before.Accepted? && after.Running?)
    || (before.Running? && (after.Failed? || after.Blocked?))
  }

  function AfterTransition(row: Row, status: Status, token: Token, response: Option<Response>,
                           error: Option<string>, now: Time): Result<Row, Error>
  {
    if !Owns(row, token, now) then Err(OwnershipLost)
    else if !Allowed(row.status, status) then Err(InvalidTransition)
    else if response.Some? then Err(InvalidTransition)
    else Ok(row.(status := status, error := error,
                 completedAt := if status.Running? then row.completedAt else Some(now)))
  }

  /** The newest assistant message of a batch. */
  function LastAssistant(messages: seq<Message>): Option<Message> {
    if |messages| == 0 then None
    else
      var last := messages[|messages| - 1];
      if last.role.Assistant? then Some(last) else LastAssistant(messages[..|messages| - 1])
  }

  predicate BelongsTo(response: Response, claim: Claim) {
    response.run == claim.run && response.request == claim.request
    && response.thread == claim.thread && response.agent == claim.agent
  }

  /** Why a completion may not even begin to write. */
  function CompletionError(row: Row, token: Token, messages: seq<Message>, response: Response, now: Time)
    : Option<Error>
  {
    if !Owns(row, token, now) then Some(OwnershipLost)
    else if !row.status.Running? then Some(InvalidTransition)
    else if !BelongsTo(response, row.claim) then Some(InvalidTransition)
    else if LastAssistant(messages) != Some(response.message) then Some(InvalidTransition)
    else None
  }

  /** The second check, at the final persistence boundary. */
  function AfterCompletion(row: Row, token: Token, response: Response, now: Time): Result<Row, Error> {
    if !Owns(row, token, now) then Err(OwnershipLost)
    else Ok(row.(status := Succeeded, response := Some(response), error := None, completedAt := Some(now)))
  }

  /** Settle an unfinished row for its owner; leave a finished one alone. */
  function AfterFailure(row: Row, token: Token, error: string, status: Status, now: Time)
    : Result<Row, Error>
  {
    if row.claim.token != token then Err(OwnershipLost)
    else if !Active(row) then Ok(row)
    else if Expired(row, now) then Ok(Expire(row, now))
    else Ok(row.(status := status, error := Some(error), completedAt := Some(now), response := None))
  }

  // ----- what a sound row is, and how rows may change -----

  /** The claimed part never changes, a finished row changes no more, and a started run does not
      become unstarted. */
  ghost predicate Evolves(before: Row, after: Row) {
    && after.claim == before.claim
    && (!Active(before) ==> after == before)
    && (before.status.Running? ==> !after.status.Accepted?)
  }

  /** A run that was unfinished when its lease ended, and what it became at `now` for that reason. */
  ghost predicate Lapsed(before: Row, after: Row, now: Time) {
    && (before.status == Accepted || before.status == Running) && before.claim.lease <= now
    && after == Row(before.claim, Failed, None, Some("owner_lease_expired"), Some(now))
  }

  /** A reading of the clock at `now` fails a run whose lease has ended, and leaves any other alone. */
  ghost predicate FailedIfLapsed(before: Row, after: Row, now: Time) {
    || Lapsed(before, after, now)
    || (after == before
        && ((before.status != Accepted && before.status != Running) || now < before.claim.lease))
  }

  /** What a cleanup with the right token makes of a run: nothing if it is over, and otherwise a failure,
      by the lease if that has ended, and with the code and outcome given if it has not. */
  ghost predicate CleanedUp(before: Row, after: Row, code: string, outcome: Status, now: Time) {
    if before.status != Accepted && before.status != Running then after == before
    else if before.claim.lease <= now then Lapsed(before, after, now)
    else after == Row(before.claim, outcome, None, Some(code), Some(now))
  }

  /** A row that a clock reading `clock` may show. */
  ghost predicate RowOk(row: Row, clock: Time) {
    && (row.status.Succeeded? <==> row.response.Some?)
    && (Active(row) <==> row.completedAt.None?)
    && row.claim.claimedAt <= row.claim.lease
    && row.claim.claimedAt <= clock
    && (row.completedAt.Some? ==> row.claim.claimedAt <= row.completedAt.value <= clock)
    && (row.status.Succeeded? ==> row.completedAt.value < row.claim.lease)
    && (row.status.Succeeded? ==> BelongsTo(row.response.value, row.claim))
  }

  predicate SameKey(a: Claim, b: Claim) {
    a.key.Some? && a.key == b.key && a.agent.id == b.agent.id
  }

  /** One run was over before the other was claimed. */
  ghost predicate Apart(a: Row, b: Row) {
    || (a.completedAt.Some? && a.completedAt.value <= b.claim.claimedAt)
    || (b.completedAt.Some? && b.completedAt.value <= a.claim.claimedAt)
  }

  ghost predicate Compatible(a: Row, b: Row) {
    !SameKey(a.claim, b.claim) && (a.claim.thread == b.claim.thread ==> Apart(a, b))
  }
}
