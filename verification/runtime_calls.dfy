/** Runtime invocations over the run store: every call looks its key up, claims, executes, completes,
    and cleans up, while replies get lost and callers are cancelled at any point. */
module RuntimeCalls {
  import opened Wrappers

  import opened Messages
  import opened RunRows
  import opened RunStore

  /** What a caller asks for. Each invocation draws a fresh run id and a fresh owner token; both are
      written here as the number of the call. */
  datatype Request = Request(agent: Agent, key: Option<string>, hash: string, request: nat,
                             thread: Option<ThreadId>, messages: seq<Message>)

  /** How far a call has come. One abandoned before its cleanup began has raised, but the cleanup is a
      task of its own and still runs. */
  datatype Stage =
    | Looking
    | Recovering(run: RunId)
    | AwaitRecovery(run: RunId)
    | Opening
    | Claiming(thread: ThreadId)
    | AwaitClaim
    | Starting
    | AwaitStart
    | Ready
    | Executing
    | Completing(output: seq<Message>, response: Response)
    | AwaitCompletion(response: Response)
    | Cleaning(cancelled: bool, code: string, outcome: Status)
    | AwaitCleanup(cancelled: bool)
    | Returned(response: Response)
    | Raised
    | Abandoned(code: string, outcome: Status)

  datatype Call = Call(request: Request, stage: Stage)

  datatype World = World(store: Store, calls: map<nat, Call>, executed: seq<RunId>, lease: nat)

  function Begun(lease: nat): World { World(EMPTY, map[], [], lease) }

  datatype WorldStep =
    | Outside(step: Step)
    | Deliver(thread: ThreadId)
    | Arrive(call: nat, request: Request)
    | LookUp(call: nat)
    | Open(call: nat, thread: ThreadId)
    | Issue(call: nat)
    | Execute(call: nat)
    | Output(call: nat, output: seq<Message>, response: Response)
    | Interrupt(call: nat, cancelled: bool, code: string, outcome: Status)
    | GiveUp(call: nat)

  // ----- what a call does with an answer -----

  /** Return a finished run's response, and refuse to run an idempotent request again. */
  function Replay(row: Row, hash: string): Stage {
    if row.claim.hash != hash then Raised
    else if Active(row) then Raised
    else if row.status.Succeeded? && row.response.Some? then Returned(row.response.value)
    else Raised
  }

  /** A run that looks unfinished is recovered first: its owner may be dead. */
  function Reuse(row: Row, hash: string): Stage {
    if row.claim.hash == hash && Active(row) then Recovering(row.claim.run) else Replay(row, hash)
  }

  /** The public code of a refusal; a violated index is not an error of the store's own. */
  function CodeOf(error: RunRows.Error): string {
    match error
    case ThreadNotFound => "thread_not_found"
    case RunNotFound => "run_not_found"
    case ThreadBusy => "thread_busy"
    case IdempotencyConflict => "idempotency_conflict"
    case OwnershipLost => "run_ownership_lost"
    case InvalidTransition => "invalid_run_transition"
    case DuplicateRun => "internal_error"
  }

  /** A call that the store turns away fails with the refusal's code. */
  function TurnedAway(reply: Reply): Stage {
    Cleaning(false, if reply.Refused? then CodeOf(reply.error) else "internal_error", Status.Failed)
  }

  predicate Awaits(stage: Stage, op: Operation) {
    match stage
    case AwaitRecovery(_) => op.Recover?
    case AwaitClaim => op.ClaimRun?
    case AwaitStart => op.Transition?
    case AwaitCompletion(_) => op.Complete?
    case AwaitCleanup(_) => op.FailIfRunning?
    case _ => false
  }

  function Heard(call: Call, reply: Reply): Stage {
    match call.stage
    case AwaitRecovery(_) =>
      if reply.Settled? then Replay(reply.row, call.request.hash) else Raised
    case AwaitClaim =>
      (match reply
       case Created(_) => Starting
       case Existing(row) => Reuse(row, call.request.hash)
       case _ => TurnedAway(reply))
    case AwaitStart => if reply.Settled? then Ready else TurnedAway(reply)
    case AwaitCompletion(response) => if reply.Settled? then Returned(response) else TurnedAway(reply)
    case AwaitCleanup(cancelled) =>
      if reply.Settled? && !cancelled && reply.row.status.Succeeded? && reply.row.response.Some?
      then Returned(reply.row.response.value) else Raised
    case _ => call.stage
  }

  /** Whether the call has a run of its own to settle when it fails. */
  predicate OwnsRun(stage: Stage) {
    stage.Claiming? || stage.AwaitClaim? || stage.Starting? || stage.AwaitStart? || stage.Ready?
    || stage.Executing? || stage.Completing? || stage.AwaitCompletion?
  }

  predicate HasRaised(stage: Stage) { stage.Raised? || stage.Abandoned? }

  predicate IsOver(stage: Stage) { stage.Returned? || HasRaised(stage) }

  // ----- what a call asks of the store -----

  predicate Issues(stage: Stage) {
    stage.Recovering? || stage.Claiming? || stage.Starting? || stage.Completing? || stage.Cleaning?
    || stage.Abandoned?
  }

  function OperationOf(w: World, p: nat): Operation
    requires p in w.calls && Issues(w.calls[p].stage)
  {
    var r := w.calls[p].request;
    match w.calls[p].stage
    case Recovering(run) => Recover(run)
    case Claiming(_) => ClaimRun(p, r.request, r.agent, r.key, r.hash, p, w.lease)
    case Starting => Transition(p, Status.Running, p, None, None)
    case Completing(output, response) => Complete(p, p, r.messages + output, response)
    case Cleaning(_, code, outcome) => FailIfRunning(p, p, code, outcome)
    case Abandoned(code, outcome) => FailIfRunning(p, p, code, outcome)
  }

  function Waiting(stage: Stage): Stage
    requires Issues(stage)
  {
    match stage
    case Recovering(run) => AwaitRecovery(run)
    case Claiming(_) => AwaitClaim
    case Starting => AwaitStart
    case Completing(_, response) => AwaitCompletion(response)
    case Cleaning(cancelled, _, _) => AwaitCleanup(cancelled)
    case Abandoned(_, _) => Raised
  }

  /** The thread whose lock the call's next transaction needs. */
  function ThreadOf(w: World, p: nat): Option<ThreadId>
    requires p in w.calls && Issues(w.calls[p].stage)
  {
    match w.calls[p].stage
    case Claiming(t) => Some(t)
    case Recovering(run) => if run in w.store.rows then Some(w.store.rows[run].claim.thread) else None
    case _ => if p in w.store.rows then Some(w.store.rows[p].claim.thread) else None
  }

  // ----- the steps of the world -----

  /** What may happen without a runtime call: time, new threads, appends, recoveries, sweeps, the
      inner steps of any transaction, and the end of one whose reply nobody hears. */
  predicate Ambient(step: Step) {
    match step
    case Begin(_, client, op) => client.None? && (op.Recover? || op.Sweep? || op.Append?)
    case _ => true
  }

  /** The step of the store a step of the world takes, if any. */
  function StoreStep(w: World, step: WorldStep): Option<Step> {
    match step
    case Outside(inner) => Some(inner)
    case Deliver(t) => Some(Finish(t))
    case Issue(p) =>
      if p in w.calls && Issues(w.calls[p].stage) && ThreadOf(w, p).Some?
      then Some(Begin(ThreadOf(w, p).value, Some(p), OperationOf(w, p))) else None
    case _ => None
  }

  predicate Hears(w: World, t: ThreadId) {
    && t in w.store.txns && w.store.txns[t].phase.Done? && w.store.txns[t].client.Some?
    && w.store.txns[t].client.value in w.calls
    && Awaits(w.calls[w.store.txns[t].client.value].stage, w.store.txns[t].op)
  }

  ghost predicate Can(w: World, step: WorldStep) {
    && (StoreStep(w, step).Some? ==> Enabled(w.store, StoreStep(w, step).value))
    && match step
       case Outside(inner) => Ambient(inner)
       case Deliver(t) => Hears(w, t)
       case Arrive(p, _) => p !in w.calls
       case LookUp(p) => p in w.calls && w.calls[p].stage.Looking?
       case Open(p, t) => p in w.calls && w.calls[p].stage.Opening? && t in w.store.threads
                          && (w.calls[p].request.thread.Some? ==> w.calls[p].request.thread.value == t)
       case Issue(p) => p in w.calls && Issues(w.calls[p].stage) && ThreadOf(w, p).Some?
       case Execute(p) => p in w.calls && w.calls[p].stage.Ready?
       case Output(p, _, _) => p in w.calls && w.calls[p].stage.Executing?
       case Interrupt(p, _, _, outcome) => p in w.calls && !IsOver(w.calls[p].stage)
                                           && !w.calls[p].stage.Cleaning? && !w.calls[p].stage.AwaitCleanup?
                                           && (outcome.Failed? || outcome.Blocked?)
       case GiveUp(p) => p in w.calls && (w.calls[p].stage.Cleaning? || w.calls[p].stage.AwaitCleanup?)
  }

  ghost function LookedUp(w: World, request: Request): Stage {
    match FindKey(w.store.rows, request.agent.id, request.key)
    case Some(r) => Reuse(w.store.rows[r], request.hash)
    case None => Opening
  }

  /** Where the step takes the call it is about. */
  ghost function NextStage(w: World, step: WorldStep, p: nat): Stage
    requires p in w.calls && Can(w, step)
  {
    var call := w.calls[p];
    match step
    case Deliver(t) => Heard(call, w.store.txns[t].phase.reply)
    case LookUp(_) => LookedUp(w, call.request)
    case Open(_, t) => Claiming(t)
    case Issue(_) => if Issues(call.stage) then Waiting(call.stage) else call.stage
    case Execute(_) => Executing
    case Output(_, output, response) => Completing(output, response)
    case Interrupt(_, cancelled, code, outcome) =>
      if OwnsRun(call.stage) then Cleaning(cancelled, code, outcome) else Raised
    case GiveUp(_) => if call.stage.Cleaning? then Abandoned(call.stage.code, call.stage.outcome) else Raised
    case _ => call.stage
  }

  /** The existing call a step is about. */
  function Subject(w: World, step: WorldStep): Option<nat> {
    match step
    case Outside(_) => None
    case Arrive(_, _) => None
    case Deliver(t) => if t in w.store.txns then w.store.txns[t].client else None
    case LookUp(p) => Some(p)
    case Open(p, _) => Some(p)
    case Issue(p) => Some(p)
    case Execute(p) => Some(p)
    case Output(p, _, _) => Some(p)
    case Interrupt(p, _, _, _) => Some(p)
    case GiveUp(p) => Some(p)
  }

  /** Only an idempotent request has a key to look up. */
  function Arrived(request: Request): Call {
    Call(request, if request.key.Some? then Looking else Opening)
  }

  ghost function Do(w: World, step: WorldStep): World
    requires Can(w, step)
  {
    var store := if StoreStep(w, step).Some? then Apply(w.store, StoreStep(w, step).value) else w.store;
    var executed := if step.Execute? then w.executed + [step.call] else w.executed;
    match Subject(w, step)
    case Some(p) =>
      World(store, w.calls[p := w.calls[p].(stage := NextStage(w, step, p))], executed, w.lease)
    case None =>
      World(store, if step.Arrive? then w.calls[step.call := Arrived(step.request)] else w.calls, executed, w.lease)
  }
}
