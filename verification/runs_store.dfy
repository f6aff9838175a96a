/** The run store as a transition system: short transactions, each holding one thread's lock over a
    working copy, interleaved in any order with each other and with the clock. */
module RunStore {
  import opened Wrappers

  import opened Messages
  import opened RunRows

  // ----- stored history -----

  datatype Stored = Stored(sequence: nat, message: Message)

  /** Messages numbered consecutively after `last`. */
  function Numbered(last: nat, messages: seq<Message>): seq<Stored> {
    seq(|messages|, offset requires 0 <= offset < |messages| => Stored(last + offset + 1, messages[offset]))
  }

  /** The highest stored number, or 0 for an empty thread. */
  function LastSequence(history: seq<Stored>): nat {
    if |history| == 0 then 0
    else
      var rest := LastSequence(history[..|history| - 1]);
      var last := history[|history| - 1].sequence;
      if last > rest then last else rest
  }

  function BatchOf(history: seq<Stored>, messages: seq<Message>): seq<Stored> {
    Numbered(LastSequence(history), messages)
  }

  // ----- transactions -----

  datatype Operation =
    | ClaimRun(run: RunId, request: nat, agent: Agent, key: Option<string>, hash: string, token: Token,
               duration: nat)
    | Transition(run: RunId, status: Status, token: Token, response: Option<Response>, error: Option<string>)
    | Complete(run: RunId, token: Token, messages: seq<Message>, answer: Response)
    | FailIfRunning(run: RunId, token: Token, code: string, outcome: Status)
    | Recover(run: RunId)
    | Sweep(run: RunId)
    | Append(messages: seq<Message>)

  datatype Reply =
    | Created(row: Row)
    | Existing(row: Row)
    | Settled(row: Row)
    | Appended
    | Refused(error: RunRows.Error)

  /** How far a transaction has come since it took the lock. */
  datatype Phase =
    | Locked
    | KeyFree
    | Timed(now: Time)
    | KeyTaken
    | Approved
    | Written
    | Done(reply: Reply)

  datatype Txn = Txn(client: Option<nat>, op: Operation, phase: Phase, staged: map<RunId, Row>,
                     batch: seq<Stored>)

  /** A transaction that has only taken its lock. */
  function Start(client: Option<nat>, op: Operation): Txn { Txn(client, op, Locked, map[], []) }

  /** One committed batch of messages: a completed run's, or an explicit append. */
  datatype Commit = Commit(thread: ThreadId, messages: seq<Message>, origin: Option<RunId>)

  datatype Store = Store(clock: Time, rows: map<RunId, Row>, threads: map<ThreadId, seq<Stored>>,
                         txns: map<ThreadId, Txn>, log: seq<Commit>)

  const EMPTY: Store := Store(0, map[], map[], map[], [])

  // ----- what one transaction does next -----

  ghost function FindKey(rows: map<RunId, Row>, agent: string, key: Option<string>): (r: Option<RunId>)
    ensures r.Some? ==> r.value in rows && rows[r.value].claim.agent.id == agent
                        && rows[r.value].claim.key == key && key.Some?
    ensures r.None? ==> key.None? || forall i | i in rows ::
                          !(rows[i].claim.key == key && rows[i].claim.agent.id == agent)
  {
    if i :| i in rows && key.Some? && rows[i].claim.agent.id == agent && rows[i].claim.key == key
    then Some(i) else None
  }

  ghost function FindActive(rows: map<RunId, Row>, t: ThreadId): (r: Option<RunId>)
    ensures r.Some? ==> r.value in rows && Active(rows[r.value]) && rows[r.value].claim.thread == t
    ensures r.None? ==> forall i | i in rows && rows[i].claim.thread == t :: !Active(rows[i])
  {
    if i :| i in rows && Active(rows[i]) && rows[i].claim.thread == t then Some(i) else None
  }

  function NewRow(op: Operation, t: ThreadId, now: Time): Row
    requires op.ClaimRun?
  {
    Row(Claim(op.run, op.request, op.agent, t, op.key, op.hash, op.token, now, now + op.duration),
        Accepted, None, None, None)
  }

  function Replayed(row: Row, hash: string): Reply {
    if row.claim.hash != hash then Refused(IdempotencyConflict) else Existing(row)
  }

  /** Claim: look the key up, expire a dead owner, then insert, minding a key taken meanwhile. */
  ghost function NextClaim(x: Txn, t: ThreadId, rows: map<RunId, Row>, clock: Time): Txn
    requires x.op.ClaimRun?
  {
    var found := FindKey(rows, x.op.agent.id, x.op.key);
    match x.phase
    case Locked =>
      if found.Some? then x.(phase := Done(Replayed(rows[found.value], x.op.hash)))
      else x.(phase := KeyFree)
    case KeyFree =>
      (match FindActive(rows, t)
       case None => x.(phase := Timed(clock))
       case Some(a) =>
         if Expired(rows[a], clock)
         then x.(phase := Timed(clock), staged := map[a := Expire(rows[a], clock)])
         else x.(phase := Done(Refused(ThreadBusy))))
    case Timed(now) =>
      if found.Some? then x.(phase := KeyTaken)
      else if x.op.run in rows then x.(phase := Done(Refused(DuplicateRun)))
      else
        var row := NewRow(x.op, t, now);
        x.(phase := Done(Created(row)), staged := x.staged[x.op.run := row])
    case KeyTaken =>
      if found.Some? then x.(phase := Done(Replayed(rows[found.value], x.op.hash))) else x
    case _ => x
  }

  function Settling(x: Txn, result: Result<Row, RunRows.Error>): Txn
    requires x.op.Transition? || x.op.Complete? || x.op.FailIfRunning? || x.op.Recover? || x.op.Sweep?
  {
    match result
    case Err(error) => x.(phase := Done(Refused(error)))
    case Ok(row) => x.(phase := Done(Settled(row)), staged := map[x.op.run := row])
  }

  /** Complete: check the owner, write the messages, and check the owner again. */
  function NextComplete(x: Txn, row: Row, history: seq<Stored>, clock: Time): Txn
    requires x.op.Complete?
  {
    match x.phase
    case Locked =>
      var problem := CompletionError(row, x.op.token, x.op.messages, x.op.answer, clock);
      if problem.Some? then x.(phase := Done(Refused(problem.value))) else x.(phase := Approved)
    case Approved => x.(phase := Written, batch := BatchOf(history, x.op.messages))
    case Written => Settling(x, AfterCompletion(row, x.op.token, x.op.answer, clock))
    case _ => x
  }

  /** What an operation on one run, other than a completion, would make of its row. */
  function Outcome(op: Operation, row: Row, clock: Time): Result<Row, RunRows.Error>
    requires op.Transition? || op.FailIfRunning? || op.Recover? || op.Sweep?
  {
    match op
    case Transition(_, status, token, response, error) =>
      AfterTransition(row, status, token, response, error, clock)
    case FailIfRunning(_, token, code, outcome) => AfterFailure(row, token, code, outcome, clock)
    case _ => Ok(Expire(row, clock))
  }

  function NextAppend(x: Txn, history: seq<Stored>): Txn
    requires x.op.Append?
  {
    if x.phase.Locked? then x.(phase := Done(Appended), batch := BatchOf(history, x.op.messages)) else x
  }

  /** The next step of the transaction holding `t`, which sees committed rows and its own. */
  ghost function Next(x: Txn, t: ThreadId, rows: map<RunId, Row>, history: seq<Stored>, clock: Time): (y: Txn)
    requires !(x.op.ClaimRun? || x.op.Append?) ==> x.op.run in rows
    ensures y.op == x.op && y.client == x.client
  {
    match x.op
    case ClaimRun(_, _, _, _, _, _, _) => NextClaim(x, t, rows, clock)
    case Complete(run, _, _, _) => NextComplete(x, rows[run], history, clock)
    case Append(_) => NextAppend(x, history)
    case _ => if x.phase.Locked? then Settling(x, Outcome(x.op, rows[x.op.run], clock)) else x
  }

  /** An insert waits while another open transaction has inserted the same key or the same run. */
  ghost predicate HeldUp(s: Store, t: ThreadId)
    requires t in s.txns
  {
    var x := s.txns[t];
    && x.op.ClaimRun? && x.phase.Timed?
    && exists u, r | u in s.txns && u != t && r in s.txns[u].staged && r !in s.rows ::
         Clashes(s.txns[u].staged[r].claim, NewRow(x.op, t, x.phase.now).claim)
  }

  predicate Clashes(a: Claim, b: Claim) { a.run == b.run || SameKey(a, b) }

  // ----- the steps of the store -----

  datatype Step =
    | Tick(elapsed: nat)
    | CreateThread(thread: ThreadId)
    | Begin(thread: ThreadId, client: Option<nat>, op: Operation)
    | Advance(thread: ThreadId)
    | Finish(thread: ThreadId)
    | Abort(thread: ThreadId)

  /** What the store rejects before it opens a transaction. */
  predicate WellFormed(op: Operation) {
    match op
    case Transition(_, status, _, _, _) => !status.Succeeded?
    case FailIfRunning(_, _, _, outcome) => outcome.Failed? || outcome.Blocked?
    case _ => true
  }

  /** A transaction begins by taking the lock of the thread it is about. */
  predicate MayBegin(s: Store, t: ThreadId, op: Operation) {
    && t in s.threads && t !in s.txns && WellFormed(op)
    && (!(op.ClaimRun? || op.Append?) ==> OnThread(s, op.run, t))
  }

  predicate OnThread(s: Store, run: RunId, t: ThreadId) {
    run in s.rows && s.rows[run].claim.thread == t
  }

  ghost predicate Enabled(s: Store, step: Step) {
    match step
    case Tick(_) => true
    case CreateThread(t) => t !in s.threads
    case Begin(t, _, op) => MayBegin(s, t, op)
    case Advance(t) => t in s.txns && t in s.threads && !s.txns[t].phase.Done? && !HeldUp(s, t)
                       && (!(s.txns[t].op.ClaimRun? || s.txns[t].op.Append?) ==> s.txns[t].op.run in s.rows)
    case Finish(t) => t in s.txns && t in s.threads && s.txns[t].phase.Done?
    case Abort(t) => t in s.txns
  }

  function CommitOf(x: Txn, t: ThreadId): seq<Commit> {
    match x.op
    case Complete(run, _, messages, _) => [Commit(t, messages, Some(run))]
    case Append(messages) => [Commit(t, messages, None)]
    case _ => []
  }

  /** Commit what the transaction staged, or roll all of it back if it was refused. */
  function Finished(s: Store, t: ThreadId): Store
    requires t in s.txns && t in s.threads && s.txns[t].phase.Done?
  {
    var x := s.txns[t];
    if x.phase.reply.Refused? then s.(txns := s.txns - {t})
    else s.(txns := s.txns - {t}, rows := s.rows + x.staged,
            threads := s.threads[t := s.threads[t] + x.batch], log := s.log + CommitOf(x, t))
  }

  ghost function Apply(s: Store, step: Step): Store
    requires Enabled(s, step)
  {
    match step
    case Tick(elapsed) => s.(clock := s.clock + elapsed)
    case CreateThread(t) => s.(threads := s.threads[t := []])
    case Begin(t, client, op) => s.(txns := s.txns[t := Start(client, op)])
    case Advance(t) => s.(txns := s.txns[t := Next(s.txns[t], t, s.rows, s.threads[t], s.clock)])
    case Finish(t) => Finished(s, t)
    case Abort(t) => s.(txns := s.txns - {t})
  }
}
