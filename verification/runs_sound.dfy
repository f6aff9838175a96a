/** What every step of the run store keeps. */
module RunSound {
  import opened Wrappers

  import opened Messages
  import opened RunRows
  import opened RunStore

  // ----- the invariant -----

  ghost predicate RowsOk(rows: map<RunId, Row>, clock: Time) {
    && (forall r | r in rows :: rows[r].claim.run == r && RowOk(rows[r], clock))
    && (forall a, b | a in rows && b in rows && a != b :: Compatible(rows[a], rows[b]))
  }

  /** Every run of the thread was over by `now`. */
  ghost predicate Quiet(rows: map<RunId, Row>, t: ThreadId, now: Time) {
    forall r | r in rows && rows[r].claim.thread == t ::
      rows[r].completedAt.Some? && rows[r].completedAt.value <= now
  }

  /** Why an operation may change a row: its lease ran out, or it is the owner's own, in time. */
  ghost predicate Warranted(op: Operation, before: Row, after: Row) {
    || after == before
    || (!op.Transition? && !op.Complete? && after.completedAt.Some?
        && Lapsed(before, after, after.completedAt.value))
    || (&& (op.Transition? || op.Complete? || op.FailIfRunning?)
        && op.run == before.claim.run && op.token == before.claim.token
        && (after.completedAt.Some? ==> after.completedAt.value < before.claim.lease)
        && (after.status.Succeeded? ==> op.Complete? && after.response == Some(op.answer)))
  }

  /** The working copy touches only its own thread's rows, and only with a warrant; only a claim that
      reports it adds a row. */
  ghost predicate StagedOk(x: Txn, t: ThreadId, rows: map<RunId, Row>) {
    forall r | r in x.staged ::
      && x.staged[r].claim.thread == t
      && x.staged[r].claim.run == r
      && (if r in rows then Evolves(rows[r], x.staged[r]) && Warranted(x.op, rows[r], x.staged[r])
          else x.phase == Done(Created(x.staged[r])))
  }

  /** What a completion relies on once its first check has passed: nobody else can touch the row. */
  ghost predicate MayWrite(x: Txn, t: ThreadId, rows: map<RunId, Row>) {
    && x.op.Complete? && x.staged == map[]
    && x.op.run in rows && rows[x.op.run].claim.thread == t
    && rows[x.op.run].status.Running?
    && rows[x.op.run].claim.token == x.op.token
    && BelongsTo(x.op.answer, rows[x.op.run].claim)
    && LastAssistant(x.op.messages) == Some(x.op.answer.message)
  }

  /** A claim's reply speaks of the row it inserted, or of one that already had its key. */
  ghost predicate ClaimReplyOk(x: Txn, t: ThreadId, rows: map<RunId, Row>, reply: Reply)
    requires x.op.ClaimRun?
  {
    match reply
    case Created(row) =>
      && x.op.run !in rows && x.op.run in x.staged && x.staged[x.op.run] == row
      && row == NewRow(x.op, t, row.claim.claimedAt)
    case Existing(row) =>
      && row.claim.run in rows && Evolves(row, rows[row.claim.run])
      && row.claim.key == x.op.key && x.op.key.Some? && row.claim.agent.id == x.op.agent.id
      && row.claim.hash == x.op.hash
      && (forall r | r in x.staged :: r in rows)
    case _ => false
  }

  /** An operation on one run has settled that run and nothing else. */
  ghost predicate SettledOk(x: Txn, t: ThreadId, rows: map<RunId, Row>, row: Row)
    requires x.op.Transition? || x.op.Complete? || x.op.FailIfRunning? || x.op.Recover? || x.op.Sweep?
  {
    && x.op.run in rows && rows[x.op.run].claim.thread == t
    && x.staged == map[x.op.run := row]
    && (x.op.Complete? ==>
          && rows[x.op.run].status.Running? && row.status.Succeeded? && row.response == Some(x.op.answer)
          && LastAssistant(x.op.messages) == Some(x.op.answer.message))
  }

  ghost predicate PhaseOk(x: Txn, t: ThreadId, rows: map<RunId, Row>, history: seq<Stored>, clock: Time) {
    match x.phase
    case Locked => x.staged == map[] && x.batch == []
    case KeyFree => x.op.ClaimRun? && x.staged == map[] && x.batch == []
    case Timed(now) => x.op.ClaimRun? && now <= clock && Quiet(rows + x.staged, t, now) && x.batch == []
    case KeyTaken => x.op.ClaimRun? && FindKey(rows, x.op.agent.id, x.op.key).Some? && x.batch == []
    case Approved => MayWrite(x, t, rows) && x.batch == []
    case Written => MayWrite(x, t, rows) && x.batch == Numbered(|history|, x.op.messages)
    case Done(reply) =>
      match x.op
      case ClaimRun(_, _, _, _, _, _, _) => ClaimReplyOk(x, t, rows, reply) && x.batch == []
      case Append(messages) =>
        reply == Appended && x.staged == map[] && x.batch == Numbered(|history|, messages)
      case _ =>
        && reply.Settled? && SettledOk(x, t, rows, reply.row)
        && x.batch == (if x.op.Complete? then Numbered(|history|, x.op.messages) else [])
  }

  predicate IsRefused(x: Txn) { x.phase.Done? && x.phase.reply.Refused? }

  /** A transaction that will be rolled back owes nothing; any other keeps its staged rows sound. */
  ghost predicate TxnOk(x: Txn, t: ThreadId, rows: map<RunId, Row>, history: seq<Stored>, clock: Time) {
    || IsRefused(x)
    || (&& WellFormed(x.op)
        && StagedOk(x, t, rows)
        && RowsOk(rows + x.staged, clock)
        && (!(x.op.ClaimRun? || x.op.Append?) ==> x.op.run in rows && rows[x.op.run].claim.thread == t)
        && PhaseOk(x, t, rows, history, clock))
  }

  /** Two open transactions never insert rows that a unique index would reject together. */
  ghost predicate Unrelated(x: Txn, y: Txn, rows: map<RunId, Row>) {
    forall a, b | a in x.staged && b in y.staged && a !in rows && b !in rows ::
      !Clashes(x.staged[a].claim, y.staged[b].claim)
  }

  ghost predicate Separate(s: Store) {
    forall t, u | t in s.txns && u in s.txns && t != u :: Unrelated(s.txns[t], s.txns[u], s.rows)
  }

  function MessagesIn(log: seq<Commit>, t: ThreadId): seq<Message> {
    if |log| == 0 then []
    else
      var last := log[|log| - 1];
      MessagesIn(log[..|log| - 1], t) + (if last.thread == t then last.messages else [])
  }

  /** Every thread holds exactly what was committed to it, in order, numbered from 1. */
  ghost predicate HistoryOk(threads: map<ThreadId, seq<Stored>>, log: seq<Commit>) {
    && (forall t | t in threads :: threads[t] == Numbered(0, MessagesIn(log, t)))
    && (forall i | 0 <= i < |log| :: log[i].thread in threads)
  }

  /** A run's batch, its row, and the response agree. */
  ghost predicate Credits(c: Commit, rows: map<RunId, Row>) {
    c.origin.Some? ==>
      && c.origin.value in rows
      && rows[c.origin.value].status.Succeeded?
      && rows[c.origin.value].claim.thread == c.thread
      && rows[c.origin.value].response.Some?
      && LastAssistant(c.messages) == Some(rows[c.origin.value].response.value.message)
  }

  /** The log has one batch for every succeeded run and none for any other run. */
  ghost predicate LogOk(log: seq<Commit>, rows: map<RunId, Row>) {
    && (forall i | 0 <= i < |log| :: Credits(log[i], rows))
    && (forall i, j | 0 <= i < j < |log| && log[i].origin.Some? :: log[i].origin != log[j].origin)
    && (forall r | r in rows && rows[r].status.Succeeded? :: Credited(log, r))
  }

  ghost predicate Credited(log: seq<Commit>, r: RunId) {
    exists i | 0 <= i < |log| :: log[i].origin == Some(r)
  }

  ghost predicate TxnsOk(s: Store) {
    forall t | t in s.txns :: t in s.threads && TxnOk(s.txns[t], t, s.rows, s.threads[t], s.clock)
  }

  ghost predicate Sound(s: Store) {
    && RowsOk(s.rows, s.clock)
    && (forall r | r in s.rows :: s.rows[r].claim.thread in s.threads)
    && TxnsOk(s)
    && Separate(s)
    && HistoryOk(s.threads, s.log)
    && LogOk(s.log, s.rows)
  }

  // ----- small facts -----

  lemma {:induction false} LastOfNumbered(messages: seq<Message>)
    ensures LastSequence(Numbered(0, messages)) == |messages|
  {
    if |messages| > 0 {
      var init := messages[..|messages| - 1];
      assert Numbered(0, messages)[..|messages| - 1] == Numbered(0, init);
      LastOfNumbered(init);
    }
  }

  lemma NumberedConcat(a: seq<Message>, b: seq<Message>)
    ensures Numbered(0, a) + Numbered(|a|, b) == Numbered(0, a + b)
  {
  }

  lemma LaterClock(rows: map<RunId, Row>, clock: Time, later: Time)
    requires RowsOk(rows, clock) && clock <= later
    ensures RowsOk(rows, later)
  {
  }

  // ----- one transaction's step keeps its own facts -----

  /** Replacing one row by an evolved one that stays apart from its thread keeps the rows sound. */
  lemma Restaged(rows: map<RunId, Row>, r: RunId, row: Row, clock: Time)
    requires RowsOk(rows, clock) && r in rows
    requires row.claim == rows[r].claim && RowOk(row, clock)
    requires rows[r].completedAt.None? || row == rows[r]
    ensures RowsOk(rows + map[r := row], clock)
  {
    var all := rows + map[r := row];
    forall a, b | a in all && b in all && a != b ensures Compatible(all[a], all[b]) {
      assert Compatible(rows[a], rows[b]);
    }
  }

  /** Adding a run claimed when its thread was quiet. */
  lemma Inserted(rows: map<RunId, Row>, row: Row, clock: Time)
    requires RowsOk(rows, clock) && RowOk(row, clock)
    requires row.claim.run !in rows
    requires Quiet(rows, row.claim.thread, row.claim.claimedAt)
    requires forall r | r in rows :: !SameKey(rows[r].claim, row.claim)
    ensures RowsOk(rows[row.claim.run := row], clock)
  {
    var all := rows[row.claim.run := row];
    forall a, b | a in all && b in all && a != b ensures Compatible(all[a], all[b]) {
      if a in rows && b in rows { assert Compatible(rows[a], rows[b]); }
    }
  }

  lemma QuietNow(rows: map<RunId, Row>, t: ThreadId, clock: Time)
    requires RowsOk(rows, clock) && FindActive(rows, t).None?
    ensures Quiet(rows, t, clock)
  {
  }

  /** Expiring the one active run of a thread leaves the thread quiet. */
  lemma QuietOnceExpired(rows: map<RunId, Row>, t: ThreadId, a: RunId, clock: Time)
    requires RowsOk(rows, clock) && a in rows && rows[a].claim.thread == t && Expired(rows[a], clock)
    ensures RowsOk(rows + map[a := Expire(rows[a], clock)], clock)
    ensures Quiet(rows + map[a := Expire(rows[a], clock)], t, clock)
  {
    Restaged(rows, a, Expire(rows[a], clock), clock);
    forall r | r in rows && r != a && rows[r].claim.thread == t ensures rows[r].completedAt.Some? {
      assert Compatible(rows[a], rows[r]);
    }
  }

  lemma {:induction false} InsertKeeps(x: Txn, t: ThreadId, rows: map<RunId, Row>, history: seq<Stored>, clock: Time)
    requires TxnOk(x, t, rows, history, clock) && x.op.ClaimRun? && x.phase.Timed?
    requires FindKey(rows, x.op.agent.id, x.op.key).None? && x.op.run !in rows
    ensures TxnOk(NextClaim(x, t, rows, clock), t, rows, history, clock)
  {
    var row := NewRow(x.op, t, x.phase.now);
    assert forall r | r in x.staged :: r in rows;
    Inserted(rows + x.staged, row, clock);
    assert rows + x.staged[x.op.run := row] == (rows + x.staged)[x.op.run := row];
  }

  lemma ActiveKeeps(x: Txn, t: ThreadId, rows: map<RunId, Row>, history: seq<Stored>, clock: Time)
    requires TxnOk(x, t, rows, history, clock) && RowsOk(rows, clock)
    requires x.op.ClaimRun? && x.phase.KeyFree?
    ensures TxnOk(NextClaim(x, t, rows, clock), t, rows, history, clock)
  {
    assert rows + map[] == rows;
    var active := FindActive(rows, t);
    if active.Some? {
      if Expired(rows[active.value], clock) { QuietOnceExpired(rows, t, active.value, clock); }
    } else {
      QuietNow(rows, t, clock);
    }
  }

  lemma LookUpKeeps(x: Txn, t: ThreadId, rows: map<RunId, Row>, history: seq<Stored>, clock: Time)
    requires TxnOk(x, t, rows, history, clock) && RowsOk(rows, clock)
    requires x.op.ClaimRun?
    requires x.phase.Locked? || x.phase.KeyTaken?
             || (x.phase.Timed? && (FindKey(rows, x.op.agent.id, x.op.key).Some? || x.op.run in rows))
    ensures TxnOk(NextClaim(x, t, rows, clock), t, rows, history, clock)
  {
  }

  lemma {:induction false} ClaimKeeps(x: Txn, t: ThreadId, rows: map<RunId, Row>, history: seq<Stored>, clock: Time)
    requires TxnOk(x, t, rows, history, clock) && RowsOk(rows, clock)
    requires x.op.ClaimRun? && !x.phase.Done?
    ensures TxnOk(NextClaim(x, t, rows, clock), t, rows, history, clock)
  {
    hide RowsOk, StagedOk;
    if x.phase.KeyFree? {
      ActiveKeeps(x, t, rows, history, clock);
    } else if x.phase.Timed? && FindKey(rows, x.op.agent.id, x.op.key).None? && x.op.run !in rows {
      InsertKeeps(x, t, rows, history, clock);
    } else {
      LookUpKeeps(x, t, rows, history, clock);
    }
  }

  /** What one allowed change makes of a sound row. */
  ghost predicate Changed(before: Row, after: Row, clock: Time) {
    && RowOk(after, clock) && Evolves(before, after)
    && (before.completedAt.None? || after == before)
  }

  ghost predicate MaySettle(x: Txn, t: ThreadId, rows: map<RunId, Row>, history: seq<Stored>, clock: Time,
                            result: Result<Row, RunRows.Error>)
    requires x.op.Transition? || x.op.Complete? || x.op.FailIfRunning? || x.op.Recover? || x.op.Sweep?
    requires x.op.run in rows
  {
    || result.Err?
    || (&& Changed(rows[x.op.run], result.value, clock)
        && Warranted(x.op, rows[x.op.run], result.value)
        && SettledOk(Settling(x, result), t, rows, result.value)
        && x.batch == (if x.op.Complete? then Numbered(|history|, x.op.messages) else []))
  }

  lemma SettlingKeeps(x: Txn, t: ThreadId, rows: map<RunId, Row>, history: seq<Stored>, clock: Time,
                      result: Result<Row, RunRows.Error>)
    requires TxnOk(x, t, rows, history, clock) && RowsOk(rows, clock)
    requires x.op.Transition? || x.op.Complete? || x.op.FailIfRunning? || x.op.Recover? || x.op.Sweep?
    requires !x.phase.Done? && x.op.run in rows
    requires MaySettle(x, t, rows, history, clock, result)
    ensures TxnOk(Settling(x, result), t, rows, history, clock)
  {
    if result.Ok? { Restaged(rows, x.op.run, result.value, clock); }
  }

  lemma OutcomeIsWarranted(op: Operation, row: Row, clock: Time)
    requires op.Transition? || op.FailIfRunning? || op.Recover? || op.Sweep?
    requires WellFormed(op) && RowOk(row, clock) && op.run == row.claim.run
    ensures var result := Outcome(op, row, clock);
            result.Ok? ==> Changed(row, result.value, clock) && Warranted(op, row, result.value)
  {
  }

  lemma {:induction false} RunOperationKeeps(x: Txn, t: ThreadId, rows: map<RunId, Row>, history: seq<Stored>,
                                             clock: Time)
    requires TxnOk(x, t, rows, history, clock) && RowsOk(rows, clock) && !x.phase.Done?
    requires x.op.Transition? || x.op.FailIfRunning? || x.op.Recover? || x.op.Sweep?
    ensures TxnOk(Next(x, t, rows, history, clock), t, rows, history, clock)
  {
    assert RowOk(rows[x.op.run], clock) && rows[x.op.run].claim.run == x.op.run;
    hide RowsOk, StagedOk, RowOk;
    OutcomeIsWarranted(x.op, rows[x.op.run], clock);
    SettlingKeeps(x, t, rows, history, clock, Outcome(x.op, rows[x.op.run], clock));
  }

  lemma ApproveKeeps(x: Txn, t: ThreadId, rows: map<RunId, Row>, history: seq<Stored>, clock: Time)
    requires TxnOk(x, t, rows, history, clock) && x.op.Complete? && x.phase.Locked?
    ensures TxnOk(NextComplete(x, rows[x.op.run], history, clock), t, rows, history, clock)
  {
  }

  lemma WriteKeeps(x: Txn, t: ThreadId, rows: map<RunId, Row>, history: seq<Stored>, clock: Time)
    requires TxnOk(x, t, rows, history, clock) && x.op.Complete? && x.phase.Approved?
    requires LastSequence(history) == |history|
    ensures TxnOk(NextComplete(x, rows[x.op.run], history, clock), t, rows, history, clock)
  {
    hide RowsOk, Warranted, LastSequence;
  }

  lemma CompletionSettles(x: Txn, t: ThreadId, rows: map<RunId, Row>, history: seq<Stored>, clock: Time)
    requires TxnOk(x, t, rows, history, clock) && RowsOk(rows, clock)
    requires x.op.Complete? && x.phase.Written?
    ensures MaySettle(x, t, rows, history, clock,
                      AfterCompletion(rows[x.op.run], x.op.token, x.op.answer, clock))
  {
  }

  lemma {:induction false} CompleteKeeps(x: Txn, t: ThreadId, rows: map<RunId, Row>, history: seq<Stored>, clock: Time)
    requires TxnOk(x, t, rows, history, clock) && RowsOk(rows, clock)
    requires x.op.Complete? && !x.phase.Done? && LastSequence(history) == |history|
    ensures TxnOk(NextComplete(x, rows[x.op.run], history, clock), t, rows, history, clock)
  {
    match x.phase
    case Locked => ApproveKeeps(x, t, rows, history, clock);
    case Approved => WriteKeeps(x, t, rows, history, clock);
    case Written =>
      CompletionSettles(x, t, rows, history, clock);
      SettlingKeeps(x, t, rows, history, clock, AfterCompletion(rows[x.op.run], x.op.token, x.op.answer, clock));
  }

  lemma AppendKeeps(x: Txn, t: ThreadId, rows: map<RunId, Row>, history: seq<Stored>, clock: Time)
    requires TxnOk(x, t, rows, history, clock) && RowsOk(rows, clock)
    requires x.op.Append? && !x.phase.Done? && LastSequence(history) == |history|
    ensures TxnOk(NextAppend(x, history), t, rows, history, clock)
  {
  }

  /** Whatever a transaction does next, it keeps its own facts. */
  lemma {:induction false} NextKeeps(x: Txn, t: ThreadId, rows: map<RunId, Row>, history: seq<Stored>, clock: Time)
    requires TxnOk(x, t, rows, history, clock) && RowsOk(rows, clock)
    requires !x.phase.Done? && LastSequence(history) == |history|
    ensures TxnOk(Next(x, t, rows, history, clock), t, rows, history, clock)
  {
    hide RowsOk, StagedOk, PhaseOk;
    match x.op
    case ClaimRun(_, _, _, _, _, _, _) => ClaimKeeps(x, t, rows, history, clock);
    case Complete(_, _, _, _) => CompleteKeeps(x, t, rows, history, clock);
    case Append(messages) => AppendKeeps(x, t, rows, history, clock);
    case _ => RunOperationKeeps(x, t, rows, history, clock);
  }
}
