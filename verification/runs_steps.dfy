/** Every step of the run store keeps the store sound. */
module RunSteps {
  import opened Wrappers

  import opened Messages
  import opened RunRows
  import opened RunStore
  import opened RunSound

  // ----- what a commit by one thread means to a transaction on another -----

  /** The two staged copies belong to different threads and insert nothing that clashes. */
  ghost predicate Distant(x: Txn, u: ThreadId, y: Txn, t: ThreadId, rows: map<RunId, Row>) {
    && t != u
    && StagedOk(x, u, rows) && StagedOk(y, t, rows)
    && Unrelated(x, y, rows)
  }

  lemma StagedApart(x: Txn, u: ThreadId, y: Txn, t: ThreadId, rows: map<RunId, Row>)
    requires Distant(x, u, y, t, rows)
    ensures x.staged.Keys !! y.staged.Keys
  {
  }

  lemma MergedIsEither(x: Txn, u: ThreadId, y: Txn, t: ThreadId, rows: map<RunId, Row>, r: RunId)
    requires Distant(x, u, y, t, rows) && r in rows + y.staged + x.staged
    ensures (rows + y.staged + x.staged)[r] == if r in x.staged then (rows + x.staged)[r] else (rows + y.staged)[r]
    ensures r !in y.staged ==> r in rows + x.staged && (rows + y.staged + x.staged)[r] == (rows + x.staged)[r]
    ensures r !in x.staged ==> r in rows + y.staged
  {
    StagedApart(x, u, y, t, rows);
    hide Distant;
  }

  lemma {:induction false} RowsMerge(x: Txn, u: ThreadId, y: Txn, t: ThreadId, rows: map<RunId, Row>, clock: Time)
    requires Distant(x, u, y, t, rows)
    requires RowsOk(rows + x.staged, clock) && RowsOk(rows + y.staged, clock)
    ensures RowsOk(rows + y.staged + x.staged, clock)
  {
    hide Distant, Compatible, RowOk;
    var mine, theirs, all := rows + x.staged, rows + y.staged, rows + y.staged + x.staged;
    StagedApart(x, u, y, t, rows);
    forall r | r in all ensures all[r].claim.run == r && RowOk(all[r], clock) {
      MergedIsEither(x, u, y, t, rows, r);
    }
    forall a, b | a in all && b in all && a != b ensures Compatible(all[a], all[b]) {
      MergedIsEither(x, u, y, t, rows, a);
      MergedIsEither(x, u, y, t, rows, b);
      if a in x.staged && b in y.staged {
        CrossCompatible(x, u, y, t, rows, clock, a, b);
      } else if a in y.staged && b in x.staged {
        CrossCompatible(x, u, y, t, rows, clock, b, a);
      } else if a in x.staged || b in x.staged {
        assert Compatible(mine[a], mine[b]);
      } else {
        assert Compatible(theirs[a], theirs[b]);
      }
    }
  }

  lemma CrossCompatible(x: Txn, u: ThreadId, y: Txn, t: ThreadId, rows: map<RunId, Row>, clock: Time,
                        a: RunId, b: RunId)
    requires Distant(x, u, y, t, rows)
    requires RowsOk(rows + x.staged, clock) && RowsOk(rows + y.staged, clock)
    requires a in x.staged && b in y.staged && a != b
    ensures Compatible(x.staged[a], y.staged[b]) && Compatible(y.staged[b], x.staged[a])
  {
    StagedApart(x, u, y, t, rows);
    if b in rows { assert Compatible((rows + x.staged)[a], (rows + x.staged)[b]); }
    if a in rows { assert Compatible((rows + y.staged)[a], (rows + y.staged)[b]); }
  }

  lemma QuietElsewhere(x: Txn, u: ThreadId, y: Txn, t: ThreadId, rows: map<RunId, Row>, now: Time)
    requires Distant(x, u, y, t, rows) && Quiet(rows + x.staged, u, now)
    ensures Quiet(rows + y.staged + x.staged, u, now)
  {
    var all := rows + y.staged + x.staged;
    forall r | r in all && all[r].claim.thread == u
      ensures all[r].completedAt.Some? && all[r].completedAt.value <= now
    {
      assert r !in y.staged || r in x.staged;
      assert (rows + x.staged)[r] == all[r];
    }
  }

  lemma StagedElsewhere(x: Txn, u: ThreadId, y: Txn, t: ThreadId, rows: map<RunId, Row>)
    requires Distant(x, u, y, t, rows)
    ensures StagedOk(x, u, rows + y.staged)
  {
    StagedApart(x, u, y, t, rows);
  }

  /** A row of another thread is as it was. */
  lemma RowElsewhere(y: Txn, t: ThreadId, rows: map<RunId, Row>, r: RunId)
    requires StagedOk(y, t, rows) && r in rows
    ensures Evolves(rows[r], (rows + y.staged)[r])
    ensures rows[r].claim.thread != t ==> (rows + y.staged)[r] == rows[r]
  {
  }

  lemma KeyStays(y: Txn, t: ThreadId, rows: map<RunId, Row>, agent: string, key: Option<string>)
    requires StagedOk(y, t, rows) && FindKey(rows, agent, key).Some?
    ensures FindKey(rows + y.staged, agent, key).Some?
  {
    var i := FindKey(rows, agent, key).value;
    RowElsewhere(y, t, rows, i);
    assert (rows + y.staged)[i].claim == rows[i].claim;
  }

  lemma ClaimReplyElsewhere(x: Txn, u: ThreadId, y: Txn, t: ThreadId, rows: map<RunId, Row>, reply: Reply)
    requires Distant(x, u, y, t, rows) && x.op.ClaimRun? && ClaimReplyOk(x, u, rows, reply)
    ensures ClaimReplyOk(x, u, rows + y.staged, reply)
  {
    StagedApart(x, u, y, t, rows);
    if reply.Existing? { RowElsewhere(y, t, rows, reply.row.claim.run); }
  }

  lemma PhaseElsewhere(x: Txn, u: ThreadId, y: Txn, t: ThreadId, rows: map<RunId, Row>,
                       history: seq<Stored>, clock: Time)
    requires Distant(x, u, y, t, rows) && PhaseOk(x, u, rows, history, clock)
    requires !(x.op.ClaimRun? || x.op.Append?) ==> x.op.run in rows && rows[x.op.run].claim.thread == u
    ensures PhaseOk(x, u, rows + y.staged, history, clock)
  {
    if x.op.ClaimRun? {
      match x.phase
      case Timed(now) => QuietElsewhere(x, u, y, t, rows, now);
      case KeyTaken => KeyStays(y, t, rows, x.op.agent.id, x.op.key);
      case Done(reply) => ClaimReplyElsewhere(x, u, y, t, rows, reply);
      case _ =>
    } else if !x.op.Append? {
      RowElsewhere(y, t, rows, x.op.run);
    }
  }

  /** A commit on thread `t` leaves every fact of a transaction on thread `u` in place. */
  lemma {:induction false} TxnElsewhere(x: Txn, u: ThreadId, y: Txn, t: ThreadId, rows: map<RunId, Row>,
                     history: seq<Stored>, clock: Time)
    requires Distant(x, u, y, t, rows) && TxnOk(x, u, rows, history, clock)
    requires RowsOk(rows + y.staged, clock)
    ensures TxnOk(x, u, rows + y.staged, history, clock)
  {
    if !IsRefused(x) {
      RowsMerge(x, u, y, t, rows, clock);
      StagedElsewhere(x, u, y, t, rows);
      PhaseElsewhere(x, u, y, t, rows, history, clock);
    }
  }

  // ----- committing -----

  /** What a commit writes to its thread, as the log records it. */
  function Payload(x: Txn): seq<Message> {
    match x.op
    case Complete(_, _, messages, _) => messages
    case Append(messages) => messages
    case _ => []
  }

  lemma LoggedMessages(log: seq<Commit>, x: Txn, t: ThreadId, u: ThreadId)
    ensures MessagesIn(log + CommitOf(x, t), u) == MessagesIn(log, u) + (if u == t then Payload(x) else [])
  {
    var cs := CommitOf(x, t);
    if cs == [] {
      assert log + cs == log;
    } else {
      assert (log + cs)[..|log|] == log;
    }
  }

  lemma BatchIsNext(x: Txn, t: ThreadId, rows: map<RunId, Row>, history: seq<Stored>, clock: Time)
    requires TxnOk(x, t, rows, history, clock) && x.phase.Done? && !IsRefused(x)
    ensures x.batch == Numbered(|history|, Payload(x))
  {
  }

  lemma CommitKeepsHistory(threads: map<ThreadId, seq<Stored>>, log: seq<Commit>, x: Txn, t: ThreadId)
    requires HistoryOk(threads, log) && t in threads
    requires x.batch == Numbered(|threads[t]|, Payload(x))
    ensures HistoryOk(threads[t := threads[t] + x.batch], log + CommitOf(x, t))
  {
    var next := threads[t := threads[t] + x.batch];
    forall u | u in next ensures next[u] == Numbered(0, MessagesIn(log + CommitOf(x, t), u)) {
      LoggedMessages(log, x, t, u);
      if u == t { NumberedConcat(MessagesIn(log, t), Payload(x)); }
    }
  }

  lemma CreditsStay(y: Txn, t: ThreadId, rows: map<RunId, Row>, c: Commit)
    requires StagedOk(y, t, rows) && Credits(c, rows)
    ensures Credits(c, rows + y.staged)
  {
    if c.origin.Some? { RowElsewhere(y, t, rows, c.origin.value); }
  }

  /** Only a completion makes a run succeed. */
  lemma SuccessIsCompletion(x: Txn, t: ThreadId, rows: map<RunId, Row>, r: RunId)
    requires StagedOk(x, t, rows) && r in x.staged && x.staged[r].status.Succeeded?
    requires x.op.ClaimRun? && x.phase.Done? && x.phase.reply.Created? ==> x.phase.reply.row.status.Accepted?
    requires x.phase.Done? && x.phase.reply.Created? ==> x.op.ClaimRun?
    ensures r in rows
    ensures rows[r].status.Succeeded? || (x.op.Complete? && x.op.run == r)
  {
    if r in rows { assert Warranted(x.op, rows[r], x.staged[r]); }
  }

  /** What a transaction about to commit means for the log: a completion turns its running run into a
      succeeded one, and nothing else succeeds. */
  ghost predicate Loggable(x: Txn, t: ThreadId, rows: map<RunId, Row>) {
    && StagedOk(x, t, rows)
    && (if x.op.Complete?
        then x.phase.Done? && x.phase.reply.Settled? && SettledOk(x, t, rows, x.phase.reply.row)
        else forall r | r in x.staged && x.staged[r].status.Succeeded? ::
               r in rows && rows[r].status.Succeeded?)
  }

  lemma CommitLoggable(x: Txn, t: ThreadId, rows: map<RunId, Row>, history: seq<Stored>, clock: Time)
    requires TxnOk(x, t, rows, history, clock) && x.phase.Done? && !IsRefused(x)
    ensures Loggable(x, t, rows)
  {
    if !x.op.Complete? {
      forall r | r in x.staged && x.staged[r].status.Succeeded?
        ensures r in rows && rows[r].status.Succeeded?
      {
        SuccessIsCompletion(x, t, rows, r);
      }
    }
  }

  /** The run a completion is about has no batch yet, and the one it commits is credited to it. */
  lemma CompletionCredits(x: Txn, t: ThreadId, rows: map<RunId, Row>, log: seq<Commit>)
    requires Loggable(x, t, rows) && LogOk(log, rows) && x.op.Complete?
    ensures Credits(Commit(t, x.op.messages, Some(x.op.run)), rows + x.staged)
    ensures forall i | 0 <= i < |log| :: log[i].origin != Some(x.op.run)
  {
    forall i | 0 <= i < |log| ensures log[i].origin != Some(x.op.run) {
      assert Credits(log[i], rows);
    }
  }

  lemma SuccessIsLogged(x: Txn, t: ThreadId, rows: map<RunId, Row>, log: seq<Commit>, r: RunId)
    requires Loggable(x, t, rows) && LogOk(log, rows)
    requires r in rows + x.staged && (rows + x.staged)[r].status.Succeeded?
    ensures Credited(log + CommitOf(x, t), r)
  {
    var next := log + CommitOf(x, t);
    if r in rows && rows[r].status.Succeeded? {
      var i :| 0 <= i < |log| && log[i].origin == Some(r);
      assert next[i] == log[i];
    } else {
      assert next[|log|].origin == Some(r);
    }
  }

  lemma CommitKeepsLog(x: Txn, t: ThreadId, rows: map<RunId, Row>, log: seq<Commit>)
    requires Loggable(x, t, rows) && LogOk(log, rows)
    ensures LogOk(log + CommitOf(x, t), rows + x.staged)
  {
    var next := log + CommitOf(x, t);
    if x.op.Complete? { CompletionCredits(x, t, rows, log); }
    forall i | 0 <= i < |next| ensures Credits(next[i], rows + x.staged) {
      if i < |log| { CreditsStay(x, t, rows, log[i]); }
    }
    forall r | r in rows + x.staged && (rows + x.staged)[r].status.Succeeded? ensures Credited(next, r) {
      SuccessIsLogged(x, t, rows, log, r);
    }
  }

  // ----- every step -----

  /** A transaction that is ready to commit. */
  predicate Committing(s: Store, t: ThreadId) {
    t in s.txns && t in s.threads && s.txns[t].phase.Done? && !s.txns[t].phase.reply.Refused?
  }

  lemma {:induction false} FinishKeepsTxns(s: Store, t: ThreadId)
    requires TxnsOk(s) && Separate(s) && Committing(s, t)
    ensures TxnsOk(Finished(s, t))
  {
    var next := Finished(s, t);
    forall u | u in next.txns ensures TxnOk(next.txns[u], u, next.rows, next.threads[u], next.clock) {
      if !IsRefused(s.txns[u]) {
        TxnElsewhere(s.txns[u], u, s.txns[t], t, s.rows, s.threads[u], s.clock);
      }
    }
  }

  lemma FinishKeepsRows(s: Store, t: ThreadId)
    requires Sound(s) && Committing(s, t)
    ensures RowsOk(Finished(s, t).rows, s.clock) && Separate(Finished(s, t))
    ensures forall r | r in Finished(s, t).rows :: Finished(s, t).rows[r].claim.thread in s.threads
  {
    assert TxnOk(s.txns[t], t, s.rows, s.threads[t], s.clock);
  }

  lemma {:induction false} FinishKeepsLog(s: Store, t: ThreadId)
    requires Sound(s) && Committing(s, t)
    ensures HistoryOk(Finished(s, t).threads, Finished(s, t).log)
    ensures LogOk(Finished(s, t).log, Finished(s, t).rows)
  {
    var x := s.txns[t];
    CommitLoggable(x, t, s.rows, s.threads[t], s.clock);
    BatchIsNext(x, t, s.rows, s.threads[t], s.clock);
    CommitKeepsLog(x, t, s.rows, s.log);
    CommitKeepsHistory(s.threads, s.log, x, t);
  }

  lemma {:induction false} FinishKeeps(s: Store, t: ThreadId)
    requires Sound(s) && Enabled(s, Finish(t))
    ensures Sound(Finished(s, t))
  {
    if !IsRefused(s.txns[t]) {
      FinishKeepsTxns(s, t);
      FinishKeepsRows(s, t);
      FinishKeepsLog(s, t);
    }
  }

  lemma TxnLater(x: Txn, t: ThreadId, rows: map<RunId, Row>, history: seq<Stored>, clock: Time, later: Time)
    requires TxnOk(x, t, rows, history, clock) && clock <= later
    ensures TxnOk(x, t, rows, history, later)
  {
    if !IsRefused(x) { LaterClock(rows + x.staged, clock, later); }
  }

  lemma TickTxns(s: Store, elapsed: nat)
    requires TxnsOk(s)
    ensures TxnsOk(Apply(s, Tick(elapsed)))
  {
    forall t | t in s.txns ensures TxnOk(s.txns[t], t, s.rows, s.threads[t], s.clock + elapsed) {
      TxnLater(s.txns[t], t, s.rows, s.threads[t], s.clock, s.clock + elapsed);
    }
  }

  lemma TickKeeps(s: Store, elapsed: nat)
    requires Sound(s)
    ensures Sound(Apply(s, Tick(elapsed)))
  {
    hide TxnOk;
    LaterClock(s.rows, s.clock, s.clock + elapsed);
    TickTxns(s, elapsed);
  }

  lemma CreateKeeps(s: Store, t: ThreadId)
    requires Sound(s) && t !in s.threads
    ensures Sound(Apply(s, CreateThread(t)))
  {
    Unmentioned(s.log, t);
  }

  lemma {:induction false} Unmentioned(log: seq<Commit>, t: ThreadId)
    requires forall i | 0 <= i < |log| :: log[i].thread != t
    ensures MessagesIn(log, t) == []
  {
    if |log| > 0 { Unmentioned(log[..|log| - 1], t); }
  }

  lemma FreshTxn(x: Txn, t: ThreadId, rows: map<RunId, Row>, history: seq<Stored>, clock: Time)
    requires RowsOk(rows, clock) && WellFormed(x.op)
    requires x.phase.Locked? && x.staged == map[] && x.batch == []
    requires !(x.op.ClaimRun? || x.op.Append?) ==> x.op.run in rows && rows[x.op.run].claim.thread == t
    ensures TxnOk(x, t, rows, history, clock)
  {
    assert rows + map[] == rows;
  }

  lemma BeginKeeps(s: Store, t: ThreadId, client: Option<nat>, op: Operation)
    requires Sound(s) && MayBegin(s, t, op)
    ensures Sound(Apply(s, Begin(t, client, op)))
  {
    FreshTxn(Txn(client, op, Locked, map[], []), t, s.rows, s.threads[t], s.clock);
  }

  lemma AbortKeeps(s: Store, t: ThreadId)
    requires Sound(s) && t in s.txns
    ensures Sound(Apply(s, Abort(t)))
  {
  }

  /** The only row a step adds to a working copy is the one a claim inserts. */
  lemma NewlyStaged(x: Txn, t: ThreadId, rows: map<RunId, Row>, history: seq<Stored>, clock: Time, r: RunId)
    requires TxnOk(x, t, rows, history, clock) && !x.phase.Done?
    requires r in Next(x, t, rows, history, clock).staged && r !in rows
    ensures x.op.ClaimRun? && x.phase.Timed?
    ensures Next(x, t, rows, history, clock).staged[r] == NewRow(x.op, t, x.phase.now)
  {
    assert r !in x.staged;
  }

  lemma AdvanceUnrelated(s: Store, t: ThreadId, u: ThreadId)
    requires TxnsOk(s) && Separate(s) && Enabled(s, Advance(t)) && u in s.txns && u != t
    ensures var x := Next(s.txns[t], t, s.rows, s.threads[t], s.clock);
            Unrelated(x, s.txns[u], s.rows) && Unrelated(s.txns[u], x, s.rows)
  {
    var x, y := Next(s.txns[t], t, s.rows, s.threads[t], s.clock), s.txns[u];
    forall a, b | a in x.staged && b in y.staged && a !in s.rows && b !in s.rows
      ensures !Clashes(x.staged[a].claim, y.staged[b].claim)
    {
      NewlyStaged(s.txns[t], t, s.rows, s.threads[t], s.clock, a);
    }
  }

  lemma {:induction false} AdvanceSeparate(s: Store, t: ThreadId)
    requires TxnsOk(s) && Separate(s) && Enabled(s, Advance(t))
    ensures Separate(Apply(s, Advance(t)))
  {
    var next := Apply(s, Advance(t));
    forall v, u | v in next.txns && u in next.txns && v != u
      ensures Unrelated(next.txns[v], next.txns[u], next.rows)
    {
      if v == t { AdvanceUnrelated(s, t, u); }
      if u == t { AdvanceUnrelated(s, t, v); }
    }
  }

  lemma AdvanceTxns(s: Store, t: ThreadId)
    requires Sound(s) && Enabled(s, Advance(t))
    ensures TxnsOk(Apply(s, Advance(t)))
  {
    LastOfNumbered(MessagesIn(s.log, t));
    NextKeeps(s.txns[t], t, s.rows, s.threads[t], s.clock);
  }

  lemma AdvanceKeeps(s: Store, t: ThreadId)
    requires Sound(s) && Enabled(s, Advance(t))
    ensures Sound(Apply(s, Advance(t)))
  {
    AdvanceTxns(s, t);
    AdvanceSeparate(s, t);
  }

  /** Whatever happens next, the store stays sound. */
  lemma {:induction false} StepKeeps(s: Store, step: Step)
    requires Sound(s) && Enabled(s, step)
    ensures Sound(Apply(s, step))
  {
    match step
    case Tick(elapsed) => TickKeeps(s, elapsed);
    case CreateThread(t) => CreateKeeps(s, t);
    case Begin(t, client, op) => BeginKeeps(s, t, client, op);
    case Advance(t) => AdvanceKeeps(s, t);
    case Finish(t) => FinishKeeps(s, t);
    case Abort(t) => AbortKeeps(s, t);
  }
}
