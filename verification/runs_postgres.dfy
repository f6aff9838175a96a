/** The store's transactions as the program runs them: mutable rows loaded under the thread lock,
    assigned in place, and written back when the transaction commits. Each one, taken alone, does
    exactly what the same operation does step by step in the transition system. */
module RunsPostgres {
  import opened Wrappers

  import opened Messages
  import opened RunRows
  import opened RunStore

  /** A loaded row: assignments change it in place until the session ends. */
  class RunRow {
    const claim: Claim
    var status: Status
    var response: Option<Response>
    var error: Option<string>
    var completedAt: Option<Time>

    function View(): Row
      reads this
    {
      Row(claim, status, response, error, completedAt)
    }

    constructor Load(row: Row)
      ensures View() == row
    {
      claim, status, response, error, completedAt :=
        row.claim, row.status, row.response, row.error, row.completedAt;
    }

    /** Fail the row if its owner let the lease run out, and say whether it did. */
    method Expire(now: Time) returns (expired: bool)
      modifies this
      ensures expired == Expired(old(View()), now)
      ensures View() == RunRows.Expire(old(View()), now)
      ensures if expired then Lapsed(old(View()), View(), now) else View() == old(View())
    {
      if (status.Accepted? || status.Running?) && claim.lease <= now {
        status, error, completedAt := Failed, Some(LEASE_EXPIRED), Some(now);
        response := None;
        return true;
      }
      return false;
    }

    method CheckOwner(token: Token, now: Time) returns (problem: Option<RunRows.Error>)
      ensures problem == if Owns(View(), token, now) then None else Some(OwnershipLost)
    {
      if claim.token != token || ((status.Accepted? || status.Running?) && claim.lease <= now) {
        return Some(OwnershipLost);
      }
      return None;
    }

    method Transition(to: Status, token: Token, answer: Option<Response>, code: Option<string>, now: Time)
      returns (result: Result<Row, RunRows.Error>)
      modifies this
      ensures result == AfterTransition(old(View()), to, token, answer, code, now)
      ensures View() == if result.Ok? then result.value else old(View())
    {
      var problem := CheckOwner(token, now);
      if problem.Some? { return Err(problem.value); }
      if !Allowed(status, to) { return Err(InvalidTransition); }
      if answer.Some? { return Err(InvalidTransition); }
      status, error := to, code;
      if to.Failed? || to.Blocked? { completedAt := Some(now); }
      return Ok(View());
    }

    method Succeed(answer: Response, now: Time)
      modifies this
      ensures View() == old(View()).(status := Succeeded, response := Some(answer), error := None,
                                     completedAt := Some(now))
    {
      status := Succeeded;
      response := Some(answer);
      error, completedAt := None, Some(now);
    }

    method FailIfRunning(token: Token, code: string, outcome: Status, now: Time)
      returns (result: Result<Row, RunRows.Error>)
      modifies this
      ensures result == AfterFailure(old(View()), token, code, outcome, now)
      ensures View() == if result.Ok? then result.value else old(View())
    {
      if claim.token != token { return Err(OwnershipLost); }
      if status.Accepted? || status.Running? {
        var expired := Expire(now);
        if !expired {
          status, error, completedAt := outcome, Some(code), Some(now);
          response := None;
        }
      }
      return Ok(View());
    }
  }

  // ----- one transaction, alone -----

  /** A completion that nothing interrupts: its first check, the writing, and its last check. */
  ghost function Uninterrupted(x: Txn, t: ThreadId, rows: map<RunId, Row>, history: seq<Stored>,
                               first: Time, last: Time): Txn
    requires x.op.Complete? && x.op.run in rows
  {
    var checked := Next(x, t, rows, history, first);
    var written := Next(checked, t, rows, history, first);
    Next(written, t, rows, history, last)
  }

  /** A claim whose lookups see `rows`, and whose insert sees `later`. */
  ghost function Raced(x: Txn, t: ThreadId, rows: map<RunId, Row>, later: map<RunId, Row>, now: Time): Txn
    requires x.op.ClaimRun?
  {
    var looked := NextClaim(NextClaim(x, t, rows, now), t, rows, now);
    if looked.phase.Done? then looked else NextClaim(NextClaim(looked, t, later, now), t, later, now)
  }

  /** The rows such a claim leaves. */
  ghost function AfterRace(x: Txn, t: ThreadId, rows: map<RunId, Row>, later: map<RunId, Row>, now: Time)
    : map<RunId, Row>
    requires x.op.ClaimRun?
  {
    var looked := NextClaim(NextClaim(x, t, rows, now), t, rows, now);
    var end := Raced(x, t, rows, later, now);
    if looked.phase.Done? then rows
    else if end.phase.Done? && end.phase.reply.Refused? then later
    else later + end.staged
  }

  lemma {:induction false} RaceIs(x: Txn, t: ThreadId, rows: map<RunId, Row>, later: map<RunId, Row>, now: Time,
               active: Option<RunId>, staged: map<RunId, Row>)
    requires x.op.ClaimRun? && x.phase.Locked? && x.staged == map[]
    requires FindKey(rows, x.op.agent.id, x.op.key).None? && active == FindActive(rows, t)
    requires active.Some? ==> Expired(rows[active.value], now)
    requires staged == if active.Some? then map[active.value := Expire(rows[active.value], now)] else map[]
    ensures var looked := x.(phase := Timed(now), staged := staged);
            && Raced(x, t, rows, later, now) == NextClaim(NextClaim(looked, t, later, now), t, later, now)
            && AfterRace(x, t, rows, later, now)
               == (if Raced(x, t, rows, later, now).phase.Done? && Raced(x, t, rows, later, now).phase.reply.Refused?
                   then later else later + Raced(x, t, rows, later, now).staged)
  {
  }

  /** Where a claim that is ready to insert ends. */
  lemma {:induction false} InsertEnds(x: Txn, t: ThreadId, rows: map<RunId, Row>, now: Time)
    requires x.op.ClaimRun? && x.phase.Timed?
    ensures var end := NextClaim(NextClaim(x, t, rows, now), t, rows, now);
            var row := NewRow(x.op, t, x.phase.now);
            match FindKey(rows, x.op.agent.id, x.op.key)
            case Some(r) => end == x.(phase := Done(Replayed(rows[r], x.op.hash)))
            case None =>
              end == if x.op.run in rows then x.(phase := Done(Refused(DuplicateRun)))
                     else x.(phase := Done(Created(row)), staged := x.staged[x.op.run := row])
  {
  }

  // ----- a sweep in progress -----

  /** What the first `i` runs of a sweep have left of the rows `before`. */
  ghost predicate SweptUpTo(i: nat, before: map<RunId, Row>, rows: map<RunId, Row>, recovered: seq<Row>,
                            ids: seq<RunId>, clocks: seq<Time>, held: set<ThreadId>)
    requires i <= |ids| == |clocks|
  {
    && rows.Keys == before.Keys
    && (forall r | r in rows :: rows[r] == before[r] || (rows[r] in recovered && !Active(rows[r])))
    && (forall r | r in rows :: rows[r].claim == before[r].claim)
    && (forall k | 0 <= k < |recovered| :: Swept(recovered[k], before, ids, clocks, held))
    && (forall j | 0 <= j < i && ids[j] in rows && rows[ids[j]].claim.thread !in held ::
          (rows[ids[j]].status != Accepted && rows[ids[j]].status != Running)
          || clocks[j] < rows[ids[j]].claim.lease)
  }

  lemma {:induction false} SweepNext(i: nat, before: map<RunId, Row>, rows: map<RunId, Row>, recovered: seq<Row>,
                  ids: seq<RunId>, clocks: seq<Time>, held: set<ThreadId>)
    requires i < |ids| == |clocks| && SweptUpTo(i, before, rows, recovered, ids, clocks, held)
    ensures var run, now := ids[i], clocks[i];
            if run in rows && rows[run].claim.thread !in held && Expired(rows[run], now)
            then SweptUpTo(i + 1, before, rows[run := Expire(rows[run], now)],
                           recovered + [Expire(rows[run], now)], ids, clocks, held)
            else SweptUpTo(i + 1, before, rows, recovered, ids, clocks, held)
  {
    var run, now := ids[i], clocks[i];
    if run in rows && rows[run].claim.thread !in held && Expired(rows[run], now) {
      var row := Expire(rows[run], now);
      assert rows[run] == before[run];
      assert Swept(row, before, ids, clocks, held);
    }
  }

  lemma {:induction false} UninterruptedIs(x: Txn, t: ThreadId, rows: map<RunId, Row>, history: seq<Stored>,
                                           first: Time, last: Time)
    requires x.op.Complete? && x.op.run in rows && x.phase.Locked?
    ensures var op, row := x.op, rows[x.op.run];
            var end := Uninterrupted(x, t, rows, history, first, last);
            match CompletionError(row, op.token, op.messages, op.answer, first)
            case Some(problem) => end == x.(phase := Done(Refused(problem)))
            case None =>
              end == Settling(x.(batch := BatchOf(history, op.messages)),
                              AfterCompletion(row, op.token, op.answer, last))
  {
  }

  ghost predicate Reports(x: Txn, result: Result<Row, RunRows.Error>) {
    && x.phase.Done?
    && match result
       case Ok(row) => x.phase.reply == Settled(row)
       case Err(error) => x.phase.reply == Refused(error)
  }

  /** What the unique indexes enforce: a row per run id, a run per agent and key, and one unfinished
      run per thread. */
  ghost predicate Indexed(rows: map<RunId, Row>) {
    && (forall r | r in rows :: rows[r].claim.run == r)
    && (forall a, b | a in rows && b in rows && a != b :: Distinguished(rows[a], rows[b]))
  }

  ghost predicate Distinguished(a: Row, b: Row) {
    !SameKey(a.claim, b.claim) && !(a.claim.thread == b.claim.thread && Active(a) && Active(b))
  }

  /** Staging `staged` leaves no unfinished run on the thread. */
  ghost predicate Freed(rows: map<RunId, Row>, staged: map<RunId, Row>, t: ThreadId) {
    && Indexed(rows + staged)
    && (forall r | r in staged :: r in rows && staged[r].claim == rows[r].claim
                                  && staged[r].claim.thread == t)
    && (forall r | r in rows + staged && (rows + staged)[r].claim.thread == t :: !Active((rows + staged)[r]))
  }

  lemma {:induction false} OthersApart(rows: map<RunId, Row>, others: map<RunId, Row>, staged: map<RunId, Row>,
                                       t: ThreadId)
    requires Indexed(rows) && Indexed(rows + others) && Freed(rows, staged, t)
    requires forall r | r in others :: others[r].claim.thread != t
    requires forall r | r in others && r in rows :: others[r].claim == rows[r].claim
    ensures Freed(rows + others, staged, t)
  {
    var later, all := rows + others, rows + others + staged;
    forall r | r in all
      ensures all[r].claim == later[r].claim && all[r].claim.run == r
      ensures if all[r].claim.thread == t then !Active(all[r]) else all[r] == later[r]
    {
      if r in staged { assert r !in others; }
      if all[r].claim.thread == t { assert all[r] == (rows + staged)[r]; }
    }
    forall a, b | a in all && b in all && a != b ensures Distinguished(all[a], all[b]) {
      assert Distinguished(later[a], later[b]);
    }
  }

  /** A free thread takes one more run, whose key nobody has. */
  lemma {:induction false} InsertIndexed(rows: map<RunId, Row>, staged: map<RunId, Row>, row: Row)
    requires Freed(rows, staged, row.claim.thread) && row.claim.run !in rows
    requires FindKey(rows, row.claim.agent.id, row.claim.key).None?
    ensures Indexed(rows + staged[row.claim.run := row])
  {
    var before, all := rows + staged, rows + staged[row.claim.run := row];
    forall a, b | a in all && b in all && a != b ensures Distinguished(all[a], all[b]) {
      if a != row.claim.run && b != row.claim.run { assert Distinguished(before[a], before[b]); }
    }
  }

  class Database {
    var rows: map<RunId, Row>
    var threads: map<ThreadId, seq<Stored>>

    ghost predicate Valid()
      reads this
    {
      && Indexed(rows)
      && forall r | r in rows :: rows[r].claim.thread in threads
    }

    /** The database after a transaction committed, or was rolled back for a refusal. */
    ghost predicate Holds(before: map<RunId, Row>, histories: map<ThreadId, seq<Stored>>, x: Txn, t: ThreadId)
      requires t in histories
      reads this
    {
      && x.phase.Done?
      && rows == (if x.phase.reply.Refused? then before else before + x.staged)
      && threads == (if x.phase.reply.Refused? || x.batch == [] then histories
                     else histories[t := histories[t] + x.batch])
    }

    constructor ()
      ensures Valid() && rows == map[] && threads == map[]
    {
      rows, threads := map[], map[];
    }

    /** Write a loaded row back: its claim is as it was, and it was not finished only to start again. */
    method Write(row: RunRow)
      requires Valid() && row.claim.run in rows && rows[row.claim.run].claim == row.claim
      requires Active(row.View()) ==> Active(rows[row.claim.run])
      modifies this`rows
      ensures Valid() && rows == old(rows)[row.claim.run := row.View()]
    {
      rows := rows[row.claim.run := row.View()];
    }

    /** Claim a key and a thread, rejecting live overlaps. Between the key's lookup and the insert other
        threads' transactions may commit: `others` is what they write. */
    method Claim(run: RunId, request: nat, agent: Agent, t: ThreadId, key: Option<string>, hash: string,
                 token: Token, duration: nat, now: Time, others: map<RunId, Row>)
      returns (reply: Reply)
      requires Valid() && Elsewhere(others, t)
      modifies this`rows
      ensures Valid()
      ensures t !in threads ==> reply == Refused(ThreadNotFound) && rows == old(rows)
      ensures t in threads ==>
                var x := Start(None, ClaimRun(run, request, agent, key, hash, token, duration));
                var end := Raced(x, t, old(rows), old(rows) + others, now);
                end.phase == Done(reply) && rows == AfterRace(x, t, old(rows), old(rows) + others, now)
    {
      if t !in threads { return Refused(ThreadNotFound); }
      ghost var x := Start(None, ClaimRun(run, request, agent, key, hash, token, duration));
      var existing := SelectKey(agent.id, key);
      if existing.Some? { return Replayed(rows[existing.value], hash); }

      var free, staged := FreeThread(t, now);
      if !free { return Refused(ThreadBusy); }
      RaceIs(x, t, rows, rows + others, now, FindActive(rows, t), staged);
      // Nothing keeps the other threads waiting meanwhile.
      OthersApart(rows, others, staged, t);
      rows := rows + others;
      reply := Insert(x.op, run, request, agent, t, key, hash, token, duration, now, staged);
    }

    /** Whether the thread is free for a new run, once a dead owner's run is expired. */
    method FreeThread(t: ThreadId, now: Time) returns (free: bool, staged: map<RunId, Row>)
      requires Valid()
      ensures free == (FindActive(rows, t).Some? ==> Expired(rows[FindActive(rows, t).value], now))
      ensures staged == if free && FindActive(rows, t).Some?
                        then map[FindActive(rows, t).value := Expire(rows[FindActive(rows, t).value], now)]
                        else map[]
      ensures free ==> Freed(rows, staged, t)
    {
      free, staged := true, map[];
      var active := SelectActive(t);
      if active.Some? {
        var row := new RunRow.Load(rows[active.value]);
        free := row.Expire(now);
        if free { staged := map[active.value := row.View()]; }
      }
    }

    /** Insert the run unless its key was taken meanwhile; then answer for the run that took it. */
    method Insert(ghost op: Operation, run: RunId, request: nat, agent: Agent, t: ThreadId,
                  key: Option<string>, hash: string, token: Token, duration: nat, now: Time,
                  staged: map<RunId, Row>)
      returns (reply: Reply)
      requires Valid() && t in threads && Freed(rows, staged, t)
      requires op == ClaimRun(run, request, agent, key, hash, token, duration)
      modifies this`rows
      ensures Valid()
      ensures var looked := Start(None, op).(phase := Timed(now), staged := staged);
              var end := NextClaim(NextClaim(looked, t, old(rows), now), t, old(rows), now);
              && end.phase == Done(reply)
              && rows == (if reply.Refused? then old(rows) else old(rows) + end.staged)
    {
      hide Indexed;
      ghost var looked := Start(None, op).(phase := Timed(now), staged := staged);
      InsertEnds(looked, t, rows, now);
      var existing := SelectKey(agent.id, key);
      if existing.Some? {
        reply := Replayed(rows[existing.value], hash);
        if reply.Existing? { Commit(staged, t); }
        return;
      }
      if run in rows { return Refused(DuplicateRun); }
      var created := Row(RunRows.Claim.Claim(run, request, agent, t, key, hash, token, now, now + duration),
                         Accepted, None, None, None);
      InsertIndexed(rows, staged, created);
      rows := rows + staged[run := created];
      reply := Created(created);
    }

    /** Commit the expiry of a dead owner. */
    method Commit(staged: map<RunId, Row>, t: ThreadId)
      requires Valid() && t in threads && Freed(rows, staged, t)
      modifies this`rows
      ensures Valid() && rows == old(rows) + staged
    {
      rows := rows + staged;
    }

    method SelectKey(agent: string, key: Option<string>) returns (found: Option<RunId>)
      requires Indexed(rows)
      ensures found == FindKey(rows, agent, key)
    {
      if key.None? { return None; }
      if r :| r in rows && rows[r].claim.agent.id == agent && rows[r].claim.key == key {
        return Some(r);
      }
      return None;
    }

    method SelectActive(t: ThreadId) returns (found: Option<RunId>)
      requires Indexed(rows)
      ensures found == FindActive(rows, t)
    {
      if r :| r in rows && Active(rows[r]) && rows[r].claim.thread == t { return Some(r); }
      return None;
    }

    /** What transactions on threads other than `t` may have made of the rows. */
    ghost predicate Elsewhere(others: map<RunId, Row>, t: ThreadId)
      reads this
    {
      && Indexed(rows + others)
      && forall r | r in others ::
           && others[r].claim.thread in threads && others[r].claim.thread != t
           && (r in rows ==> others[r].claim == rows[r].claim)
    }

    /** Apply a valid transition for the unexpired owner. */
    method Transition(run: RunId, status: Status, token: Token, response: Option<Response>,
                      code: Option<string>, now: Time)
      returns (result: Result<Row, RunRows.Error>)
      requires Valid()
      modifies this
      ensures Valid()
      ensures status.Succeeded? ==> result == Err(InvalidTransition)
      ensures !status.Succeeded? && run !in old(rows) ==> result == Err(RunNotFound)
      ensures status.Succeeded? || run !in old(rows) ==> rows == old(rows) && threads == old(threads)
      ensures !status.Succeeded? && run in old(rows) ==>
                var t := old(rows)[run].claim.thread;
                var x := Next(Start(None, Operation.Transition(run, status, token, response, code)), t,
                              old(rows), old(threads)[t], now);
                Reports(x, result) && Holds(old(rows), old(threads), x, t)
    {
      if status.Succeeded? { return Err(InvalidTransition); }
      if run !in rows { return Err(RunNotFound); }
      var row := new RunRow.Load(rows[run]);
      result := row.Transition(status, token, response, code, now);
      if result.Ok? { Write(row); }
    }

    /** Settle this owner's unfinished row without changing a terminal result. */
    method FailIfRunning(run: RunId, token: Token, code: string, outcome: Status, now: Time)
      returns (result: Result<Row, RunRows.Error>)
      requires Valid()
      modifies this
      ensures Valid()
      ensures !(outcome.Failed? || outcome.Blocked?) ==> result == Err(InvalidTransition)
      ensures (outcome.Failed? || outcome.Blocked?) && run !in old(rows) ==> result == Err(RunNotFound)
      ensures !(outcome.Failed? || outcome.Blocked?) || run !in old(rows) ==>
                rows == old(rows) && threads == old(threads)
      ensures (outcome.Failed? || outcome.Blocked?) && run in old(rows) ==>
                var t := old(rows)[run].claim.thread;
                var x := Next(Start(None, Operation.FailIfRunning(run, token, code, outcome)), t,
                              old(rows), old(threads)[t], now);
                Reports(x, result) && Holds(old(rows), old(threads), x, t)
    {
      if !(outcome.Failed? || outcome.Blocked?) { return Err(InvalidTransition); }
      if run !in rows { return Err(RunNotFound); }
      var row := new RunRow.Load(rows[run]);
      result := row.FailIfRunning(token, code, outcome, now);
      if result.Ok? { Write(row); }
    }

    /** Fail an expired owner; never run its work again. */
    method Recover(run: RunId, now: Time) returns (result: Result<Row, RunRows.Error>)
      requires Valid()
      modifies this
      ensures Valid()
      ensures run !in old(rows) ==> result == Err(RunNotFound) && rows == old(rows) && threads == old(threads)
      ensures run in old(rows) ==>
                var t := old(rows)[run].claim.thread;
                var x := Next(Start(None, Operation.Recover(run)), t, old(rows), old(threads)[t], now);
                Reports(x, result) && Holds(old(rows), old(threads), x, t)
      ensures run in old(rows) ==>
                && result.Ok? && FailedIfLapsed(old(rows)[run], result.value, now)
                && rows == old(rows)[run := result.value] && threads == old(threads)
    {
      if run !in rows { return Err(RunNotFound); }
      var row := new RunRow.Load(rows[run]);
      var expired := row.Expire(now);
      Write(row);
      result := Ok(row.View());
    }

    /** Commit history and replay together, with the owner checked before and after the writing. */
    method Complete(run: RunId, token: Token, messages: seq<Message>, answer: Response, first: Time, last: Time)
      returns (result: Result<Row, RunRows.Error>)
      requires Valid()
      modifies this
      ensures Valid()
      ensures run !in old(rows) ==> result == Err(RunNotFound) && rows == old(rows) && threads == old(threads)
      ensures run in old(rows) ==>
                var t := old(rows)[run].claim.thread;
                var x := Uninterrupted(Start(None, Operation.Complete(run, token, messages, answer)), t,
                                       old(rows), old(threads)[t], first, last);
                Reports(x, result) && Holds(old(rows), old(threads), x, t)
    {
      if run !in rows { return Err(RunNotFound); }
      assert rows[run].claim.run == run;
      hide Indexed;
      var row := new RunRow.Load(rows[run]);
      var t := row.claim.thread;
      ghost var x := Start(None, Operation.Complete(run, token, messages, answer));
      UninterruptedIs(x, t, rows, threads[t], first, last);
      var problem := MayComplete(row, token, messages, answer, first);
      if problem.Some? { return Err(problem.value); }
      hide Uninterrupted, BatchOf, AfterCompletion, Owns;
      result := Persist(row, token, messages, answer, last);
    }

    /** Write the messages, and check the owner again before the success: message writes may block. */
    method Persist(row: RunRow, token: Token, messages: seq<Message>, answer: Response, last: Time)
      returns (result: Result<Row, RunRows.Error>)
      requires Valid() && row.claim.run in rows && rows[row.claim.run] == row.View() && row.status.Running?
      modifies this, row
      ensures Valid()
      ensures result == AfterCompletion(old(row.View()), token, answer, last)
      ensures rows == if result.Ok? then old(rows)[row.claim.run := result.value] else old(rows)
      ensures threads == if result.Ok?
                         then old(threads)[row.claim.thread :=
                                old(threads)[row.claim.thread] + BatchOf(old(threads)[row.claim.thread], messages)]
                         else old(threads)
    {
      hide Indexed, BatchOf;
      var t := row.claim.thread;
      var batch := NextBatch(threads[t], messages);
      var problem := row.CheckOwner(token, last);
      if problem.Some? { return Err(problem.value); }
      row.Succeed(answer, last);
      Write(row);
      threads := threads[t := threads[t] + batch];
      result := Ok(row.View());
    }

    method MayComplete(row: RunRow, token: Token, messages: seq<Message>, answer: Response, now: Time)
      returns (problem: Option<RunRows.Error>)
      ensures problem == CompletionError(row.View(), token, messages, answer, now)
    {
      problem := row.CheckOwner(token, now);
      if problem.Some? { return; }
      if !row.status.Running? { return Some(InvalidTransition); }
      if answer.run != row.claim.run || answer.request != row.claim.request
         || answer.thread != row.claim.thread || answer.agent != row.claim.agent {
        return Some(InvalidTransition);
      }
      var assistant := FindAssistant(messages);
      if assistant != Some(answer.message) { return Some(InvalidTransition); }
      return None;
    }

    /** Append a batch outside any run. */
    method AppendMessages(t: ThreadId, messages: seq<Message>) returns (problem: Option<RunRows.Error>)
      requires Valid()
      modifies this
      ensures Valid() && rows == old(rows)
      ensures t !in old(threads) ==> problem == Some(ThreadNotFound) && threads == old(threads)
      ensures t in old(threads) ==>
                var x := Next(Start(None, Operation.Append(messages)), t, old(rows), old(threads)[t], 0);
                problem == None && x.phase == Done(Appended) && Holds(old(rows), old(threads), x, t)
    {
      if t !in threads { return Some(ThreadNotFound); }
      var batch := NextBatch(threads[t], messages);
      if batch != [] { threads := threads[t := threads[t] + batch]; }
      problem := None;
      assert rows + map[] == rows;
    }

    /** Fail a batch of runs whose leases ran out, skipping threads another transaction holds. Each row
        is read again under its lock, at its own clock reading. */
    method RecoverExpired(ids: seq<RunId>, clocks: seq<Time>, held: set<ThreadId>)
      returns (recovered: seq<Row>)
      requires Valid() && |clocks| == |ids|
      modifies this
      ensures Valid() && threads == old(threads) && rows.Keys == old(rows).Keys
      ensures forall r | r in rows && rows[r] != old(rows)[r] :: rows[r] in recovered
      ensures forall k | 0 <= k < |recovered| :: Swept(recovered[k], old(rows), ids, clocks, held)
      ensures SweptUpTo(|ids|, old(rows), rows, recovered, ids, clocks, held)
      ensures forall i | 0 <= i < |ids| && ids[i] in rows && rows[ids[i]].claim.thread !in held ::
                !Expired(rows[ids[i]], clocks[i])
    {
      recovered := [];
      for i := 0 to |ids|
        invariant Valid() && threads == old(threads)
        invariant SweptUpTo(i, old(rows), rows, recovered, ids, clocks, held)
      {
        ghost var before := rows;
        var row := SweepOne(ids[i], clocks[i], held);
        SweepNext(i, old(rows), before, recovered, ids, clocks, held);
        if row.Some? { recovered := recovered + [row.value]; }
      }
    }

    /** Fail one run if it is unfinished and out of time when read under its thread's free lock. */
    method SweepOne(run: RunId, now: Time, held: set<ThreadId>) returns (swept: Option<Row>)
      requires Valid()
      modifies this`rows
      ensures Valid()
      ensures if run in old(rows) && old(rows)[run].claim.thread !in held && Expired(old(rows)[run], now)
              then swept == Some(RunRows.Expire(old(rows)[run], now)) && rows == old(rows)[run := swept.value]
              else swept == None && rows == old(rows)
    {
      if run !in rows { return None; }
      if rows[run].claim.thread in held { return None; }
      var row := new RunRow.Load(rows[run]);
      var expired := row.Expire(now);
      if !expired { return None; }
      Write(row);
      return Some(row.View());
    }
  }

  /** A swept row was one of those found, on a thread nobody held, unfinished and out of time. */
  ghost predicate Swept(row: Row, rows: map<RunId, Row>, ids: seq<RunId>, clocks: seq<Time>,
                        held: set<ThreadId>)
    requires |clocks| == |ids|
  {
    exists i | 0 <= i < |ids| ::
      && ids[i] in rows && rows[ids[i]].claim.thread !in held
      && Lapsed(rows[ids[i]], row, clocks[i])
  }

  /** The order of the unlocked scan: by lease, then by run. */
  predicate Earlier(a: Claim, b: Claim) { a.lease < b.lease || (a.lease == b.lease && a.run < b.run) }

  /** What the unlocked scan finds: runs out of time, in order, as many as there are up to the limit. */
  ghost predicate IsScan(rows: map<RunId, Row>, ids: seq<RunId>, limit: nat, now: Time) {
    && |ids| <= limit
    && (forall i | 0 <= i < |ids| :: ids[i] in rows && Expired(rows[ids[i]], now))
    && (forall i, j | 0 <= i < j < |ids| :: Earlier(rows[ids[i]].claim, rows[ids[j]].claim))
    && (forall r | r in rows && Expired(rows[r], now) && r !in ids :: Beyond(rows, ids, limit, r))
  }

  /** The limit was reached before the scan came to this run. */
  ghost predicate Beyond(rows: map<RunId, Row>, ids: seq<RunId>, limit: nat, r: RunId) {
    && r in rows && |ids| == limit
    && forall i | 0 <= i < |ids| :: ids[i] in rows && Earlier(rows[ids[i]].claim, rows[r].claim)
  }

  /** A run that is left out of time although the sweep was done: its thread was held, or the limit was
      reached with runs whose leases ended before its own, the run id deciding between equal ones. */
  ghost predicate IsExcused(row: Row, rows: map<RunId, Row>, ids: seq<RunId>, held: set<ThreadId>, limit: nat) {
    || row.claim.thread in held
    || (&& |ids| == limit
        && forall i | 0 <= i < |ids| ::
             && ids[i] in rows
             && (rows[ids[i]].claim.lease < row.claim.lease
                 || (rows[ids[i]].claim.lease == row.claim.lease && rows[ids[i]].claim.run < row.claim.run)))
  }

  /** A sweep over what its scan found leaves a run that was out of time at the scan only on a held thread,
      or beyond the limit; so, with fewer found than the limit and no thread held, it leaves none. */
  lemma ScanIsSwept(before: map<RunId, Row>, rows: map<RunId, Row>, recovered: seq<Row>, ids: seq<RunId>,
                    clocks: seq<Time>, held: set<ThreadId>, limit: nat, now: Time)
    requires IsScan(before, ids, limit, now)
    requires |clocks| == |ids| && forall i | 0 <= i < |ids| :: now <= clocks[i]
    requires SweptUpTo(|ids|, before, rows, recovered, ids, clocks, held)
    ensures forall r | r in rows && (rows[r].status == Accepted || rows[r].status == Running)
                       && rows[r].claim.lease <= now :: IsExcused(rows[r], before, ids, held, limit)
  {
    forall r | r in rows && Expired(rows[r], now)
      ensures IsExcused(rows[r], before, ids, held, limit)
    {
      assert rows[r] == before[r];
      if r in ids {
        var i :| 0 <= i < |ids| && ids[i] == r;
        assert Expired(rows[ids[i]], clocks[i]);
      } else {
        assert Beyond(before, ids, limit, r);
      }
    }
  }

  /** The newest assistant message, found from the end. */
  method FindAssistant(messages: seq<Message>) returns (found: Option<Message>)
    ensures found == LastAssistant(messages)
  {
    var n := |messages|;
    assert messages[..n] == messages;
    while n > 0
      invariant 0 <= n <= |messages|
      invariant LastAssistant(messages) == LastAssistant(messages[..n])
    {
      if messages[n - 1].role.Assistant? { return Some(messages[n - 1]); }
      assert messages[..n][..n - 1] == messages[..n - 1];
      n := n - 1;
    }
    return None;
  }

  /** Allocate contiguous numbers after the highest stored one. */
  method NextBatch(history: seq<Stored>, messages: seq<Message>) returns (batch: seq<Stored>)
    ensures batch == BatchOf(history, messages)
  {
    batch := [];
    if messages == [] { return; }
    var last := 0;
    for k := 0 to |history|
      invariant last == LastSequence(history[..k])
    {
      assert history[..k + 1][..k] == history[..k];
      if history[k].sequence > last { last := history[k].sequence; }
    }
    assert history[..|history|] == history;
    for offset := 0 to |messages|
      invariant batch == Numbered(last, messages[..offset])
    {
      batch := batch + [Stored(last + offset + 1, messages[offset])];
    }
    assert messages[..|messages|] == messages;
  }
}
