/** What an uninterrupted owner, claimant or cleaner gets from the run store: the other half of fencing. */
module RunProgress {
  import opened Wrappers

  import opened Messages
  import opened RunRows
  import opened RunStore
  import opened RunSound

  /** The steps are possible one after another, and lead there. */
  ghost predicate Leads(s: Store, steps: seq<Step>, end: Store)
    decreases |steps|
  {
    if |steps| == 0 then s == end
    else Enabled(s, steps[0]) && Leads(Apply(s, steps[0]), steps[1..], end)
  }

  function With(s: Store, t: ThreadId, x: Txn): Store { s.(txns := s.txns[t := x]) }

  ghost function NextIn(s: Store, t: ThreadId, x: Txn): Txn
    requires t in s.threads
    requires !(x.op.ClaimRun? || x.op.Append?) ==> x.op.run in s.rows
  {
    Next(x, t, s.rows, s.threads[t], s.clock)
  }

  ghost predicate Unlocked(s: Store, t: ThreadId) { t in s.threads && t !in s.txns }

  /** One step of a transaction that nothing holds up. */
  lemma StepsOn(s: Store, t: ThreadId, x: Txn, rest: seq<Step>, end: Store)
    requires t in s.threads && !x.phase.Done? && !HeldUp(With(s, t, x), t)
    requires !(x.op.ClaimRun? || x.op.Append?) ==> x.op.run in s.rows
    requires Leads(With(s, t, NextIn(s, t, x)), rest, end)
    ensures Leads(With(s, t, x), [Advance(t)] + rest, end)
  {
    assert With(s, t, x).txns[t := NextIn(s, t, x)] == s.txns[t := NextIn(s, t, x)];
    assert ([Advance(t)] + rest)[1..] == rest;
  }

  lemma Ends(s: Store, t: ThreadId, x: Txn)
    requires Unlocked(s, t) && x.phase.Done? && !x.phase.reply.Refused?
    ensures Leads(With(s, t, x), [Finish(t)],
                  Committed(s, t, x))
  {
    assert With(s, t, x).txns - {t} == s.txns;
    assert [Finish(t)][1..] == [];
  }

  lemma Begins(s: Store, t: ThreadId, client: Option<nat>, op: Operation, rest: seq<Step>, end: Store)
    requires MayBegin(s, t, op) && Leads(With(s, t, Start(client, op)), rest, end)
    ensures Leads(s, [Begin(t, client, op)] + rest, end)
  {
    assert ([Begin(t, client, op)] + rest)[1..] == rest;
  }

  ghost function Committed(s: Store, t: ThreadId, x: Txn): Store
    requires t in s.threads
  {
    s.(rows := s.rows + x.staged, threads := s.threads[t := s.threads[t] + x.batch], log := s.log + CommitOf(x, t))
  }

  /** A transaction of three steps, none of which has to wait. */
  lemma ThreeSteps(s: Store, t: ThreadId, client: Option<nat>, op: Operation, x1: Txn, x2: Txn, x3: Txn)
    requires Unlocked(s, t) && MayBegin(s, t, op)
    requires !(op.ClaimRun? || op.Append?) ==> op.run in s.rows
    requires x1.op == op && x2.op == op && !x1.phase.Done? && !x2.phase.Done?
    requires x1 == NextIn(s, t, Start(client, op)) && x2 == NextIn(s, t, x1) && x3 == NextIn(s, t, x2)
    requires x3.phase.Done? && !x3.phase.reply.Refused?
    requires !HeldUp(With(s, t, x1), t) && !HeldUp(With(s, t, x2), t)
    ensures Leads(s, [Begin(t, client, op), Advance(t), Advance(t), Advance(t), Finish(t)], Committed(s, t, x3))
  {
    hide Leads, Next, MayBegin;
    var end := Committed(s, t, x3);
    Ends(s, t, x3);
    OnlyClaimsWait(s, t, Start(client, op));
    StepsOn(s, t, x2, [Finish(t)], end);
    StepsOn(s, t, x1, [Advance(t)] + [Finish(t)], end);
    StepsOn(s, t, Start(client, op), [Advance(t)] + ([Advance(t)] + [Finish(t)]), end);
    Begins(s, t, client, op, [Advance(t)] + ([Advance(t)] + ([Advance(t)] + [Finish(t)])), end);
    assert [Begin(t, client, op)] + ([Advance(t)] + ([Advance(t)] + ([Advance(t)] + [Finish(t)])))
        == [Begin(t, client, op), Advance(t), Advance(t), Advance(t), Finish(t)];
  }

  // ----- completing -----

  /** Where an owner's completion, in time, ends. */
  function CompletedTxn(s: Store, t: ThreadId, client: Option<nat>, op: Operation): Txn
    requires t in s.threads && op.Complete? && op.run in s.rows
  {
    var row := s.rows[op.run].(status := Succeeded, response := Some(op.answer), error := None,
                               completedAt := Some(s.clock));
    Start(client, op).(phase := Done(Settled(row)), staged := map[op.run := row],
               batch := Numbered(|s.threads[t]|, op.messages))
  }

  /** The three steps of an owner's completion, in time. */
  lemma CompletionNexts(s: Store, t: ThreadId, client: Option<nat>, op: Operation)
    requires t in s.threads && op.Complete? && op.run in s.rows
    requires LastSequence(s.threads[t]) == |s.threads[t]|
    requires CompletionError(s.rows[op.run], op.token, op.messages, op.answer, s.clock) == None
    ensures var x1 := Start(client, op).(phase := Approved);
            var x2 := Start(client, op).(phase := Written, batch := Numbered(|s.threads[t]|, op.messages));
            && NextIn(s, t, Start(client, op)) == x1 && NextIn(s, t, x1) == x2
            && NextIn(s, t, x2) == CompletedTxn(s, t, client, op)
  {
  }

  lemma CompletionSteps(s: Store, t: ThreadId, client: Option<nat>, op: Operation)
    requires Unlocked(s, t) && MayBegin(s, t, op) && op.Complete? && op.run in s.rows
    requires LastSequence(s.threads[t]) == |s.threads[t]|
    requires CompletionError(s.rows[op.run], op.token, op.messages, op.answer, s.clock) == None
    ensures Leads(s, [Begin(t, client, op), Advance(t), Advance(t), Advance(t), Finish(t)],
                  Committed(s, t, CompletedTxn(s, t, client, op)))
  {
    CompletionNexts(s, t, client, op);
    hide Leads, HeldUp, MayBegin, Committed, Next;
    var x1 := Start(client, op).(phase := Approved);
    var x2 := Start(client, op).(phase := Written, batch := Numbered(|s.threads[t]|, op.messages));
    OnlyClaimsWait(s, t, x1);
    OnlyClaimsWait(s, t, x2);
    ThreeSteps(s, t, client, op, x1, x2, CompletedTxn(s, t, client, op));
  }

  /** The run succeeded now with the answer, its messages end the thread, and nothing else changed. */
  ghost predicate HasCompleted(s: Store, t: ThreadId, op: Operation, end: Store)
    requires t in s.threads && op.Complete?
  {
    && op.run in s.rows && end.clock == s.clock && end.txns == s.txns
    && end.rows == s.rows[op.run := Row(s.rows[op.run].claim, Succeeded, Some(op.answer), None, Some(s.clock))]
    && end.threads == s.threads[t := s.threads[t] + Numbered(|s.threads[t]|, op.messages)]
    && end.log == s.log + [Commit(t, op.messages, Some(op.run))]
  }

  /** The owner of a running run, in time, completes it: the run succeeds with its response, and its
      messages are the new end of the thread, numbered on. */
  lemma OwnerCompletes(s: Store, t: ThreadId, client: Option<nat>, op: Operation) returns (end: Store)
    requires Sound(s) && Unlocked(s, t) && op.Complete? && OnThread(s, op.run, t)
    requires CompletionError(s.rows[op.run], op.token, op.messages, op.answer, s.clock) == None
    ensures Leads(s, [Begin(t, client, op), Advance(t), Advance(t), Advance(t), Finish(t)], end)
    ensures HasCompleted(s, t, op, end)
  {
    hide Sound, CompletionError, Leads, LastSequence, HasCompleted, Committed, CompletedTxn, MayBegin;
    LastIsLength(s, t);
    RunBegins(s, t, op);
    CompletionSteps(s, t, client, op);
    CompletedMeans(s, t, client, op);
    end := Committed(s, t, CompletedTxn(s, t, client, op));
  }

  /** A sound thread is numbered to its length. */
  lemma LastIsLength(s: Store, t: ThreadId)
    requires Sound(s) && t in s.threads
    ensures LastSequence(s.threads[t]) == |s.threads[t]|
  {
    LastOfNumbered(MessagesIn(s.log, t));
  }

  lemma CompletedMeans(s: Store, t: ThreadId, client: Option<nat>, op: Operation)
    requires t in s.threads && op.Complete? && op.run in s.rows
    ensures HasCompleted(s, t, op, Committed(s, t, CompletedTxn(s, t, client, op)))
  {
  }

  lemma OnlyClaimsWait(s: Store, t: ThreadId, x: Txn)
    requires !x.op.ClaimRun? || !x.phase.Timed?
    ensures !HeldUp(With(s, t, x), t)
  {
  }

  lemma RunBegins(s: Store, t: ThreadId, op: Operation)
    requires Unlocked(s, t) && WellFormed(op) && !(op.ClaimRun? || op.Append?) && OnThread(s, op.run, t)
    ensures MayBegin(s, t, op)
  {
  }

  /** An owner may complete exactly when its token is the run's, the lease has not run out, the run is
      running, and the response and the last assistant message are the run's own. */
  lemma CompletableIff(row: Row, token: Token, messages: seq<Message>, answer: Response, now: Time)
    requires row.status.Running?
    ensures CompletionError(row, token, messages, answer, now) == None <==>
              && row.claim.token == token && now < row.claim.lease
              && BelongsTo(answer, row.claim)
              && exists k | 0 <= k < |messages| :: IsLastAssistant(messages, k) && messages[k] == answer.message
  {
    LastAssistantIs(messages);
    if LastAssistant(messages).Some? {
      var k :| 0 <= k < |messages| && IsLastAssistant(messages, k) && LastAssistant(messages) == Some(messages[k]);
    }
  }

  predicate IsLastAssistant(messages: seq<Message>, k: nat) {
    k < |messages| && messages[k].role.Assistant? && forall j | k < j < |messages| :: !messages[j].role.Assistant?
  }

  lemma LastAssistantOn(messages: seq<Message>, k: nat)
    requires |messages| > 0 && k < |messages| - 1 && !messages[|messages| - 1].role.Assistant?
    ensures IsLastAssistant(messages, k) <==> IsLastAssistant(messages[..|messages| - 1], k)
  {
    assert forall j | 0 <= j < |messages| - 1 :: messages[..|messages| - 1][j] == messages[j];
  }

  lemma {:induction false} LastAssistantIs(messages: seq<Message>)
    ensures match LastAssistant(messages)
            case None => forall k | 0 <= k < |messages| :: !messages[k].role.Assistant?
            case Some(m) => exists k | 0 <= k < |messages| :: IsLastAssistant(messages, k) && messages[k] == m
    ensures forall k | 0 <= k < |messages| && IsLastAssistant(messages, k) ::
              LastAssistant(messages) == Some(messages[k])
  {
    if |messages| > 0 {
      var init, n := messages[..|messages| - 1], |messages| - 1;
      LastAssistantIs(init);
      forall k | 0 <= k < n
        ensures messages[k] == init[k]
        ensures !messages[n].role.Assistant? ==> (IsLastAssistant(messages, k) <==> IsLastAssistant(init, k))
      {
        if !messages[n].role.Assistant? { LastAssistantOn(messages, k); }
      }
      if messages[n].role.Assistant? {
        assert IsLastAssistant(messages, n);
      } else {
        assert LastAssistant(messages) == LastAssistant(init);
        hide LastAssistant, IsLastAssistant;
      }
    }
  }

  // ----- claiming -----

  /** Nobody else is about to insert the same run or the same key. */
  ghost predicate Unopposed(s: Store, t: ThreadId, op: Operation)
    requires op.ClaimRun?
  {
    forall u, r | u in s.txns && r in s.txns[u].staged && r !in s.rows ::
      !Clashes(s.txns[u].staged[r].claim, NewRow(op, t, s.clock).claim)
  }

  /** The expiry a claim stages for the one unfinished run of its thread, if there is one. */
  ghost function Expiring(s: Store, t: ThreadId): map<RunId, Row> {
    match FindActive(s.rows, t)
    case None => map[]
    case Some(a) => map[a := Expire(s.rows[a], s.clock)]
  }

  /** Every unfinished run of the thread is out of time. */
  ghost predicate NoneLive(s: Store, t: ThreadId) {
    forall r | r in s.rows && s.rows[r].claim.thread == t && Active(s.rows[r]) :: Expired(s.rows[r], s.clock)
  }

  ghost function ClaimedTxn(s: Store, t: ThreadId, client: Option<nat>, op: Operation): Txn
    requires op.ClaimRun?
  {
    var row := NewRow(op, t, s.clock);
    Start(client, op).(phase := Done(Created(row)), staged := Expiring(s, t)[op.run := row])
  }

  /** The three steps of a claim that finds its key and its thread free. */
  lemma ClaimNexts(s: Store, t: ThreadId, client: Option<nat>, op: Operation)
    requires t in s.threads && op.ClaimRun? && op.run !in s.rows && NoneLive(s, t)
    requires FindKey(s.rows, op.agent.id, op.key) == None
    ensures var x1 := Start(client, op).(phase := KeyFree);
            var x2 := Start(client, op).(phase := Timed(s.clock), staged := Expiring(s, t));
            && NextIn(s, t, Start(client, op)) == x1 && NextIn(s, t, x1) == x2
            && NextIn(s, t, x2) == ClaimedTxn(s, t, client, op)
  {
  }

  lemma ClaimSteps(s: Store, t: ThreadId, client: Option<nat>, op: Operation)
    requires Unlocked(s, t) && op.ClaimRun? && op.run !in s.rows && Unopposed(s, t, op) && NoneLive(s, t)
    requires FindKey(s.rows, op.agent.id, op.key) == None
    ensures Leads(s, [Begin(t, client, op), Advance(t), Advance(t), Advance(t), Finish(t)],
                  Committed(s, t, ClaimedTxn(s, t, client, op)))
  {
    ClaimNexts(s, t, client, op);
    hide Leads, HeldUp, Committed, Unopposed, Next;
    var x1 := Start(client, op).(phase := KeyFree);
    var x2 := Start(client, op).(phase := Timed(s.clock), staged := Expiring(s, t));
    OnlyClaimsWait(s, t, x1);
    Unheld(s, t, x2);
    ThreeSteps(s, t, client, op, x1, x2, ClaimedTxn(s, t, client, op));
  }

  /** The run is new and holds the thread for its whole lease; the thread's dead runs are expired, and
      nothing else changed. */
  ghost predicate HasClaimed(s: Store, t: ThreadId, op: Operation, end: Store)
    requires op.ClaimRun?
  {
    && end.threads == s.threads && end.log == s.log && end.clock == s.clock && end.txns == s.txns
    && end.rows.Keys == s.rows.Keys + {op.run}
    && end.rows[op.run] == Row(Claim(op.run, op.request, op.agent, t, op.key, op.hash, op.token,
                                     s.clock, s.clock + op.duration), Accepted, None, None, None)
    && forall r | r in s.rows ::
         if s.rows[r].claim.thread == t then FailedIfLapsed(s.rows[r], end.rows[r], s.clock)
         else end.rows[r] == s.rows[r]
  }

  /** A new key on a thread with no live run is claimed: a dead owner's run is expired, and the new run
      holds the thread for its whole lease. */
  lemma FreshClaimCreates(s: Store, t: ThreadId, client: Option<nat>, op: Operation) returns (end: Store)
    requires Sound(s) && Unlocked(s, t) && op.ClaimRun? && op.run !in s.rows && Unopposed(s, t, op)
    requires FindKey(s.rows, op.agent.id, op.key) == None && NoneLive(s, t)
    ensures Leads(s, [Begin(t, client, op), Advance(t), Advance(t), Advance(t), Finish(t)], end)
    ensures HasClaimed(s, t, op, end)
  {
    hide Sound, Leads, FindKey, Expiring, Unopposed, NoneLive, ExpiresExactly, HasClaimed, Committed, ClaimedTxn;
    ExpiringIsExact(s, t);
    ClaimSteps(s, t, client, op);
    ClaimedMeans(s, t, client, op);
    end := Committed(s, t, ClaimedTxn(s, t, client, op));
  }

  lemma Unheld(s: Store, t: ThreadId, x: Txn)
    requires t !in s.txns && x.op.ClaimRun? && x.phase == Timed(s.clock) && Unopposed(s, t, x.op)
    ensures !HeldUp(With(s, t, x), t)
  {
  }

  ghost predicate ExpiresExactly(s: Store, t: ThreadId) {
    forall r | r in s.rows ::
      (s.rows + Expiring(s, t))[r] == if s.rows[r].claim.thread == t then Expire(s.rows[r], s.clock) else s.rows[r]
  }

  lemma ClaimedMeans(s: Store, t: ThreadId, client: Option<nat>, op: Operation)
    requires t in s.threads && op.ClaimRun? && op.run !in s.rows && ExpiresExactly(s, t)
    ensures HasClaimed(s, t, op, Committed(s, t, ClaimedTxn(s, t, client, op)))
  {
    hide Expiring;
    var end := Committed(s, t, ClaimedTxn(s, t, client, op));
    assert s.threads[t] + [] == s.threads[t];
    assert end.rows == (s.rows + Expiring(s, t))[op.run := NewRow(op, t, s.clock)];
    assert (s.rows + Expiring(s, t)).Keys == s.rows.Keys by { ExpiringIsThere(s, t); }
    assert s.log + [] == s.log;
  }

  lemma ExpiringIsThere(s: Store, t: ThreadId)
    ensures Expiring(s, t).Keys <= s.rows.Keys
  {
  }

  /** A thread has at most one unfinished run, so expiring the one found expires all there are. */
  lemma ExpiringIsExact(s: Store, t: ThreadId)
    requires Sound(s) && NoneLive(s, t)
    ensures ExpiresExactly(s, t)
  {
    var active := FindActive(s.rows, t);
    forall r | r in s.rows
      ensures (s.rows + Expiring(s, t))[r]
           == if s.rows[r].claim.thread == t then Expire(s.rows[r], s.clock) else s.rows[r]
    {
      assert active.Some? && active.value != r ==> Compatible(s.rows[r], s.rows[active.value]);
    }
  }

  // ----- settling -----

  /** A transaction of one step, which it does not wait for. */
  lemma OneStep(s: Store, t: ThreadId, client: Option<nat>, op: Operation, x1: Txn)
    requires Unlocked(s, t) && MayBegin(s, t, op) && !op.ClaimRun? && !op.Complete?
    requires !op.Append? ==> op.run in s.rows
    requires x1 == NextIn(s, t, Start(client, op)) && x1.phase.Done? && !x1.phase.reply.Refused?
    ensures Leads(s, [Begin(t, client, op), Advance(t), Finish(t)], Committed(s, t, x1))
  {
    hide Leads, HeldUp, Next;
    var x, end := Start(client, op), Committed(s, t, x1);
    Ends(s, t, x1);
    OnlyClaimsWait(s, t, x);
    StepsOn(s, t, x, [Finish(t)], end);
    Begins(s, t, client, op, [Advance(t)] + [Finish(t)], end);
    assert [Begin(t, client, op)] + ([Advance(t)] + [Finish(t)]) == [Begin(t, client, op), Advance(t), Finish(t)];
  }

  /** One row became `after`, and nothing else changed. */
  ghost predicate HasSettled(s: Store, run: RunId, after: Row, end: Store) {
    end == s.(rows := s.rows[run := after])
  }

  lemma SettledMeans(s: Store, t: ThreadId, x: Txn, run: RunId, after: Row)
    requires t in s.threads && !x.op.Complete? && !x.op.Append?
    requires x.staged == map[run := after] && x.batch == []
    ensures HasSettled(s, run, after, Committed(s, t, x))
  {
    assert s.threads[t] + [] == s.threads[t];
    assert s.threads[t := s.threads[t]] == s.threads;
    assert s.rows + map[run := after] == s.rows[run := after];
    assert s.log + [] == s.log;
  }

  /** A transaction that settles one run, from its lock to its commit. */
  lemma Settles(s: Store, t: ThreadId, client: Option<nat>, op: Operation, after: Row)
    requires op.Transition? || op.FailIfRunning? || op.Recover? || op.Sweep?
    requires Unlocked(s, t) && WellFormed(op) && OnThread(s, op.run, t)
    requires Outcome(op, s.rows[op.run], s.clock) == Ok(after)
    ensures Leads(s, [Begin(t, client, op), Advance(t), Finish(t)],
                  s.(rows := s.rows[op.run := after]))
  {
    hide Leads, HeldUp, Outcome, Committed;
    var x := NextIn(s, t, Start(client, op));
    RunBegins(s, t, op);
    OneStep(s, t, client, op, x);
    SettledMeans(s, t, x, op.run, after);
  }

  /** Cleaning up with the right token always leaves the run over: with the failure given if it was
      still live, as expired if its lease had run out, and otherwise exactly as it was. */
  lemma {:induction false} CleanupSettles(s: Store, t: ThreadId, client: Option<nat>, op: Operation)
    returns (after: Row)
    requires Sound(s) && Unlocked(s, t) && op.FailIfRunning? && WellFormed(op)
    requires OnThread(s, op.run, t) && s.rows[op.run].claim.token == op.token
    ensures Leads(s, [Begin(t, client, op), Advance(t), Finish(t)], s.(rows := s.rows[op.run := after]))
    ensures CleanedUp(s.rows[op.run], after, op.code, op.outcome, s.clock)
  {
    hide Leads;
    assert RowOk(s.rows[op.run], s.clock);
    after := Outcome(op, s.rows[op.run], s.clock).value;
    Settles(s, t, client, op, after);
  }

  /** A recovery, or a sweep's visit to one run, fails it exactly if it is unfinished and out of time. */
  lemma {:induction false} RecoverySettles(s: Store, t: ThreadId, client: Option<nat>, op: Operation)
    returns (after: Row)
    requires Unlocked(s, t) && (op.Recover? || op.Sweep?) && OnThread(s, op.run, t)
    ensures Leads(s, [Begin(t, client, op), Advance(t), Finish(t)], s.(rows := s.rows[op.run := after]))
    ensures FailedIfLapsed(s.rows[op.run], after, s.clock)
  {
    hide Leads;
    after := Outcome(op, s.rows[op.run], s.clock).value;
    Settles(s, t, client, op, after);
  }

  /** However its owner died, an unfinished run can be recovered as soon as its lease has ended: wait that
      long, and a recovery or a sweep fails it. */
  lemma DeadRunIsRecoverable(s: Store, t: ThreadId, client: Option<nat>, op: Operation)
    returns (wait: nat, after: Row)
    requires Unlocked(s, t) && (op.Recover? || op.Sweep?) && OnThread(s, op.run, t)
    requires s.rows[op.run].status == Accepted || s.rows[op.run].status == Running
    ensures s.rows[op.run].claim.lease <= s.clock ==> wait == 0
    ensures s.clock < s.rows[op.run].claim.lease ==> s.clock + wait == s.rows[op.run].claim.lease
    ensures Lapsed(s.rows[op.run], after, s.clock + wait)
    ensures Leads(s, [Tick(wait), Begin(t, client, op), Advance(t), Finish(t)],
                  s.(clock := s.clock + wait, rows := s.rows[op.run := after]))
  {
    var lease := s.rows[op.run].claim.lease;
    wait := if lease <= s.clock then 0 else lease - s.clock;
    var rest := [Begin(t, client, op), Advance(t), Finish(t)];
    var later := Apply(s, Tick(wait));
    after := RecoverySettles(later, t, client, op);
    assert ([Tick(wait)] + rest)[1..] == rest && [Tick(wait)] + rest == [Tick(wait), rest[0], rest[1], rest[2]];
  }

  /** An accepted run may start, and a running one may fail or be blocked. */
  ghost predicate MayBecome(before: Status, after: Status) {
    (before == Accepted && after == Running) || (before == Running && (after == Failed || after == Blocked))
  }

  /** The owner, in time, moves its run on: it keeps its claim and response, takes the code given, and is
      over from now on unless it only started. */
  lemma {:induction false} TransitionSettles(s: Store, t: ThreadId, client: Option<nat>, op: Operation)
    returns (after: Row)
    requires Sound(s) && Unlocked(s, t) && op.Transition? && OnThread(s, op.run, t)
    requires s.rows[op.run].claim.token == op.token && s.clock < s.rows[op.run].claim.lease
    requires MayBecome(s.rows[op.run].status, op.status) && op.response == None
    ensures Leads(s, [Begin(t, client, op), Advance(t), Finish(t)], s.(rows := s.rows[op.run := after]))
    ensures after == Row(s.rows[op.run].claim, op.status, None, op.error,
                         if op.status == Running then None else Some(s.clock))
  {
    hide Leads;
    assert RowOk(s.rows[op.run], s.clock);
    after := Outcome(op, s.rows[op.run], s.clock).value;
    Settles(s, t, client, op, after);
  }

  /** An append outside any run becomes the end of the thread, numbered on. */
  lemma {:induction false} AppendGoesOn(s: Store, t: ThreadId, client: Option<nat>, op: Operation)
    requires Sound(s) && Unlocked(s, t) && op.Append?
    ensures Leads(s, [Begin(t, client, op), Advance(t), Finish(t)],
                  s.(threads := s.threads[t := s.threads[t] + Numbered(|s.threads[t]|, op.messages)],
                     log := s.log + [Commit(t, op.messages, None)]))
  {
    LastIsLength(s, t);
    hide Leads, Sound, LastSequence;
    OneStep(s, t, client, op, NextIn(s, t, Start(client, op)));
    assert s.rows + map[] == s.rows;
  }

  // ----- refusals -----

  /** The owner check, in a transition or a completion, fails for a foreign token or an unfinished run
      whose lease has ended. */
  ghost predicate Disowned(row: Row, token: Token, now: Time) {
    row.claim.token != token || ((row.status == Accepted || row.status == Running) && row.claim.lease <= now)
  }

  /** A transition is refused for its owner first, then for a change that is not allowed or a response
      that only a completion may bring; otherwise it is made. */
  lemma {:induction false} TransitionAnswers(s: Store, t: ThreadId)
    requires Enabled(s, Advance(t)) && s.txns[t].op.Transition? && s.txns[t].phase.Locked?
    ensures var op, reply := s.txns[t].op, Apply(s, Advance(t)).txns[t].phase;
            var row := s.rows[op.run];
            && reply.Done?
            && (reply.reply == Refused(OwnershipLost) <==> Disowned(row, op.token, s.clock))
            && (reply.reply == Refused(InvalidTransition) <==>
                  !Disowned(row, op.token, s.clock)
                  && (!MayBecome(row.status, op.status) || op.response != None))
            && (reply.reply.Settled? <==>
                  !Disowned(row, op.token, s.clock) && MayBecome(row.status, op.status) && op.response == None)
  {
  }

  /** A cleanup is refused for a foreign token alone. */
  lemma {:induction false} CleanupAnswers(s: Store, t: ThreadId)
    requires Enabled(s, Advance(t)) && s.txns[t].op.FailIfRunning? && s.txns[t].phase.Locked?
    ensures var op, reply := s.txns[t].op, Apply(s, Advance(t)).txns[t].phase;
            && reply.Done?
            && (if s.rows[op.run].claim.token != op.token then reply.reply == Refused(OwnershipLost)
                else reply.reply.Settled?)
  {
  }

  /** A completion's first check refuses for the owner first, then for a run that is not running, a
      response that is not the run's, or a last assistant message that is not the response's. */
  lemma {:induction false} CompletionAnswers(s: Store, t: ThreadId)
    requires Enabled(s, Advance(t)) && s.txns[t].op.Complete? && s.txns[t].phase.Locked?
    ensures var op, phase := s.txns[t].op, Apply(s, Advance(t)).txns[t].phase;
            var row := s.rows[op.run];
            var mine := && op.answer.run == row.claim.run && op.answer.request == row.claim.request
                        && op.answer.thread == row.claim.thread && op.answer.agent == row.claim.agent;
            var told := exists k | 0 <= k < |op.messages| ::
                          IsLastAssistant(op.messages, k) && op.messages[k] == op.answer.message;
            if Disowned(row, op.token, s.clock) then phase == Done(Refused(OwnershipLost))
            else if row.status != Running || !mine || !told then phase == Done(Refused(InvalidTransition))
            else phase == Approved
  {
    var op := s.txns[t].op;
    LastAssistantIs(op.messages);
    if LastAssistant(op.messages).Some? {
      var k :| 0 <= k < |op.messages| && IsLastAssistant(op.messages, k)
               && LastAssistant(op.messages) == Some(op.messages[k]);
    }
  }

  /** A completion's second check refuses for the owner alone. */
  lemma {:induction false} FinalCheckAnswers(s: Store, t: ThreadId)
    requires Enabled(s, Advance(t)) && s.txns[t].op.Complete? && s.txns[t].phase.Written?
    ensures var op, phase := s.txns[t].op, Apply(s, Advance(t)).txns[t].phase;
            var row := s.rows[op.run];
            if Disowned(row, op.token, s.clock) then phase == Done(Refused(OwnershipLost))
            else phase == Done(Settled(Row(row.claim, Succeeded, Some(op.answer), None, Some(s.clock))))
  {
  }

  /** The one run that has this key of this agent. */
  ghost predicate HasKey(row: Row, agent: Agent, key: Option<string>) {
    key != None && row.claim.key == key && row.claim.agent.id == agent.id
  }

  /** What a look-up by key answers, wherever a claim makes it. */
  ghost predicate AnswersKey(op: Operation, row: Row, reply: Reply)
    requires op.ClaimRun?
  {
    reply == if row.claim.hash == op.hash then Existing(row) else Refused(IdempotencyConflict)
  }

  /** A claim whose key is taken answers with the run that has it, if the request is the same, and is in
      conflict otherwise. */
  lemma {:induction false} ClaimAnswersKey(s: Store, t: ThreadId, r: RunId)
    requires Sound(s) && Enabled(s, Advance(t)) && s.txns[t].op.ClaimRun?
    requires s.txns[t].phase.Locked? || s.txns[t].phase.KeyTaken?
    requires r in s.rows && HasKey(s.rows[r], s.txns[t].op.agent, s.txns[t].op.key)
    ensures var phase := Apply(s, Advance(t)).txns[t].phase;
            phase.Done? && AnswersKey(s.txns[t].op, s.rows[r], phase.reply)
  {
    var op := s.txns[t].op;
    OneKey(s, op.agent, op.key, r);
    hide Sound, HeldUp, FindKey;
  }

  lemma OneKey(s: Store, agent: Agent, key: Option<string>, r: RunId)
    requires Sound(s) && r in s.rows && HasKey(s.rows[r], agent, key)
    ensures FindKey(s.rows, agent.id, key) == Some(r)
  {
    var rows := s.rows;
    assert RowsOk(rows, s.clock);
    hide Sound, RowOk;
    var found := FindKey(rows, agent.id, key);
    assert forall q | q in rows && q != r && HasKey(rows[q], agent, key) :: Compatible(rows[q], rows[r]);
  }

  lemma OneUnfinished(s: Store, t: ThreadId, r: RunId)
    requires Sound(s) && r in s.rows && s.rows[r].claim.thread == t && Active(s.rows[r])
    ensures FindActive(s.rows, t) == Some(r)
  {
    var rows := s.rows;
    assert RowsOk(rows, s.clock);
    hide Sound;
    var found := FindActive(rows, t);
    assert RowOk(rows[r], s.clock);
    assert forall q | q in rows && q != r && rows[q].claim.thread == t ::
             Compatible(rows[q], rows[r]) && RowOk(rows[q], s.clock);
  }

  /** Some run of the thread is unfinished and in time. */
  ghost predicate ThreadIsLive(rows: map<RunId, Row>, t: ThreadId, now: Time) {
    exists r | r in rows && rows[r].claim.thread == t ::
      (rows[r].status == Accepted || rows[r].status == Running) && now < rows[r].claim.lease
  }

  /** Whatever run the thread had is failed if its lease has ended, and every other row is as it was. */
  ghost predicate ThreadIsFreed(rows: map<RunId, Row>, staged: map<RunId, Row>, t: ThreadId, now: Time) {
    && staged.Keys <= rows.Keys
    && forall r | r in rows ::
         if rows[r].claim.thread == t then FailedIfLapsed(rows[r], (rows + staged)[r], now) else r !in staged
  }

  lemma LookFindsThread(x: Txn, t: ThreadId, rows: map<RunId, Row>, clock: Time)
    requires x.op.ClaimRun? && x.phase.KeyFree? && x.staged == map[]
    requires forall r | r in rows && rows[r].claim.thread == t && Active(rows[r]) :: FindActive(rows, t) == Some(r)
    ensures var y := NextClaim(x, t, rows, clock);
            if ThreadIsLive(rows, t, clock) then y.phase == Done(Refused(ThreadBusy))
            else y.phase == Timed(clock) && ThreadIsFreed(rows, y.staged, t, clock)
  {
    hide FindKey;
    assert rows + map[] == rows;
  }

  /** A claim whose key is free goes on; on a thread with a live run it is turned away, and otherwise it
      stages the failure of the thread's dead run, if it has one, and notes the time. */
  lemma {:induction false} ClaimFindsThread(s: Store, t: ThreadId)
    requires Sound(s) && Enabled(s, Advance(t)) && s.txns[t].op.ClaimRun? && s.txns[t].phase.KeyFree?
    ensures var x := Apply(s, Advance(t)).txns[t];
            if ThreadIsLive(s.rows, t, s.clock) then x.phase == Done(Refused(ThreadBusy))
            else x.phase == Timed(s.clock) && ThreadIsFreed(s.rows, x.staged, t, s.clock)
  {
    forall r | r in s.rows && s.rows[r].claim.thread == t && Active(s.rows[r])
      ensures FindActive(s.rows, t) == Some(r)
    {
      OneUnfinished(s, t, r);
    }
    assert PhaseOk(s.txns[t], t, s.rows, s.threads[t], s.clock);
    hide Sound, HeldUp, PhaseOk, NextClaim, ThreadIsLive, ThreadIsFreed;
    LookFindsThread(s.txns[t], t, s.rows, s.clock);
  }

  /** The insert: a key taken meanwhile sends the claim back to look it up, a run id taken meanwhile fails
      it, and otherwise the run is created as it was claimed. */
  lemma {:induction false} ClaimInserts(s: Store, t: ThreadId)
    requires Sound(s) && Enabled(s, Advance(t)) && s.txns[t].op.ClaimRun? && s.txns[t].phase.Timed?
    ensures var op, now, x := s.txns[t].op, s.txns[t].phase.now, Apply(s, Advance(t)).txns[t];
            var row := Row(Claim(op.run, op.request, op.agent, t, op.key, op.hash, op.token, now, now + op.duration),
                           Accepted, None, None, None);
            if exists r | r in s.rows :: HasKey(s.rows[r], op.agent, op.key) then x.phase == KeyTaken
            else if op.run in s.rows then x.phase == Done(Refused(DuplicateRun))
            else x.phase == Done(Created(row)) && x.staged == s.txns[t].staged[op.run := row]
  {
    hide Sound, HeldUp;
  }
}
