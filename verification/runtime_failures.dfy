/** What becomes of a call that fails, and of one that repeats another: from before the failure, or the
    arrival, to the end. */
module RuntimeFailures {
  import opened Wrappers

  import opened RunRows
  import opened RunStore
  import opened RuntimeCalls
  import opened RuntimeProgress
  import RunProgress
  import RunSound
  import RuntimeLaws
  import RuntimeOwners

  // ----- interruptions -----

  lemma InterruptCleans(w: World, p: nat, cancelled: bool, code: string, outcome: Status)
    requires RuntimeOwners.Owning(w) && p in w.calls && p in w.store.rows
    requires RuntimeOwners.Underway(w.calls[p].stage) && (outcome == Status.Failed || outcome == Status.Blocked)
    ensures Can(w, Interrupt(p, cancelled, code, outcome))
    ensures Do(w, Interrupt(p, cancelled, code, outcome))
         == w.(calls := w.calls[p := Call(w.calls[p].request, Cleaning(cancelled, code, outcome))])
  {
    RuntimeOwners.OwnerIsPastClaim(w, p);
  }

  /** Interrupt any call whose run exists, whatever it was doing, and let its cleanup run: the run is over,
      as it was if it was over before, and otherwise with the code and outcome of the interruption or the
      end of its lease; and the call returns the stored response if the run had succeeded and the caller
      was not cancelled, and raises otherwise. */
  lemma InterruptedCallSettles(w: World, p: nat, t: ThreadId, cancelled: bool, code: string, outcome: Status)
    returns (end: World)
    requires RuntimeLaws.Faithful(w) && RuntimeOwners.Owning(w) && p in w.calls
    requires RuntimeOwners.Underway(w.calls[p].stage) && (outcome == Status.Failed || outcome == Status.Blocked)
    requires p in w.store.rows && w.store.rows[p].claim.thread == t && RunProgress.Unlocked(w.store, t)
    ensures Leads(w, [Interrupt(p, cancelled, code, outcome)] + Steps(p, t, 1), end)
    ensures IsReconciled(w, p, cancelled, code, outcome, end)
  {
    var step := Interrupt(p, cancelled, code, outcome);
    InterruptCleans(w, p, cancelled, code, outcome);
    RuntimeLaws.WorldStepKeeps(w, step);
    One(w, step);
    var w1 := Do(w, step);
    hide RuntimeLaws.Faithful, RuntimeOwners.Owning, Can, Do, Leads, IsReconciled;
    end := UncertainCallIsReconciled(w1, p, t);
    LeadsOn(w, [step], w1, Steps(p, t, 1), end);
    ReconciledFromBefore(w, p, cancelled, code, outcome, end);
  }

  lemma ReconciledFromBefore(w: World, p: nat, cancelled: bool, code: string, outcome: Status, end: World)
    requires p in w.calls && p in w.store.rows
    requires IsReconciled(w.(calls := w.calls[p := Call(w.calls[p].request, Cleaning(cancelled, code, outcome))]),
                          p, cancelled, code, outcome, end)
    ensures IsReconciled(w, p, cancelled, code, outcome, end)
  {
    hide CleanedUp;
    assert w.calls[p := Call(w.calls[p].request, Cleaning(cancelled, code, outcome))][p := end.calls[p]]
        == w.calls[p := end.calls[p]];
  }

  /** The same in every run of the world. */
  lemma AnyInterruptedCallSettles(steps: seq<WorldStep>, lease: nat, p: nat, t: ThreadId, cancelled: bool,
                                  code: string, outcome: Status)
    returns (end: World)
    requires RuntimeLaws.Possible(steps, lease) && (outcome == Status.Failed || outcome == Status.Blocked)
    requires p in RuntimeLaws.After(steps, lease).calls && p in RuntimeLaws.After(steps, lease).store.rows
    requires RuntimeOwners.Underway(RuntimeLaws.After(steps, lease).calls[p].stage)
    requires RuntimeLaws.After(steps, lease).store.rows[p].claim.thread == t
    requires RunProgress.Unlocked(RuntimeLaws.After(steps, lease).store, t)
    ensures Leads(RuntimeLaws.After(steps, lease), [Interrupt(p, cancelled, code, outcome)] + Steps(p, t, 1), end)
    ensures IsReconciled(RuntimeLaws.After(steps, lease), p, cancelled, code, outcome, end)
  {
    hide Leads, IsReconciled;
    RuntimeLaws.AlwaysFaithful(steps, lease);
    RuntimeOwners.AlwaysOwning(steps, lease);
    end := InterruptedCallSettles(RuntimeLaws.After(steps, lease), p, t, cancelled, code, outcome);
  }

  // ----- a caller that does not wait for the cleanup -----

  /** The run of a call is cleaned up, the call raised, and nothing else in the store changed. */
  ghost predicate IsCleanedUp(w: World, p: nat, code: string, outcome: Status, end: World)
    requires p in w.calls && p in w.store.rows
  {
    && p in end.store.rows && CleanedUp(w.store.rows[p], end.store.rows[p], code, outcome, w.store.clock)
    && end.store.rows == w.store.rows[p := end.store.rows[p]]
    && end.store.threads == w.store.threads && end.executed == w.executed
    && end.calls == w.calls[p := Call(w.calls[p].request, Raised)]
  }

  lemma FinishLeads(w: World, p: nat, t: ThreadId, x: Txn)
    requires p in w.calls && Issues(w.calls[p].stage) && RunProgress.Unlocked(w.store, t)
    requires x.phase.Done? && !x.phase.reply.Refused?
    ensures Leads(Holding(w, p, t, x), [Outside(Finish(t))],
                  World(RunProgress.Committed(w.store, t, x), w.calls[p := Waits(w, p)], w.executed, w.lease))
  {
    assert RunProgress.With(w.store, t, x).txns - {t} == w.store.txns;
    One(Holding(w, p, t, x), Outside(Finish(t)));
  }

  lemma AbandonedMeans(w: World, p: nat, t: ThreadId, x: Txn, settled: Row, code: string, outcome: Status)
    requires p in w.calls && w.calls[p].stage.Abandoned? && p in w.store.rows && t in w.store.threads
    requires x.staged == map[p := settled] && x.batch == []
    requires CleanedUp(w.store.rows[p], settled, code, outcome, w.store.clock)
    ensures IsCleanedUp(w, p, code, outcome,
                        World(RunProgress.Committed(w.store, t, x), w.calls[p := Waits(w, p)], w.executed, w.lease))
  {
    assert w.store.threads[t] + [] == w.store.threads[t];
    assert w.store.threads[t := w.store.threads[t]] == w.store.threads;
    assert w.store.rows + map[p := settled] == w.store.rows[p := settled];
  }

  lemma AbandonedIssues(w: World, p: nat, t: ThreadId, op: Operation, x1: Txn)
    requires p in w.calls && w.calls[p].stage.Abandoned? && op == OperationOf(w, p) && WellFormed(op)
    requires p in w.store.rows && w.store.rows[p].claim.thread == t && RunProgress.Unlocked(w.store, t)
    requires RunProgress.NextIn(w.store, t, Start(Some(p), op)) == x1
    ensures Leads(w, [Issue(p)] + [Outside(Advance(t))], Holding(w, p, t, x1))
  {
    hide RunProgress.NextIn;
    var x0 := Start(Some(p), op);
    One(w, Issue(p));
    assert Do(w, Issue(p)) == Holding(w, p, t, x0);
    RunProgress.OnlyClaimsWait(w.store, t, x0);
    AdvanceLeads(w, p, t, x0);
    hide Leads, Holding;
    LeadsOn(w, [Issue(p)], Holding(w, p, t, x0), [Outside(Advance(t))], Holding(w, p, t, x1));
  }

  lemma AbandonedCleans(w: World, p: nat, t: ThreadId, op: Operation, settled: Row) returns (end: World)
    requires p in w.calls && w.calls[p].stage.Abandoned? && op == OperationOf(w, p) && WellFormed(op)
    requires p in w.store.rows && w.store.rows[p].claim.thread == t && RunProgress.Unlocked(w.store, t)
    requires w.store.rows[p].claim.token == p
    requires AfterFailure(w.store.rows[p], op.token, op.code, op.outcome, w.store.clock) == Ok(settled)
    requires CleanedUp(w.store.rows[p], settled, op.code, op.outcome, w.store.clock)
    ensures Leads(w, [Issue(p)] + [Outside(Advance(t))] + [Outside(Finish(t))], end)
    ensures IsCleanedUp(w, p, op.code, op.outcome, end)
  {
    var x1 := Start(Some(p), op).(phase := Done(Settled(settled)), staged := map[p := settled]);
    CleanNext(w.store, t, p, op);
    AbandonedMeans(w, p, t, x1, settled, op.code, op.outcome);
    hide RunProgress.NextIn, AfterFailure, CleanedUp, Leads, Holding, IsCleanedUp, RunProgress.Committed;
    AbandonedIssues(w, p, t, op, x1);
    FinishLeads(w, p, t, x1);
    end := World(RunProgress.Committed(w.store, t, x1), w.calls[p := Waits(w, p)], w.executed, w.lease);
    LeadsOn(w, [Issue(p)] + [Outside(Advance(t))], Holding(w, p, t, x1), [Outside(Finish(t))], end);
  }

  /** A cleanup whose caller left before it began runs all the same. */
  lemma AbandonedCleanupSettles(w: World, p: nat, t: ThreadId) returns (end: World)
    requires RuntimeLaws.Faithful(w) && p in w.calls && w.calls[p].stage.Abandoned?
    requires w.calls[p].stage.outcome == Status.Failed || w.calls[p].stage.outcome == Status.Blocked
    requires p in w.store.rows && w.store.rows[p].claim.thread == t && RunProgress.Unlocked(w.store, t)
    ensures Leads(w, [Issue(p), Outside(Advance(t)), Outside(Finish(t))], end)
    ensures IsCleanedUp(w, p, w.calls[p].stage.code, w.calls[p].stage.outcome, end)
  {
    hide RunSound.Sound, RuntimeLaws.TxnsOwned, RuntimeLaws.CallsOk, RuntimeLaws.ExecutedOk, Leads, IsCleanedUp;
    assert RuntimeLaws.Mine(w.store.rows[p].claim, p, w.calls[p].request);
    var op := OperationOf(w, p);
    var settled := AfterFailure(w.store.rows[p], op.token, op.code, op.outcome, w.store.clock).value;
    end := AbandonedCleans(w, p, t, op, settled);
    assert [Issue(p)] + [Outside(Advance(t))] + [Outside(Finish(t))]
        == [Issue(p), Outside(Advance(t)), Outside(Finish(t))];
  }

  /** So does one whose caller leaves now: the call raises at once, and its run is over in the end. */
  lemma GivenUpCleanupSettles(w: World, p: nat, t: ThreadId) returns (end: World)
    requires RuntimeLaws.Faithful(w) && p in w.calls && w.calls[p].stage.Cleaning?
    requires w.calls[p].stage.outcome == Status.Failed || w.calls[p].stage.outcome == Status.Blocked
    requires p in w.store.rows && w.store.rows[p].claim.thread == t && RunProgress.Unlocked(w.store, t)
    ensures Can(w, GiveUp(p)) && HasRaised(Do(w, GiveUp(p)).calls[p].stage)
    ensures Leads(w, [GiveUp(p)] + [Issue(p), Outside(Advance(t)), Outside(Finish(t))], end)
    ensures IsCleanedUp(w, p, w.calls[p].stage.code, w.calls[p].stage.outcome, end)
  {
    hide RuntimeLaws.Faithful, Leads, Can, Do, IsCleanedUp;
    GiveUpAbandons(w, p);
    RuntimeLaws.WorldStepKeeps(w, GiveUp(p));
    One(w, GiveUp(p));
    end := AbandonedCleanupSettles(Do(w, GiveUp(p)), p, t);
    LeadsOn(w, [GiveUp(p)], Do(w, GiveUp(p)), [Issue(p), Outside(Advance(t)), Outside(Finish(t))], end);
    CleanedFromBefore(w, p, w.calls[p].stage.code, w.calls[p].stage.outcome, end);
  }

  lemma GiveUpAbandons(w: World, p: nat)
    requires p in w.calls && w.calls[p].stage.Cleaning?
    ensures Can(w, GiveUp(p))
    ensures var stage := w.calls[p].stage;
            Do(w, GiveUp(p))
            == w.(calls := w.calls[p := Call(w.calls[p].request, Abandoned(stage.code, stage.outcome))])
  {
  }

  lemma CleanedFromBefore(w: World, p: nat, code: string, outcome: Status, end: World)
    requires p in w.calls && p in w.store.rows
    requires IsCleanedUp(w.(calls := w.calls[p := Call(w.calls[p].request, Abandoned(code, outcome))]),
                         p, code, outcome, end)
    ensures IsCleanedUp(w, p, code, outcome, end)
  {
    hide CleanedUp;
    assert w.calls[p := Call(w.calls[p].request, Abandoned(code, outcome))][p := end.calls[p]]
        == w.calls[p := end.calls[p]];
  }

  // ----- calls that repeat another -----

  /** The run has the key of the request. */
  predicate HasKeyOf(row: Row, request: Request) {
    request.key != None && row.claim.key == request.key && row.claim.agent.id == request.agent.id
  }

  lemma KeyIsFound(w: World, r: RunId, request: Request)
    requires RuntimeLaws.Faithful(w) && r in w.store.rows && HasKeyOf(w.store.rows[r], request)
    ensures FindKey(w.store.rows, request.agent.id, request.key) == Some(r)
    ensures w.store.rows[r].claim.run == r
  {
    hide RuntimeLaws.RowsOwned, RuntimeLaws.TxnsOwned, RuntimeLaws.CallsOk, RuntimeLaws.ExecutedOk;
    RunProgress.OneKey(w.store, request.agent, request.key, r);
    RuntimeLaws.RowIdentity(w.store, r);
  }

  /** A look-up answers by the run that has the key: it refuses another request, recovers an unfinished
      run, replays a success, and refuses a run that came to nothing. */
  lemma LookUpAnswers(w: World, p: nat, r: RunId)
    requires RuntimeLaws.Faithful(w) && p in w.calls && w.calls[p].stage.Looking?
    requires r in w.store.rows && HasKeyOf(w.store.rows[r], w.calls[p].request)
    ensures Can(w, LookUp(p))
    ensures var row := w.store.rows[r];
            && (row.status == Succeeded ==> row.response.Some?)
            && Do(w, LookUp(p))
               == w.(calls := w.calls[p := Call(w.calls[p].request,
                       if row.claim.hash != w.calls[p].request.hash then Raised
                       else if row.status == Accepted || row.status == RunRows.Running then Recovering(r)
                       else if row.status == Succeeded then Returned(row.response.value)
                       else Raised)])
  {
    KeyIsFound(w, r, w.calls[p].request);
    RuntimeLaws.RowIsOk(w.store, r);
    hide RuntimeLaws.Faithful, FindKey;
  }

  /** A key that no run has lets the call go on to open its thread. */
  lemma NewKeyOpens(w: World, p: nat)
    requires p in w.calls && w.calls[p].stage.Looking?
    requires forall r | r in w.store.rows :: !HasKeyOf(w.store.rows[r], w.calls[p].request)
    ensures Can(w, LookUp(p)) && Do(w, LookUp(p)).calls[p].stage == Opening
  {
    var request := w.calls[p].request;
    var found := FindKey(w.store.rows, request.agent.id, request.key);
    if found.Some? { assert HasKeyOf(w.store.rows[found.value], request); }
  }

  lemma ArrivalLooks(w: World, p: nat, request: Request)
    requires RuntimeLaws.Faithful(w) && p !in w.calls && request.key != None
    ensures Can(w, Arrive(p, request)) && RuntimeLaws.Faithful(Do(w, Arrive(p, request)))
    ensures Do(w, Arrive(p, request)) == w.(calls := w.calls[p := Call(request, Looking)])
  {
    RuntimeLaws.WorldStepKeeps(w, Arrive(p, request));
    hide RuntimeLaws.Faithful;
  }

  /** An equal request with the key of a succeeded run is answered with that run's response, without a
      transaction and without starting an invoker. */
  lemma RepeatIsAnswered(w: World, p: nat, request: Request, r: RunId) returns (end: World)
    requires RuntimeLaws.Faithful(w) && p !in w.calls
    requires r in w.store.rows && HasKeyOf(w.store.rows[r], request) && w.store.rows[r].claim.hash == request.hash
    requires w.store.rows[r].status == Succeeded
    ensures Leads(w, [Arrive(p, request), LookUp(p)], end) && w.store.rows[r].response.Some?
    ensures end == w.(calls := w.calls[p := Call(request, Returned(w.store.rows[r].response.value))])
  {
    hide RuntimeLaws.Faithful, Leads, Can, Do;
    ArrivalLooks(w, p, request);
    var w1 := Do(w, Arrive(p, request));
    LookUpAnswers(w1, p, r);
    end := Do(w1, LookUp(p));
    One(w, Arrive(p, request));
    One(w1, LookUp(p));
    LeadsOn(w, [Arrive(p, request)], w1, [LookUp(p)], end);
    assert [Arrive(p, request)] + [LookUp(p)] == [Arrive(p, request), LookUp(p)];
    assert w1.calls[p := end.calls[p]] == w.calls[p := end.calls[p]];
  }

  lemma RecoverNext(s: Store, t: ThreadId, p: nat, r: RunId) returns (after: Row)
    requires t in s.threads && r in s.rows
    ensures FailedIfLapsed(s.rows[r], after, s.clock)
    ensures RunProgress.NextIn(s, t, Start(Some(p), Recover(r)))
         == Start(Some(p), Recover(r)).(phase := Done(Settled(after)), staged := map[r := after])
  {
    after := Expire(s.rows[r], s.clock);
  }

  lemma RecoveredMeans(w: World, p: nat, t: ThreadId, x: Txn, r: RunId, after: Row)
    requires p in w.calls && w.calls[p].stage == Recovering(r) && r in w.store.rows && t in w.store.threads
    requires x.op == Recover(r) && x.phase == Done(Settled(after)) && x.staged == map[r := after] && x.batch == []
    ensures Answered(w, p, t, x)
         == World(w.store.(rows := w.store.rows[r := after]),
                  w.calls[p := Call(w.calls[p].request, Replay(after, w.calls[p].request.hash))], w.executed, w.lease)
  {
    assert w.store.threads[t] + [] == w.store.threads[t];
    assert w.store.threads[t := w.store.threads[t]] == w.store.threads;
    assert w.store.rows + map[r := after] == w.store.rows[r := after];
    assert w.store.log + [] == w.store.log;
  }

  lemma RecoveredReplays(before: Row, after: Row, now: Time, hash: string)
    requires RowOk(before, now) && FailedIfLapsed(before, after, now)
    ensures after.status == Succeeded ==> after.response.Some?
    ensures Replay(after, hash) == if after.claim.hash == hash && after.status == Succeeded
                                   then Returned(after.response.value) else Raised
  {
  }

  /** A call that recovers the run with its key fails that run if its lease has ended, and touches nothing
      else; then it replays what the run came to, and refuses a run still unfinished, failed or blocked. */
  lemma RecoveryAnswers(w: World, p: nat, r: RunId, t: ThreadId) returns (after: Row, end: World)
    requires RuntimeLaws.Faithful(w) && p in w.calls && w.calls[p].stage == Recovering(r)
    requires r in w.store.rows && w.store.rows[r].claim.thread == t && RunProgress.Unlocked(w.store, t)
    ensures Leads(w, Steps(p, t, 1), end)
    ensures FailedIfLapsed(w.store.rows[r], after, w.store.clock)
    ensures end.store == w.store.(rows := w.store.rows[r := after]) && end.executed == w.executed
    ensures after.status == Succeeded ==> after.response.Some?
    ensures end.calls == w.calls[p := Call(w.calls[p].request,
                                           if after.claim.hash == w.calls[p].request.hash && after.status == Succeeded
                                           then Returned(after.response.value) else Raised)]
  {
    hide Leads, HeldUp, FindKey, RunProgress.NextIn, Answered, Next, Replay, FailedIfLapsed, MayBegin, Steps;
    RuntimeLaws.RowIsOk(w.store, r);
    hide RuntimeLaws.Faithful;
    after := RecoverNext(w.store, t, p, r);
    RecoveredReplays(w.store.rows[r], after, w.store.clock, w.calls[p].request.hash);
    RunProgress.RunBegins(w.store, t, Recover(r));
    var x1 := Start(Some(p), Recover(r)).(phase := Done(Settled(after)), staged := map[r := after]);
    RecoveredMeans(w, p, t, x1, r, after);
    OneStepLeads(w, p, t, Recover(r), x1);
    end := Answered(w, p, t, x1);
  }
}
