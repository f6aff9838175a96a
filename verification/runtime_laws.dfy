/** At-most-once execution and truthful answers, over every interleaving of calls, cancellations,
    lost replies, crashes, lease expiries and sweeps. */
module RuntimeLaws {
  import opened Wrappers

  import opened RunRows
  import opened RunStore
  import opened RunSound
  import opened RunSteps
  import RunLaws
  import opened RuntimeCalls

  // ----- the invariant -----

  /** The claim was made by this call for its own request. */
  predicate Mine(claim: Claim, p: nat, request: Request) {
    && claim.run == p && claim.token == p
    && claim.agent == request.agent && claim.key == request.key
    && claim.hash == request.hash && claim.request == request.request
  }

  /** Stages a call can be in once it has started the invoker. */
  predicate HasExecuted(stage: Stage) {
    stage.Executing? || stage.Completing? || stage.AwaitCompletion? || stage.Cleaning?
    || stage.AwaitCleanup? || IsOver(stage)
  }

  /** Stages a call can only be in once its claim is committed. */
  predicate HasClaimed(stage: Stage) {
    stage.Starting? || stage.AwaitStart? || stage.Ready? || stage.Executing? || stage.Completing?
    || stage.AwaitCompletion?
  }

  /** A transaction that a call began, and how far the call can be while it is open. */
  ghost predicate Owned(x: Txn, calls: map<nat, Call>, executed: seq<RunId>) {
    match x.op
    case ClaimRun(run, request, agent, key, hash, token, _) =>
      && x.client == Some(run) && token == run && run in calls
      && Mine(NewRow(x.op, 0, 0).claim, run, calls[run].request)
    case Transition(run, status, token, _, _) => x.client == Some(run) && token == run && status.Running?
    case Complete(run, token, _, answer) =>
      && x.client == Some(run) && token == run && run in executed && run in calls
      && (match calls[run].stage
          case AwaitCompletion(response) => response == answer
          case Cleaning(_, _, _) => true
          case AwaitCleanup(_) => true
          case other => IsOver(other))
    case FailIfRunning(run, token, _, _) => x.client == Some(run) && token == run
    case Recover(run) =>
      x.client.Some? ==>
        && x.client.value in calls
        && (calls[x.client.value].stage == AwaitRecovery(run) || IsOver(calls[x.client.value].stage))
    case Sweep(_) => x.client == None
    case Append(_) => x.client == None
  }

  /** A response that a succeeded run holds for this very request: the call's own run, or the run that
      has its key. */
  ghost predicate Durable(rows: map<RunId, Row>, p: nat, request: Request, response: Response) {
    exists r | r in rows :: Holds(rows[r], p, request, response)
  }

  predicate Holds(row: Row, p: nat, request: Request, response: Response) {
    && row.status.Succeeded? && row.response == Some(response)
    && row.claim.hash == request.hash
    && (row.claim.run == p
        || (request.key.Some? && row.claim.key == request.key && row.claim.agent.id == request.agent.id))
  }

  /** The run an idempotent call waits for has its key. */
  predicate Awaited(rows: map<RunId, Row>, run: RunId, request: Request) {
    run in rows && request.key.Some? && rows[run].claim.key == request.key
    && rows[run].claim.agent.id == request.agent.id
  }

  ghost predicate CallOk(p: nat, call: Call, rows: map<RunId, Row>, executed: seq<RunId>) {
    && (HasClaimed(call.stage) ==> p in rows)
    && (call.stage.Executing? || call.stage.Completing? ==> p in executed)
    && match call.stage
       case Recovering(run) => Awaited(rows, run, call.request)
       case AwaitRecovery(run) => Awaited(rows, run, call.request)
       case Returned(response) => Durable(rows, p, call.request, response)
       case Looking => call.request.key.Some?
       case _ => true
  }

  /** Executed runs are claimed, and no call starts its invoker twice. */
  ghost predicate ExecutedOk(executed: seq<RunId>, calls: map<nat, Call>, rows: map<RunId, Row>) {
    && (forall i | 0 <= i < |executed| ::
          executed[i] in calls && executed[i] in rows && HasExecuted(calls[executed[i]].stage))
    && (forall i, j | 0 <= i < j < |executed| :: executed[i] != executed[j])
  }

  ghost predicate RowsOwned(rows: map<RunId, Row>, calls: map<nat, Call>, executed: seq<RunId>) {
    forall r | r in rows ::
      && r in calls && Mine(rows[r].claim, r, calls[r].request)
      && (rows[r].status.Succeeded? ==> r in executed)
  }

  ghost predicate TxnsOwned(txns: map<ThreadId, Txn>, calls: map<nat, Call>, executed: seq<RunId>) {
    forall t | t in txns :: Owned(txns[t], calls, executed)
  }

  ghost predicate CallsOk(calls: map<nat, Call>, rows: map<RunId, Row>, executed: seq<RunId>) {
    forall p | p in calls :: CallOk(p, calls[p], rows, executed)
  }

  ghost predicate Faithful(w: World) {
    && Sound(w.store)
    && RowsOwned(w.store.rows, w.calls, w.executed)
    && TxnsOwned(w.store.txns, w.calls, w.executed)
    && CallsOk(w.calls, w.store.rows, w.executed)
    && ExecutedOk(w.executed, w.calls, w.store.rows)
  }

  // ----- how the store's steps look from outside -----

  lemma {:induction false} MovesEvolve(w: World, step: WorldStep, r: RunId)
    requires Sound(w.store) && Can(w, step) && r in w.store.rows
    ensures r in Do(w, step).store.rows && Evolves(w.store.rows[r], Do(w, step).store.rows[r])
  {
    if StoreStep(w, step).Some? { RunLaws.StepEvolves(w.store, StoreStep(w, step).value, r); }
  }

  /** Every transaction open after a step was open before it, with the same operation, unless the step
      began it. */
  lemma TxnsCarry(s: Store, step: Step, t: ThreadId)
    requires Enabled(s, step) && t in Apply(s, step).txns
    ensures (step.Begin? && step.thread == t)
            || (t in s.txns && Apply(s, step).txns[t].op == s.txns[t].op
                && Apply(s, step).txns[t].client == s.txns[t].client)
  {
  }

  /** A row that was not there before is the insert of a claim, and a run that newly succeeds is the
      subject of a completion. */
  lemma NewRowsAreClaims(s: Store, step: Step, r: RunId)
    requires Sound(s) && Enabled(s, step) && r in Apply(s, step).rows
    ensures r !in s.rows ==>
              && step.Finish? && s.txns[step.thread].op.ClaimRun? && s.txns[step.thread].op.run == r
              && Apply(s, step).rows[r].status.Accepted?
              && exists now :: Apply(s, step).rows[r] == NewRow(s.txns[step.thread].op, step.thread, now)
    ensures r in s.rows && Apply(s, step).rows[r].status.Succeeded? && !s.rows[r].status.Succeeded? ==>
              step.Finish? && s.txns[step.thread].op.Complete? && s.txns[step.thread].op.run == r
  {
    if r !in s.rows {
      var x := s.txns[step.thread];
      assert TxnOk(x, step.thread, s.rows, s.threads[step.thread], s.clock);
      assert x.phase == Done(Created(x.staged[r]));
    } else if Apply(s, step).rows[r].status.Succeeded? && !s.rows[r].status.Succeeded? {
      RunLaws.SuccessIsFenced(s, step, r);
    }
  }

  // ----- calls only move forward -----

  lemma CallsCarry(w: World, step: WorldStep, p: nat)
    requires Can(w, step) && p in w.calls
    ensures p in Do(w, step).calls && Do(w, step).calls[p].request == w.calls[p].request
    ensures Do(w, step).calls[p].stage == w.calls[p].stage
            || (Subject(w, step) == Some(p) && Do(w, step).calls[p].stage == NextStage(w, step, p))
    ensures w.executed <= Do(w, step).executed
  {
  }

  /** The stages a waiting call can still reach. */
  lemma StageForward(w: World, step: WorldStep, p: nat)
    requires Can(w, step) && p in w.calls
    ensures var before, after := w.calls[p].stage, Do(w, step).calls[p].stage;
            && (IsOver(before) ==> IsOver(after))
            && (before.Returned? || before.Raised? ==> after == before)
            && (before.AwaitRecovery? ==> after == before || IsOver(after))
            && (before.AwaitCleanup? ==> after == before || IsOver(after))
            && (before.Cleaning? ==> after == before || after.AwaitCleanup? || IsOver(after))
            && (before.AwaitCompletion? ==> after == before || after.Cleaning? || IsOver(after))
            && (HasExecuted(before) ==> HasExecuted(after))
  {
    CallsCarry(w, step, p);
  }

  lemma OwnedCarries(w: World, step: WorldStep, x: Txn)
    requires Can(w, step) && Owned(x, w.calls, w.executed)
    ensures Owned(x, Do(w, step).calls, Do(w, step).executed)
  {
    if x.client.Some? && x.client.value in w.calls {
      CallsCarry(w, step, x.client.value);
      StageForward(w, step, x.client.value);
    }
  }

  /** A transaction a call begins is the call's own. */
  lemma IssuedIsOwned(w: World, p: nat)
    requires Faithful(w) && Can(w, Issue(p))
    ensures Owned(Start(Some(p), OperationOf(w, p)), Do(w, Issue(p)).calls, w.executed)
  {
    assert CallOk(p, w.calls[p], w.store.rows, w.executed);
  }

  lemma SameOwned(x: Txn, y: Txn, calls: map<nat, Call>, executed: seq<RunId>)
    requires x.op == y.op && x.client == y.client && Owned(x, calls, executed)
    ensures Owned(y, calls, executed)
  {
  }

  lemma {:induction false} TxnsStayOwned(w: World, step: WorldStep)
    requires Faithful(w) && Can(w, step)
    ensures TxnsOwned(Do(w, step).store.txns, Do(w, step).calls, Do(w, step).executed)
  {
    var next := Do(w, step);
    forall t | t in next.store.txns ensures Owned(next.store.txns[t], next.calls, next.executed) {
      var inner := StoreStep(w, step);
      if inner.None? {
        OwnedCarries(w, step, w.store.txns[t]);
      } else {
        TxnsCarry(w.store, inner.value, t);
        if inner.value.Begin? && inner.value.thread == t {
          if step.Issue? { IssuedIsOwned(w, step.call); }
        } else {
          OwnedCarries(w, step, w.store.txns[t]);
          SameOwned(w.store.txns[t], next.store.txns[t], next.calls, next.executed);
        }
      }
    }
  }

  lemma {:induction false} RowStaysOwned(w: World, step: WorldStep, r: RunId)
    requires Faithful(w) && Can(w, step) && r in Do(w, step).store.rows
    ensures var next := Do(w, step);
            && r in next.calls && Mine(next.store.rows[r].claim, r, next.calls[r].request)
            && (next.store.rows[r].status.Succeeded? ==> r in next.executed)
  {
    var inner := StoreStep(w, step);
    if inner.Some? { NewRowsAreClaims(w.store, inner.value, r); }
    if r in w.store.rows {
      MovesEvolve(w, step, r);
    } else {
      assert Owned(w.store.txns[inner.value.thread], w.calls, w.executed);
    }
    CallsCarry(w, step, r);
    if inner.Some? && inner.value.Finish? { assert Owned(w.store.txns[inner.value.thread], w.calls, w.executed); }
  }

  lemma ExecutedCarries(w: World, step: WorldStep, p: nat)
    requires Sound(w.store) && Can(w, step) && p in w.calls && p in w.store.rows && HasExecuted(w.calls[p].stage)
    ensures p in Do(w, step).calls && p in Do(w, step).store.rows && HasExecuted(Do(w, step).calls[p].stage)
  {
    hide Sound, Can, Do, Evolves;
    MovesEvolve(w, step, p);
    StageForward(w, step, p);
    CallsCarry(w, step, p);
  }

  /** Starting the invoker is new, and the call has claimed its run. */
  lemma StartIsNew(w: World, p: nat)
    requires CallsOk(w.calls, w.store.rows, w.executed) && ExecutedOk(w.executed, w.calls, w.store.rows)
    requires Can(w, Execute(p))
    ensures p in w.store.rows && p !in w.executed
    ensures Do(w, Execute(p)).store == w.store && Do(w, Execute(p)).calls == w.calls[p := w.calls[p].(stage := Executing)]
  {
    assert CallOk(p, w.calls[p], w.store.rows, w.executed);
  }

  lemma ExecutedList(w: World, step: WorldStep)
    requires Can(w, step)
    ensures Do(w, step).executed == if step.Execute? then w.executed + [step.call] else w.executed
  {
  }

  lemma {:induction false} ExecutedStays(w: World, step: WorldStep)
    requires Faithful(w) && Can(w, step)
    ensures ExecutedOk(Do(w, step).executed, Do(w, step).calls, Do(w, step).store.rows)
  {
    hide Sound, RowsOwned, TxnsOwned, CallsOk, Can, Do;
    var next := Do(w, step);
    ExecutedList(w, step);
    if step.Execute? { StartIsNew(w, step.call); }
    forall i | 0 <= i < |w.executed|
      ensures w.executed[i] in next.calls && w.executed[i] in next.store.rows
      ensures HasExecuted(next.calls[w.executed[i]].stage)
    {
      ExecutedCarries(w, step, w.executed[i]);
    }
    if step.Execute? { assert step.call !in w.executed; }
  }

  // ----- what calls learn is true -----

  lemma CallKeeps(p: nat, call: Call, before: map<RunId, Row>, after: map<RunId, Row>,
                  executed: seq<RunId>, more: seq<RunId>)
    requires CallOk(p, call, before, executed) && executed <= more
    requires forall r | r in before :: r in after && Evolves(before[r], after[r])
    ensures CallOk(p, call, after, more)
  {
    if call.stage.Returned? {
      var r :| r in before && Holds(before[r], p, call.request, call.stage.response);
      assert Holds(after[r], p, call.request, call.stage.response);
    }
  }

  /** What a transaction reports of a run is what it commits. */
  lemma SettledIsCommitted(s: Store, t: ThreadId)
    requires Sound(s) && Enabled(s, Finish(t)) && s.txns[t].phase.reply.Settled?
    ensures !(s.txns[t].op.ClaimRun? || s.txns[t].op.Append?)
    ensures var run, row := s.txns[t].op.run, s.txns[t].phase.reply.row;
            && run in s.rows && row.claim == s.rows[run].claim
            && run in Apply(s, Finish(t)).rows && Apply(s, Finish(t)).rows[run] == row
            && (s.txns[t].op.Complete? ==> row.status.Succeeded? && row.response == Some(s.txns[t].op.answer))
  {
    var x := s.txns[t];
    assert TxnOk(x, t, s.rows, s.threads[t], s.clock);
    hide Sound, RowsOk;
    assert Evolves(s.rows[x.op.run], x.staged[x.op.run]);
  }

  /** A claim reports its own new row, or a row that already had the key and the hash. */
  lemma ClaimedIsCommitted(s: Store, t: ThreadId)
    requires Sound(s) && Enabled(s, Finish(t)) && s.txns[t].op.ClaimRun?
    ensures var op, reply, rows := s.txns[t].op, s.txns[t].phase.reply, Apply(s, Finish(t)).rows;
            && (reply.Created? ==> op.run in rows)
            && (reply.Existing? ==>
                  && reply.row.claim.run in rows && Evolves(reply.row, rows[reply.row.claim.run])
                  && op.key.Some? && reply.row.claim.key == op.key
                  && reply.row.claim.agent.id == op.agent.id && reply.row.claim.hash == op.hash)
  {
    var x := s.txns[t];
    assert TxnOk(x, t, s.rows, s.threads[t], s.clock);
    if x.phase.reply.Existing? { RunLaws.StepEvolves(s, Finish(t), x.phase.reply.row.claim.run); }
  }

  /** Replaying a row that has the call's key, or is its own, returns only what that row holds. */
  lemma ReplayIsDurable(rows: map<RunId, Row>, row: Row, p: nat, request: Request)
    requires row.claim.run in rows && Evolves(row, rows[row.claim.run])
    requires request.key.Some? && row.claim.key == request.key && row.claim.agent.id == request.agent.id
    ensures Replay(row, request.hash).Returned? ==>
              Durable(rows, p, request, Replay(row, request.hash).response)
    ensures Reuse(row, request.hash).Returned? ==>
              Durable(rows, p, request, Reuse(row, request.hash).response)
    ensures Reuse(row, request.hash).Recovering? ==>
              Awaited(rows, Reuse(row, request.hash).run, request)
  {
    if Replay(row, request.hash).Returned? {
      assert Holds(rows[row.claim.run], p, request, Replay(row, request.hash).response);
    }
  }

  lemma RowIdentity(s: Store, r: RunId)
    requires Sound(s) && r in s.rows
    ensures s.rows[r].claim.run == r
  {
  }

  lemma LookedUpIsOk(w: World, p: nat)
    requires Faithful(w) && Can(w, LookUp(p))
    ensures CallOk(p, w.calls[p].(stage := LookedUp(w, w.calls[p].request)), w.store.rows, w.executed)
  {
    hide Sound, RowsOwned, TxnsOwned, CallsOk, ExecutedOk, Durable, Awaited, Enabled;
    var request := w.calls[p].request;
    var found := FindKey(w.store.rows, request.agent.id, request.key);
    if found.Some? {
      RowIdentity(w.store, found.value);
      ReplayIsDurable(w.store.rows, w.store.rows[found.value], p, request);
    }
  }

  lemma OwnRowIsDurable(rows: map<RunId, Row>, row: Row, p: nat, request: Request)
    requires p in rows && rows[p] == row && Mine(row.claim, p, request)
    requires row.status.Succeeded? && row.response.Some?
    ensures Durable(rows, p, request, row.response.value)
  {
    assert Holds(rows[p], p, request, row.response.value);
  }

  lemma ClaimAnswered(p: nat, call: Call, reply: Reply, rows: map<RunId, Row>, executed: seq<RunId>)
    requires call.stage.AwaitClaim?
    requires reply.Created? ==> p in rows
    requires reply.Existing? ==>
               && reply.row.claim.run in rows && Evolves(reply.row, rows[reply.row.claim.run])
               && call.request.key.Some? && reply.row.claim.key == call.request.key
               && reply.row.claim.agent.id == call.request.agent.id
    ensures CallOk(p, call.(stage := Heard(call, reply)), rows, executed)
  {
    if reply.Existing? { ReplayIsDurable(rows, reply.row, p, call.request); }
  }

  lemma {:induction false} HeardClaim(w: World, t: ThreadId, p: nat)
    requires Faithful(w) && Can(w, Deliver(t)) && w.store.txns[t].client == Some(p)
    requires w.store.txns[t].op.ClaimRun?
    ensures CallOk(p, w.calls[p].(stage := Heard(w.calls[p], w.store.txns[t].phase.reply)),
                   Apply(w.store, Finish(t)).rows, w.executed)
  {
    assert Owned(w.store.txns[t], w.calls, w.executed);
    ClaimedIsCommitted(w.store, t);
    ClaimAnswered(p, w.calls[p], w.store.txns[t].phase.reply, Apply(w.store, Finish(t)).rows, w.executed);
  }

  /** An awaited recovery reports a row with the call's key. */
  lemma RecoveryAnswered(p: nat, call: Call, row: Row, rows: map<RunId, Row>, executed: seq<RunId>)
    requires call.stage.AwaitRecovery? && call.stage.run in rows && rows[call.stage.run] == row
    requires row.claim.run == call.stage.run && Awaited(rows, call.stage.run, call.request)
    ensures CallOk(p, call.(stage := Heard(call, Settled(row))), rows, executed)
  {
    ReplayIsDurable(rows, row, p, call.request);
  }

  /** The answer to an operation on the call's own run is its own row. */
  lemma OwnAnswered(p: nat, call: Call, row: Row, rows: map<RunId, Row>, executed: seq<RunId>)
    requires call.stage.AwaitStart? || call.stage.AwaitCompletion? || call.stage.AwaitCleanup?
    requires p in rows && rows[p] == row && Mine(row.claim, p, call.request)
    requires call.stage.AwaitCompletion? ==>
               row.status.Succeeded? && row.response == Some(call.stage.response)
    ensures CallOk(p, call.(stage := Heard(call, Settled(row))), rows, executed)
  {
    if row.status.Succeeded? && row.response.Some? { OwnRowIsDurable(rows, row, p, call.request); }
  }

  lemma {:induction false} HeardSettled(w: World, t: ThreadId, p: nat)
    requires Faithful(w) && Can(w, Deliver(t)) && w.store.txns[t].client == Some(p)
    requires !w.store.txns[t].op.ClaimRun? && w.store.txns[t].phase.reply.Settled?
    ensures CallOk(p, w.calls[p].(stage := Heard(w.calls[p], w.store.txns[t].phase.reply)),
                   Apply(w.store, Finish(t)).rows, w.executed)
  {
    hide Sound;
    var x, rows, call := w.store.txns[t], Apply(w.store, Finish(t)).rows, w.calls[p];
    var row := x.phase.reply.row;
    assert Owned(x, w.calls, w.executed);
    assert CallOk(p, call, w.store.rows, w.executed);
    SettledIsCommitted(w.store, t);
    if x.op.Recover? {
      RecoveryAnswered(p, call, row, rows, w.executed);
    } else {
      OwnAnswered(p, call, row, rows, w.executed);
    }
  }

  lemma {:induction false} HeardIsOk(w: World, t: ThreadId, p: nat)
    requires Faithful(w) && Can(w, Deliver(t)) && w.store.txns[t].client == Some(p)
    ensures CallOk(p, w.calls[p].(stage := Heard(w.calls[p], w.store.txns[t].phase.reply)),
                   Apply(w.store, Finish(t)).rows, w.executed)
  {
    hide Sound, RowsOwned, TxnsOwned, CallsOk, ExecutedOk, CallOk, Enabled, Apply;
    if w.store.txns[t].op.ClaimRun? {
      HeardClaim(w, t, p);
    } else if w.store.txns[t].phase.reply.Settled? {
      HeardSettled(w, t, p);
    } else {
      HeardNothing(w, t, p);
    }
  }

  /** An answer that settles nothing promises nothing. */
  lemma HeardNothing(w: World, t: ThreadId, p: nat)
    requires Can(w, Deliver(t)) && w.store.txns[t].client == Some(p)
    requires !w.store.txns[t].op.ClaimRun? && !w.store.txns[t].phase.reply.Settled?
    ensures CallOk(p, w.calls[p].(stage := Heard(w.calls[p], w.store.txns[t].phase.reply)),
                   Apply(w.store, Finish(t)).rows, w.executed)
  {
    hide Enabled, Apply;
  }

  /** What held of a call holds of it after any step, as far as its stage has not changed. */
  lemma CallAsWas(w: World, step: WorldStep, p: nat)
    requires Faithful(w) && Can(w, step) && p in w.calls
    ensures CallOk(p, w.calls[p], Do(w, step).store.rows, Do(w, step).executed)
  {
    assert CallOk(p, w.calls[p], w.store.rows, w.executed);
    hide Sound, RowsOwned, TxnsOwned, CallsOk, ExecutedOk, Can, Do, Evolves, CallOk;
    var next := Do(w, step);
    CallsCarry(w, step, p);
    forall r | r in w.store.rows ensures r in next.store.rows && Evolves(w.store.rows[r], next.store.rows[r]) {
      MovesEvolve(w, step, r);
    }
    CallKeeps(p, w.calls[p], w.store.rows, next.store.rows, w.executed, next.executed);
  }

  /** A step that asks the store nothing leaves a call with what its new stage promises. */
  lemma PlainStage(w: World, step: WorldStep, p: nat, rows: map<RunId, Row>, executed: seq<RunId>)
    requires Can(w, step) && p in w.calls && Subject(w, step) == Some(p) && !step.Deliver? && !step.LookUp?
    requires CallOk(p, w.calls[p], rows, executed) && (step.Execute? ==> p in executed)
    ensures CallOk(p, w.calls[p].(stage := NextStage(w, step, p)), rows, executed)
  {
    hide Enabled, Apply, Durable;
  }

  /** What a step makes of the call it is about. */
  lemma SubjectMoves(w: World, step: WorldStep, p: nat)
    requires Can(w, step) && p in w.calls && Subject(w, step) == Some(p)
    ensures Do(w, step).calls[p] == w.calls[p].(stage := NextStage(w, step, p))
    ensures step.Execute? ==> p in Do(w, step).executed
    ensures step.LookUp? ==> Do(w, step).store == w.store && Do(w, step).executed == w.executed
                             && NextStage(w, step, p) == LookedUp(w, w.calls[p].request)
    ensures step.Deliver? ==> Do(w, step).store == Apply(w.store, Finish(step.thread)) && Do(w, step).executed == w.executed
                              && NextStage(w, step, p) == Heard(w.calls[p], w.store.txns[step.thread].phase.reply)
                              && w.store.txns[step.thread].client == Some(p)
  {
    hide Enabled, Apply;
  }

  lemma {:induction false} CallStaysOk(w: World, step: WorldStep, p: nat)
    requires Faithful(w) && Can(w, step) && p in w.calls
    ensures CallOk(p, Do(w, step).calls[p], Do(w, step).store.rows, Do(w, step).executed)
  {
    hide Sound, RowsOwned, TxnsOwned, CallsOk, ExecutedOk, Can, Do, CallOk, NextStage, Heard, LookedUp, Apply;
    CallAsWas(w, step, p);
    CallsCarry(w, step, p);
    if Subject(w, step) == Some(p) {
      SubjectMoves(w, step, p);
      if step.Deliver? {
        HeardIsOk(w, step.thread, p);
      } else if step.LookUp? {
        LookedUpIsOk(w, p);
      } else {
        PlainStage(w, step, p, Do(w, step).store.rows, Do(w, step).executed);
      }
    } else {
      assert Do(w, step).calls[p] == w.calls[p];
    }
  }

  lemma {:induction false} CallsStayOk(w: World, step: WorldStep)
    requires Faithful(w) && Can(w, step)
    ensures CallsOk(Do(w, step).calls, Do(w, step).store.rows, Do(w, step).executed)
  {
    var next := Do(w, step);
    forall p | p in next.calls ensures CallOk(p, next.calls[p], next.store.rows, next.executed) {
      if p in w.calls { CallStaysOk(w, step, p); }
    }
  }

  /** Whatever happens next, every answer given so far stays true. */
  lemma {:induction false} WorldStepKeeps(w: World, step: WorldStep)
    requires Faithful(w) && Can(w, step)
    ensures Faithful(Do(w, step))
  {
    var next := Do(w, step);
    if StoreStep(w, step).Some? { StepKeeps(w.store, StoreStep(w, step).value); }
    forall r | r in next.store.rows
      ensures r in next.calls && Mine(next.store.rows[r].claim, r, next.calls[r].request)
      ensures next.store.rows[r].status.Succeeded? ==> r in next.executed
    {
      RowStaysOwned(w, step, r);
    }
    TxnsStayOwned(w, step);
    CallsStayOk(w, step);
    ExecutedStays(w, step);
  }

  // ----- over whole runs of the world -----

  /** Steps that a runtime over an empty store can take in this order. */
  ghost predicate Possible(steps: seq<WorldStep>, lease: nat)
    decreases |steps|, 0
  {
    |steps| > 0 ==>
      && Possible(steps[..|steps| - 1], lease)
      && Can(After(steps[..|steps| - 1], lease), steps[|steps| - 1])
  }

  ghost function After(steps: seq<WorldStep>, lease: nat): World
    requires Possible(steps, lease)
    decreases |steps|, 1
  {
    if |steps| == 0 then Begun(lease) else Do(After(steps[..|steps| - 1], lease), steps[|steps| - 1])
  }

  lemma {:induction false} AlwaysFaithful(steps: seq<WorldStep>, lease: nat)
    requires Possible(steps, lease)
    ensures Faithful(After(steps, lease))
  {
    if |steps| > 0 {
      AlwaysFaithful(steps[..|steps| - 1], lease);
      WorldStepKeeps(After(steps[..|steps| - 1], lease), steps[|steps| - 1]);
    }
  }

  /** The invoker is started at most once for a run, and at most once for an agent's idempotency key,
      whatever is retried, cancelled, lost, swept or restarted. */
  lemma AtMostOneExecution(steps: seq<WorldStep>, lease: nat, i: nat, j: nat)
    requires Possible(steps, lease) && i < j < |After(steps, lease).executed|
    ensures var w := After(steps, lease);
            && w.executed[i] in w.calls && w.executed[j] in w.calls
            && w.executed[i] != w.executed[j]
            && var a, b := w.calls[w.executed[i]].request, w.calls[w.executed[j]].request;
            !(a.key.Some? && a.key == b.key && a.agent.id == b.agent.id)
  {
    AlwaysFaithful(steps, lease);
    var w := After(steps, lease);
    var p, q := w.executed[i], w.executed[j];
    assert Compatible(w.store.rows[p], w.store.rows[q]);
    assert Mine(w.store.rows[p].claim, p, w.calls[p].request);
    assert Mine(w.store.rows[q].claim, q, w.calls[q].request);
  }

  lemma AnswersAreDurable(w: World, p: nat)
    requires Faithful(w) && p in w.calls && w.calls[p].stage.Returned?
    ensures exists r | r in w.store.rows ::
              Holds(w.store.rows[r], p, w.calls[p].request, w.calls[p].stage.response) && r in w.executed
  {
    assert CallOk(p, w.calls[p], w.store.rows, w.executed);
    var r :| r in w.store.rows && Holds(w.store.rows[r], p, w.calls[p].request, w.calls[p].stage.response);
    assert r in w.executed;
  }

  /** Every response ever returned is the stored response of a succeeded run for that very request,
      and that run's invoker was started. */
  lemma ReturnedIsDurable(steps: seq<WorldStep>, lease: nat, p: nat)
    requires Possible(steps, lease)
    requires p in After(steps, lease).calls && After(steps, lease).calls[p].stage.Returned?
    ensures var w := After(steps, lease);
            exists r | r in w.store.rows ::
              Holds(w.store.rows[r], p, w.calls[p].request, w.calls[p].stage.response) && r in w.executed
  {
    AlwaysFaithful(steps, lease);
    AnswersAreDurable(After(steps, lease), p);
  }

  lemma {:induction false} RowsLast(steps: seq<WorldStep>, lease: nat, i: nat, r: RunId)
    requires Possible(steps, lease) && i <= |steps|
    requires Possible(steps[..i], lease) && r in After(steps[..i], lease).store.rows
    ensures r in After(steps, lease).store.rows
    ensures Evolves(After(steps[..i], lease).store.rows[r], After(steps, lease).store.rows[r])
  {
    if i == |steps| {
      assert steps[..i] == steps;
    } else {
      var init := steps[..|steps| - 1];
      assert init[..i] == steps[..i];
      RowsLast(init, lease, i, r);
      AlwaysFaithful(init, lease);
      MovesEvolve(After(init, lease), steps[|steps| - 1], r);
    }
  }

  /** A committed success is never overwritten: not by a failure, a timeout, a cancellation, a cleanup,
      a recovery, a sweep, or another call. */
  lemma SuccessIsForever(steps: seq<WorldStep>, lease: nat, i: nat, r: RunId)
    requires Possible(steps, lease) && i <= |steps|
    requires Possible(steps[..i], lease) && r in After(steps[..i], lease).store.rows
    requires After(steps[..i], lease).store.rows[r].status.Succeeded?
    ensures r in After(steps, lease).store.rows
    ensures After(steps, lease).store.rows[r] == After(steps[..i], lease).store.rows[r]
  {
    RowsLast(steps, lease, i, r);
  }

  /** Another call's request has the run's key. */
  predicate SharesKey(w: World, r: RunId, p: nat) {
    && r in w.store.rows && p in w.calls && p != r
    && w.calls[p].request.key.Some? && w.calls[p].request.key == w.store.rows[r].claim.key
    && w.calls[p].request.agent.id == w.store.rows[r].claim.agent.id
  }

  /** Only the call that claimed a key can ever have started its invoker for it. */
  lemma KeyHolderOnly(w: World, r: RunId, p: nat)
    requires Faithful(w) && SharesKey(w, r, p)
    ensures p !in w.store.rows && p !in w.executed
  {
    assert p in w.store.rows ==> Compatible(w.store.rows[r], w.store.rows[p]);
  }

  lemma LookUpReplays(w: World, r: RunId, p: nat)
    requires Faithful(w) && SharesKey(w, r, p) && w.calls[p].stage.Looking?
    ensures LookedUp(w, w.calls[p].request) == Reuse(w.store.rows[r], w.calls[p].request.hash)
  {
    var found := FindKey(w.store.rows, w.calls[p].request.agent.id, w.calls[p].request.key);
    assert found.value != r ==> Compatible(w.store.rows[r], w.store.rows[found.value]);
  }

  lemma RowIsOk(s: Store, r: RunId)
    requires Sound(s) && r in s.rows
    ensures RowOk(s.rows[r], s.clock)
  {
  }

  /** Once a run has succeeded, an equal request with its key is answered by replaying it, one with
      another hash is turned away, and no other call with the key has started its invoker. */
  lemma LaterCallsReplay(steps: seq<WorldStep>, lease: nat, r: RunId, p: nat)
    requires Possible(steps, lease) && SharesKey(After(steps, lease), r, p)
    ensures var w := After(steps, lease);
            var row := w.store.rows[r];
            && p !in w.executed
            && (w.calls[p].stage.Looking? && row.status.Succeeded? ==>
                  && Can(w, LookUp(p)) && row.response.Some?
                  && Do(w, LookUp(p)).calls[p].stage
                     == (if row.claim.hash == w.calls[p].request.hash then Returned(row.response.value) else Raised))
  {
    hide Sound, RowsOwned, TxnsOwned, CallsOk, ExecutedOk;
    var w := After(steps, lease);
    AlwaysFaithful(steps, lease);
    KeyHolderOnly(w, r, p);
    if w.calls[p].stage.Looking? {
      LookUpReplays(w, r, p);
      RowIsOk(w.store, r);
    }
  }

  // ----- what a later call hears from the store -----

  /** The one row with the call's key is this one. */
  lemma KeyIsUnique(w: World, r: RunId, p: nat, q: RunId)
    requires RowsOk(w.store.rows, w.store.clock) && SharesKey(w, r, p) && Awaited(w.store.rows, q, w.calls[p].request)
    ensures q == r
  {
    assert q != r ==> Compatible(w.store.rows[r], w.store.rows[q]);
  }

  /** What a claim that inserts nothing reports is a committed row with its key and hash. */
  lemma ExistingIsThere(s: Store, t: ThreadId)
    requires Sound(s) && Enabled(s, Finish(t)) && s.txns[t].op.ClaimRun? && s.txns[t].phase.reply.Existing?
    ensures ClaimReplyOk(s.txns[t], t, s.rows, s.txns[t].phase.reply)
  {
    assert TxnOk(s.txns[t], t, s.rows, s.threads[t], s.clock);
  }

  lemma CreatedIsUnshared(s: Store, t: ThreadId, r: RunId)
    requires Sound(s) && Enabled(s, Finish(t)) && s.txns[t].op.ClaimRun? && s.txns[t].phase.reply.Created?
    requires r in s.rows && s.rows[r].claim.key.Some? && s.rows[r].claim.key == s.txns[t].op.key
    ensures s.rows[r].claim.agent.id != s.txns[t].op.agent.id
  {
    assert ClaimReplyOk(s.txns[t], t, s.rows, s.txns[t].phase.reply) by {
      assert TxnOk(s.txns[t], t, s.rows, s.threads[t], s.clock);
    }
    RunLaws.CreationIsNew(s, Finish(t));
    assert !SameKey(s.rows[r].claim, s.txns[t].phase.reply.row.claim);
  }

  /** A claim under a key that is taken reports the row that has it. */
  lemma TakenKeyIsReported(w: World, t: ThreadId, r: RunId, p: nat)
    requires Faithful(w) && SharesKey(w, r, p) && Can(w, Deliver(t)) && w.store.txns[t].client == Some(p)
    requires w.store.txns[t].op.ClaimRun?
    ensures var reply := w.store.txns[t].phase.reply;
            && !reply.Created?
            && (reply.Existing? ==> reply.row.claim == w.store.rows[r].claim && Evolves(reply.row, w.store.rows[r])
                                    && reply.row.claim.hash == w.calls[p].request.hash)
  {
    var x := w.store.txns[t];
    assert Owned(x, w.calls, w.executed);
    hide Sound, RowsOwned, TxnsOwned, CallsOk, ExecutedOk;
    if x.phase.reply.Created? {
      CreatedIsUnshared(w.store, t, r);
    } else if x.phase.reply.Existing? {
      ExistingIsThere(w.store, t);
      SoundRows(w.store);
      KeyIsUnique(w, r, p, x.phase.reply.row.claim.run);
    }
  }

  lemma SoundRows(s: Store)
    requires Sound(s)
    ensures RowsOk(s.rows, s.clock)
  {
  }

  /** The run a call is told about was the one it waits for. */
  lemma RecoveryIsAwaited(w: World, t: ThreadId, p: nat)
    requires TxnsOwned(w.store.txns, w.calls, w.executed) && CallsOk(w.calls, w.store.rows, w.executed)
    requires Can(w, Deliver(t)) && w.store.txns[t].client == Some(p) && w.store.txns[t].op.Recover?
    ensures p in w.calls && Awaited(w.store.rows, w.store.txns[t].op.run, w.calls[p].request)
  {
    assert Owned(w.store.txns[t], w.calls, w.executed);
    assert CallOk(p, w.calls[p], w.store.rows, w.executed);
  }

  /** A recovery awaited under a taken key reports the row that has it, as it is. */
  lemma RecoveredIsReported(w: World, t: ThreadId, r: RunId, p: nat)
    requires Faithful(w) && SharesKey(w, r, p) && Can(w, Deliver(t)) && w.store.txns[t].client == Some(p)
    requires w.store.txns[t].op.Recover? && w.store.txns[t].phase.reply.Settled? && !Active(w.store.rows[r])
    ensures w.store.txns[t].phase.reply.row == w.store.rows[r]
  {
    hide Sound, RowsOwned, TxnsOwned, CallsOk, ExecutedOk, Awaited, Apply, RowsOk;
    SoundRows(w.store);
    RecoveryIsAwaited(w, t, p);
    KeyIsUnique(w, r, p, w.store.txns[t].op.run);
    SettledIsCommitted(w.store, t);
    RunLaws.StepEvolves(w.store, Finish(t), r);
  }

  /** Once a run has succeeded, a later call with its key that is past its look-up hears of it too. Its
      claim never creates a run, and a claim that reports a run reports this one, whose response the call
      returns at once, or after a recovery if it was read unfinished; a recovery reports the response. */
  lemma LaterAnswersReplay(steps: seq<WorldStep>, lease: nat, t: ThreadId, r: RunId, p: nat)
    requires Possible(steps, lease) && SharesKey(After(steps, lease), r, p)
    requires After(steps, lease).store.rows[r].status.Succeeded?
    requires Can(After(steps, lease), Deliver(t)) && After(steps, lease).store.txns[t].client == Some(p)
    ensures var w := After(steps, lease);
            var row, x, stage := w.store.rows[r], w.store.txns[t], Do(w, Deliver(t)).calls[p].stage;
            && row.response.Some?
            && (x.op.ClaimRun? ==> !x.phase.reply.Created?)
            && (x.op.ClaimRun? && x.phase.reply.Existing? ==>
                  && row.claim.hash == w.calls[p].request.hash
                  && stage == if Active(x.phase.reply.row) then Recovering(r) else Returned(row.response.value))
            && (x.op.Recover? && x.phase.reply.Settled? ==>
                  stage == if row.claim.hash == w.calls[p].request.hash then Returned(row.response.value) else Raised)
  {
    var w := After(steps, lease);
    AlwaysFaithful(steps, lease);
    hide Possible, After, Sound, RowsOwned, TxnsOwned, CallsOk, ExecutedOk;
    RowIsOk(w.store, r);
    if w.store.txns[t].op.ClaimRun? {
      TakenKeyIsReported(w, t, r, p);
    } else if w.store.txns[t].op.Recover? && w.store.txns[t].phase.reply.Settled? {
      RecoveredIsReported(w, t, r, p);
    }
  }
}
