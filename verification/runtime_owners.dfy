/** Which calls own a run: a call has none before its claim, and exactly one claim of it is ever open. */
module RuntimeOwners {
  import opened Wrappers
  import opened RunRows
  import opened RunStore
  import opened RunSound
  import opened RuntimeCalls
  import opened RuntimeLaws

  /** Stages in which a call has no run of its own, and none on its way. */
  predicate Runless(stage: Stage) {
    stage.Looking? || stage.Opening? || stage.Claiming? || stage.Recovering? || stage.AwaitRecovery?
  }

  predicate ClaimsRun(x: Txn, p: nat) { x.op.ClaimRun? && x.op.run == p }

  /** A request that names a thread runs on that thread. */
  predicate OnRequested(request: Request, t: ThreadId) { request.thread == None || request.thread == Some(t) }

  /** An open claim is for a run that does not exist yet, and is the only one for it. */
  ghost predicate ClaimsAreSingle(w: World) {
    && (forall t | t in w.store.txns && w.store.txns[t].op.ClaimRun? :: w.store.txns[t].op.run !in w.store.rows)
    && (forall t, u | t in w.store.txns && u in w.store.txns && w.store.txns[t].op.ClaimRun? ::
          ClaimsRun(w.store.txns[u], w.store.txns[t].op.run) ==> t == u)
  }

  ghost predicate RunlessHasNone(w: World, p: nat) {
    p !in w.store.rows && forall t | t in w.store.txns :: !ClaimsRun(w.store.txns[t], p)
  }

  ghost predicate Owning(w: World) {
    ClaimsAreSingle(w) && forall p | p in w.calls && Runless(w.calls[p].stage) :: RunlessHasNone(w, p)
  }

  lemma ClaimOrigin(w: World, step: WorldStep, t: ThreadId)
    requires Can(w, step) && t in Do(w, step).store.txns && Do(w, step).store.txns[t].op.ClaimRun?
    ensures var x := Do(w, step).store.txns[t];
            || (t in w.store.txns && w.store.txns[t].op == x.op)
            || (step == Issue(x.op.run) && x.op.run in w.calls && w.calls[x.op.run].stage == Claiming(t))
  {
    var inner := StoreStep(w, step);
    if inner.Some? { TxnsCarry(w.store, inner.value, t); }
  }

  /** A new row is the insert of a claim that was open until this step. */
  lemma RowOrigin(w: World, step: WorldStep, r: RunId)
    requires Sound(w.store) && Can(w, step) && r in Do(w, step).store.rows && r !in w.store.rows
    ensures exists t | t in w.store.txns :: ClaimsRun(w.store.txns[t], r) && t !in Do(w, step).store.txns
                                            && StoreStep(w, step) == Some(Finish(t))
  {
    var inner := StoreStep(w, step).value;
    NewRowsAreClaims(w.store, inner, r);
    var t := inner.thread;
    assert ClaimsRun(w.store.txns[t], r);
  }

  /** A call comes to have no run only as it arrives, or when its claim finds its key taken. */
  lemma RunlessOrigin(w: World, step: WorldStep, p: nat)
    requires Can(w, step) && p in w.calls && Runless(Do(w, step).calls[p].stage) && !Runless(w.calls[p].stage)
    ensures step.Deliver? && w.store.txns[step.thread].client == Some(p) && w.calls[p].stage.AwaitClaim?
    ensures w.store.txns[step.thread].op.ClaimRun? && w.store.txns[step.thread].phase.reply.Existing?
  {
    CallsCarry(w, step, p);
  }

  /** A claim that reports an existing run inserts none. */
  lemma ExistingInsertsNone(s: Store, t: ThreadId, r: RunId)
    requires Sound(s) && Enabled(s, Finish(t)) && s.txns[t].op.ClaimRun? && s.txns[t].phase.reply.Existing?
    requires r !in s.rows
    ensures r !in Apply(s, Finish(t)).rows
  {
    ExistingIsThere(s, t);
    hide Sound;
  }

  lemma SingleStays(w: World, step: WorldStep)
    requires Faithful(w) && Owning(w) && Can(w, step)
    ensures ClaimsAreSingle(Do(w, step))
  {
    hide RowsOwned, TxnsOwned, CallsOk, ExecutedOk, Can, Do;
    assert ClaimsAreSingle(w);
    var next := Do(w, step);
    forall t | t in next.store.txns && next.store.txns[t].op.ClaimRun?
      ensures next.store.txns[t].op.run !in next.store.rows
    {
      ClaimOrigin(w, step, t);
      var r := next.store.txns[t].op.run;
      if r in next.store.rows && r !in w.store.rows { RowOrigin(w, step, r); }
    }
    forall t, u | t in next.store.txns && u in next.store.txns && next.store.txns[t].op.ClaimRun?
                  && ClaimsRun(next.store.txns[u], next.store.txns[t].op.run)
      ensures t == u
    {
      ClaimOrigin(w, step, t);
      ClaimOrigin(w, step, u);
    }
  }

  /** A call that has no run after a step had none before; at most its claim was open, and found its key
      taken. */
  lemma BeforeRunless(w: World, step: WorldStep, p: nat)
    requires Faithful(w) && Owning(w) && Can(w, step)
    requires p in Do(w, step).calls && Runless(Do(w, step).calls[p].stage)
    ensures p !in w.store.rows
    ensures forall t | t in w.store.txns && ClaimsRun(w.store.txns[t], p) ::
              step == Deliver(t) && Enabled(w.store, Finish(t)) && w.store.txns[t].phase.reply.Existing?
  {
    hide Sound, CallsOk, ExecutedOk;
    assert ClaimsAreSingle(w);
    if p !in w.calls {
      assert forall t | t in w.store.txns :: Owned(w.store.txns[t], w.calls, w.executed);
    } else if Runless(w.calls[p].stage) {
      assert RunlessHasNone(w, p);
    } else {
      RunlessOrigin(w, step, p);
      assert Owned(w.store.txns[step.thread], w.calls, w.executed);
    }
  }

  lemma RunlessStays(w: World, step: WorldStep, p: nat)
    requires Faithful(w) && Owning(w) && Can(w, step)
    requires p in Do(w, step).calls && Runless(Do(w, step).calls[p].stage)
    ensures RunlessHasNone(Do(w, step), p)
  {
    BeforeRunless(w, step, p);
    hide RowsOwned, TxnsOwned, CallsOk, ExecutedOk, Owning, Runless;
    var next := Do(w, step);
    forall t | t in next.store.txns ensures !ClaimsRun(next.store.txns[t], p) {
      if ClaimsRun(next.store.txns[t], p) { ClaimOrigin(w, step, t); }
    }
    if p in next.store.rows {
      RowOrigin(w, step, p);
      var t :| t in w.store.txns && ClaimsRun(w.store.txns[t], p);
      ExistingInsertsNone(w.store, t, p);
      assert false;
    }
  }

  /** Whatever happens next, a call without a run has none. */
  lemma OwningStays(w: World, step: WorldStep)
    requires Faithful(w) && Owning(w) && Can(w, step)
    ensures Owning(Do(w, step))
  {
    hide Sound, RowsOwned, TxnsOwned, CallsOk, ExecutedOk, Can, Do, RunlessHasNone, ClaimsAreSingle, Runless;
    SingleStays(w, step);
    forall p | p in Do(w, step).calls && Runless(Do(w, step).calls[p].stage) ensures RunlessHasNone(Do(w, step), p) {
      RunlessStays(w, step, p);
    }
  }

  /** Over any run of the world, a call without a run has none. */
  lemma {:induction false} AlwaysOwning(steps: seq<WorldStep>, lease: nat)
    requires Possible(steps, lease)
    ensures Owning(After(steps, lease))
  {
    if |steps| > 0 {
      var init := steps[..|steps| - 1];
      AlwaysOwning(init, lease);
      AlwaysFaithful(init, lease);
      OwningStays(After(init, lease), steps[|steps| - 1]);
    }
  }

  // ----- failing calls are cleaned up -----

  /** A call that may still fail, and has not begun to clean up. */
  predicate Underway(stage: Stage) {
    !stage.Returned? && !stage.Raised? && !stage.Abandoned? && !stage.Cleaning? && !stage.AwaitCleanup?
  }

  /** What a refusal is stored as. */
  predicate IsCodeOf(error: RunRows.Error, code: string) {
    && (error == ThreadNotFound ==> code == "thread_not_found")
    && (error == RunNotFound ==> code == "run_not_found")
    && (error == ThreadBusy ==> code == "thread_busy")
    && (error == IdempotencyConflict ==> code == "idempotency_conflict")
    && (error == OwnershipLost ==> code == "run_ownership_lost")
    && (error == InvalidTransition ==> code == "invalid_run_transition")
    && (error == DuplicateRun ==> code == "internal_error")
  }

  /** The call cleans up because it was interrupted, with what interrupted it, or because the store turned
      it away, with the code of the refusal. */
  ghost predicate CleansUpFor(w: World, step: WorldStep, p: nat, stage: Stage) {
    || (step.Interrupt? && stage == Cleaning(step.cancelled, step.code, step.outcome))
    || (step.Deliver? && step.thread in w.store.txns && w.store.txns[step.thread].client == Some(p)
        && w.store.txns[step.thread].phase.Done? && w.store.txns[step.thread].phase.reply.Refused?
        && stage.Cleaning? && !stage.cancelled && stage.outcome == Status.Failed
        && IsCodeOf(w.store.txns[step.thread].phase.reply.error, stage.code))
  }

  lemma RefusalCleansUp(call: Call, reply: Reply)
    requires call.stage.AwaitClaim? || call.stage.AwaitStart? || call.stage.AwaitCompletion?
    requires reply.Refused?
    ensures var stage := Heard(call, reply);
            stage.Cleaning? && !stage.cancelled && stage.outcome == Status.Failed && IsCodeOf(reply.error, stage.code)
  {
  }

  /** A call whose run exists either goes on, cleans up, or returns the response its run now holds: no step
      lets it raise without a cleanup. */
  lemma OwnerCleansUp(w: World, step: WorldStep, p: nat)
    requires Faithful(w) && Owning(w) && Can(w, step)
    requires p in w.calls && p in w.store.rows && Underway(w.calls[p].stage)
    ensures var after := Do(w, step).calls[p].stage;
            || Underway(after)
            || CleansUpFor(w, step, p, after)
            || (after.Returned? && p in Do(w, step).store.rows
                && Do(w, step).store.rows[p].status == Succeeded
                && Do(w, step).store.rows[p].response == Some(after.response))
  {
    CallsCarry(w, step, p);
    OwnerIsPastClaim(w, p);
    if step.Deliver? && Subject(w, step) == Some(p) {
      DeliveredToOwner(w, step.thread, p);
    }
  }

  lemma OwnerIsPastClaim(w: World, p: nat)
    requires Owning(w) && p in w.calls && p in w.store.rows
    ensures !Runless(w.calls[p].stage)
  {
    assert Runless(w.calls[p].stage) ==> RunlessHasNone(w, p);
  }

  lemma DeliveredToOwner(w: World, t: ThreadId, p: nat)
    requires Faithful(w) && Owning(w) && Can(w, Deliver(t)) && w.store.txns[t].client == Some(p)
    requires p in w.calls && p in w.store.rows && Underway(w.calls[p].stage) && !Runless(w.calls[p].stage)
    ensures var after := Do(w, Deliver(t)).calls[p].stage;
            || Underway(after)
            || CleansUpFor(w, Deliver(t), p, after)
            || (after.Returned? && p in Do(w, Deliver(t)).store.rows
                && Do(w, Deliver(t)).store.rows[p].status == Succeeded
                && Do(w, Deliver(t)).store.rows[p].response == Some(after.response))
  {
    hide HeldUp, FindKey, RowsOwned, CallsOk, ExecutedOk, RunlessHasNone, RowsOk, HistoryOk, LogOk, Separate, StagedOk;
    var x, call := w.store.txns[t], w.calls[p];
    assert Owned(x, w.calls, w.executed);
    assert ClaimsAreSingle(w);
    hide TxnsOwned, Owning;
    if x.phase.reply.Refused? {
      RefusalCleansUp(call, x.phase.reply);
    } else if x.phase.reply.Settled? {
      SettledIsCommitted(w.store, t);
    }
  }

  // ----- a run is what its request asks for -----

  /** A cleanup leaves its run failed or blocked. */
  predicate SettlesAs(stage: Stage) {
    stage.Cleaning? || stage.Abandoned? ==> stage.outcome == Status.Failed || stage.outcome == Status.Blocked
  }

  ghost predicate AsRequested(w: World) {
    && (forall p | p in w.calls && w.calls[p].stage.Claiming? ::
          w.calls[p].stage.thread in w.store.threads && OnRequested(w.calls[p].request, w.calls[p].stage.thread))
    && (forall p | p in w.calls :: SettlesAs(w.calls[p].stage))
    && (forall t | t in w.store.txns && w.store.txns[t].op.ClaimRun? ::
          && w.store.txns[t].op.duration == w.lease
          && w.store.txns[t].op.run in w.calls && OnRequested(w.calls[w.store.txns[t].op.run].request, t))
    && (forall r | r in w.store.rows ::
          && w.store.rows[r].claim.lease == w.store.rows[r].claim.claimedAt + w.lease
          && r in w.calls && OnRequested(w.calls[r].request, w.store.rows[r].claim.thread))
  }

  lemma NewRowThread(w: World, step: WorldStep, r: RunId)
    requires Sound(w.store) && Can(w, step) && r in Do(w, step).store.rows && r !in w.store.rows
    ensures var claim := Do(w, step).store.rows[r].claim;
            && claim.thread in w.store.txns && ClaimsRun(w.store.txns[claim.thread], r)
            && claim.lease == claim.claimedAt + w.store.txns[claim.thread].op.duration
  {
    var inner := StoreStep(w, step).value;
    NewRowsAreClaims(w.store, inner, r);
    assert ClaimsRun(w.store.txns[inner.thread], r);
  }

  lemma ClaimingStays(w: World, step: WorldStep, p: nat)
    requires AsRequested(w) && Can(w, step) && p in Do(w, step).calls && Do(w, step).calls[p].stage.Claiming?
    ensures Do(w, step).calls[p].stage.thread in w.store.threads
    ensures OnRequested(Do(w, step).calls[p].request, Do(w, step).calls[p].stage.thread)
  {
    if p in w.calls {
      CallsCarry(w, step, p);
      hide Enabled, Apply;
    }
  }

  lemma SettlingStays(w: World, step: WorldStep, p: nat)
    requires AsRequested(w) && Can(w, step) && p in Do(w, step).calls
    ensures SettlesAs(Do(w, step).calls[p].stage)
  {
    if p in w.calls {
      CallsCarry(w, step, p);
      assert SettlesAs(w.calls[p].stage);
      hide Enabled, Apply;
    }
  }

  /** No thread ever goes away. */
  lemma ThreadsStay(w: World, step: WorldStep, t: ThreadId)
    requires Can(w, step) && t in w.store.threads
    ensures t in Do(w, step).store.threads
  {
  }

  lemma IssuedForLease(w: World, step: WorldStep, t: ThreadId)
    requires Can(w, step) && t in Do(w, step).store.txns && Do(w, step).store.txns[t].op.ClaimRun?
    ensures (t in w.store.txns && w.store.txns[t].op == Do(w, step).store.txns[t].op)
            || Do(w, step).store.txns[t].op.duration == w.lease
  {
    var inner := StoreStep(w, step);
    if inner.Some? { TxnsCarry(w.store, inner.value, t); }
  }

  lemma SameLease(w: World, step: WorldStep)
    requires Can(w, step)
    ensures Do(w, step).lease == w.lease
  {
  }

  lemma RequestsStay(w: World, step: WorldStep)
    requires Faithful(w) && AsRequested(w) && Can(w, step)
    ensures AsRequested(Do(w, step))
  {
    hide RowsOwned, TxnsOwned, CallsOk, ExecutedOk, Can, Do, OnRequested;
    var next := Do(w, step);
    SameLease(w, step);
    forall p | p in next.calls && next.calls[p].stage.Claiming?
      ensures next.calls[p].stage.thread in next.store.threads
      ensures OnRequested(next.calls[p].request, next.calls[p].stage.thread)
    {
      ClaimingStays(w, step, p);
      ThreadsStay(w, step, next.calls[p].stage.thread);
    }
    forall p | p in next.calls ensures SettlesAs(next.calls[p].stage) { SettlingStays(w, step, p); }
    forall t | t in next.store.txns && next.store.txns[t].op.ClaimRun?
      ensures next.store.txns[t].op.duration == next.lease && next.store.txns[t].op.run in next.calls
      ensures OnRequested(next.calls[next.store.txns[t].op.run].request, t)
    {
      ClaimOrigin(w, step, t);
      IssuedForLease(w, step, t);
      CallsCarry(w, step, next.store.txns[t].op.run);
    }
    forall r | r in next.store.rows
      ensures next.store.rows[r].claim.lease == next.store.rows[r].claim.claimedAt + next.lease
      ensures r in next.calls && OnRequested(next.calls[r].request, next.store.rows[r].claim.thread)
    {
      if r in w.store.rows { MovesEvolve(w, step, r); } else { NewRowThread(w, step, r); }
      CallsCarry(w, step, r);
    }
  }

  lemma {:induction false} LeaseStays(steps: seq<WorldStep>, lease: nat)
    requires Possible(steps, lease)
    ensures After(steps, lease).lease == lease
  {
    if |steps| > 0 { LeaseStays(steps[..|steps| - 1], lease); }
  }

  /** In every run of the world, a run is on the thread its request names, if it names one, and its lease is
      the runtime's, from the moment it was claimed; a call claims only on a thread there is, and is
      cleaned up only as failed or blocked. */
  lemma {:induction false} RunsAreAsRequested(steps: seq<WorldStep>, lease: nat)
    requires Possible(steps, lease)
    ensures AsRequested(After(steps, lease))
    ensures var w := After(steps, lease);
            forall p | p in w.calls ::
              && (w.calls[p].stage.Claiming? ==> w.calls[p].stage.thread in w.store.threads)
              && (w.calls[p].stage.Cleaning? ==>
                    w.calls[p].stage.outcome == Status.Failed || w.calls[p].stage.outcome == Status.Blocked)
    ensures var w := After(steps, lease);
            forall r | r in w.store.rows ::
              && r in w.calls && w.store.rows[r].claim.run == r
              && w.store.rows[r].claim.lease == w.store.rows[r].claim.claimedAt + lease
              && (w.calls[r].request.thread == None || w.calls[r].request.thread == Some(w.store.rows[r].claim.thread))
  {
    AlwaysFaithful(steps, lease);
    LeaseStays(steps, lease);
    if |steps| > 0 {
      var init := steps[..|steps| - 1];
      RunsAreAsRequested(init, lease);
      AlwaysFaithful(init, lease);
      RequestsStay(After(init, lease), steps[|steps| - 1]);
    }
  }

  /** Whatever a call asks of the store begins a transaction of its own, on a thread that is free. */
  lemma IssueBegins(w: World, p: nat) returns (t: ThreadId)
    requires Can(w, Issue(p))
    ensures p in w.calls && Issues(w.calls[p].stage)
    ensures t in w.store.threads && t !in w.store.txns
    ensures Do(w, Issue(p)).store == w.store.(txns := w.store.txns[t := Start(Some(p), OperationOf(w, p))])
  {
    t := ThreadOf(w, p).value;
  }
}
