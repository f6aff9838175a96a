/** What the run store promises over whole runs of any length and any interleaving. */
module RunLaws {
  import opened Wrappers

  import opened RunRows
  import opened RunStore
  import opened RunSound
  import opened RunSteps

  // ----- runs -----

  /** Steps that an empty store can take in this order. */
  ghost predicate Possible(steps: seq<Step>)
    decreases |steps|, 0
  {
    |steps| > 0 ==>
      Possible(steps[..|steps| - 1]) && Enabled(After(steps[..|steps| - 1]), steps[|steps| - 1])
  }

  ghost function After(steps: seq<Step>): Store
    requires Possible(steps)
    decreases |steps|, 1
  {
    if |steps| == 0 then EMPTY else Apply(After(steps[..|steps| - 1]), steps[|steps| - 1])
  }

  lemma {:induction false} AlwaysSound(steps: seq<Step>)
    requires Possible(steps)
    ensures Sound(After(steps))
  {
    if |steps| > 0 {
      AlwaysSound(steps[..|steps| - 1]);
      StepKeeps(After(steps[..|steps| - 1]), steps[|steps| - 1]);
    }
  }

  lemma {:induction false} PrefixPossible(steps: seq<Step>, i: nat)
    requires Possible(steps) && i <= |steps|
    ensures Possible(steps[..i])
    ensures i < |steps| ==> Enabled(After(steps[..i]), steps[i])
                            && Possible(steps[..i + 1]) && After(steps[..i + 1]) == Apply(After(steps[..i]), steps[i])
  {
    if i == |steps| {
      assert steps[..i] == steps;
    } else {
      var init := steps[..|steps| - 1];
      if i < |init| { assert init[..i] == steps[..i] && init[..i + 1] == steps[..i + 1]; }
      else { assert steps[..i + 1] == steps; }
      PrefixPossible(init, i);
    }
  }

  // ----- exclusion -----

  /** A run holds its thread from the moment it was claimed until it is over. */
  ghost predicate Holds(row: Row, time: Time) {
    row.claim.claimedAt <= time && (row.completedAt.Some? ==> time < row.completedAt.value)
  }

  /** Two runs never hold one thread at the same time, nor are both of them unfinished. */
  lemma ThreadExclusion(steps: seq<Step>, a: RunId, b: RunId, time: Time)
    requires Possible(steps)
    requires a in After(steps).rows && b in After(steps).rows && a != b
    requires After(steps).rows[a].claim.thread == After(steps).rows[b].claim.thread
    ensures !(Holds(After(steps).rows[a], time) && Holds(After(steps).rows[b], time))
    ensures !(Active(After(steps).rows[a]) && Active(After(steps).rows[b]))
  {
    AlwaysSound(steps);
    assert Compatible(After(steps).rows[a], After(steps).rows[b]);
  }

  // ----- transactions on a thread come one after another -----

  /** A transaction stays open until it is finished or aborted. */
  lemma {:induction false} StaysOpen(steps: seq<Step>, i: nat, t: ThreadId)
    requires Possible(steps) && i < |steps| && steps[i].Begin? && steps[i].thread == t
    requires forall k | i < k < |steps| :: steps[k] != Finish(t) && steps[k] != Abort(t)
    ensures t in After(steps).txns && After(steps).txns[t].op == steps[i].op
    ensures forall k | i < k < |steps| :: !(steps[k].Begin? && steps[k].thread == t)
  {
    var n := |steps| - 1;
    hide HeldUp;
    if i < n {
      StaysOpen(steps[..n], i, t);
      assert steps[n] != Finish(t) && steps[n] != Abort(t);
      assert forall k | i < k < n :: steps[k] == steps[..n][k];
    }
  }

  /** Between two transactions on a thread the first one was finished or aborted, and until then it was
      the thread's only one. */
  lemma OneAtATime(steps: seq<Step>, i: nat, j: nat, t: ThreadId)
    requires Possible(steps) && i < j < |steps|
    requires steps[i].Begin? && steps[i].thread == t && steps[j].Begin? && steps[j].thread == t
    ensures exists k | i < k < j :: steps[k] == Finish(t) || steps[k] == Abort(t)
  {
    hide Enabled, Apply;
    PrefixPossible(steps, j);
    PrefixPossible(steps, j + 1);
    if forall k | i < k < j :: steps[k] != Finish(t) && steps[k] != Abort(t) {
      var upTo := steps[..j + 1];
      assert upTo[i] == steps[i] && upTo[j] == steps[j];
      assert forall k | i < k < |upTo| :: upTo[k] == steps[k];
      StaysOpen(upTo, i, t);
      assert false;
    }
  }

  /** An aborted transaction frees its thread and leaves nothing else behind. */
  lemma AbortLeavesNothing(steps: seq<Step>, t: ThreadId)
    requires Possible(steps) && |steps| > 0 && steps[|steps| - 1] == Abort(t)
    ensures var before, after := After(steps[..|steps| - 1]), After(steps);
            && t in before.txns && after.txns == before.txns - {t}
            && after.rows == before.rows && after.threads == before.threads && after.log == before.log
            && after.clock == before.clock
  {
    hide HeldUp;
  }

  // ----- rows only evolve -----

  lemma StepEvolves(s: Store, step: Step, r: RunId)
    requires Sound(s) && Enabled(s, step) && r in s.rows
    ensures r in Apply(s, step).rows && Evolves(s.rows[r], Apply(s, step).rows[r])
  {
    if step.Finish? && !IsRefused(s.txns[step.thread]) {
      RowElsewhere(s.txns[step.thread], step.thread, s.rows, r);
    }
  }

  /** No row is ever removed, no finished row ever changes, and no claim is ever rewritten. */
  lemma {:induction false} RowsEvolve(steps: seq<Step>, i: nat, r: RunId)
    requires Possible(steps) && i <= |steps|
    requires Possible(steps[..i]) && r in After(steps[..i]).rows
    ensures r in After(steps).rows && Evolves(After(steps[..i]).rows[r], After(steps).rows[r])
  {
    if i == |steps| {
      assert steps[..i] == steps;
    } else {
      var init := steps[..|steps| - 1];
      assert init[..i] == steps[..i];
      RowsEvolve(init, i, r);
      AlwaysSound(init);
      StepEvolves(After(init), steps[|steps| - 1], r);
    }
  }

  /** A response is present exactly on success, every run has its identity, and success came in time. */
  lemma RowsAreConsistent(steps: seq<Step>, r: RunId)
    requires Possible(steps) && r in After(steps).rows
    ensures var row := After(steps).rows[r];
            && (row.response.Some? <==> row.status.Succeeded?)
            && (row.completedAt.None? <==> Active(row))
            && (row.status.Succeeded? ==> BelongsTo(row.response.value, row.claim)
                                          && row.completedAt.value < row.claim.lease)
  {
    AlwaysSound(steps);
    assert RowOk(After(steps).rows[r], After(steps).clock);
  }

  // ----- fencing -----

  /** A row changes only when a transaction on its thread commits, and only for one of two reasons:
      its lease had run out, or its owner's token came in time. */
  lemma {:induction false} ChangesAreWarranted(s: Store, step: Step, r: RunId)
    requires Sound(s) && Enabled(s, step) && r in s.rows
    requires Apply(s, step).rows[r] != s.rows[r]
    ensures step == Finish(s.rows[r].claim.thread)
    ensures Warranted(s.txns[s.rows[r].claim.thread].op, s.rows[r], Apply(s, step).rows[r])
  {
    var x := s.txns[step.thread];
    assert TxnOk(x, step.thread, s.rows, s.threads[step.thread], s.clock);
    assert r in x.staged;
  }

  /** A run succeeds only by its claiming token's completion, before its lease ran out, and its
      messages become the end of its thread in the same step. */
  lemma {:induction false} SuccessIsFenced(s: Store, step: Step, r: RunId)
    requires Sound(s) && Enabled(s, step) && r in s.rows
    requires Apply(s, step).rows[r].status.Succeeded? && !s.rows[r].status.Succeeded?
    ensures step == Finish(s.rows[r].claim.thread)
    ensures var t := s.rows[r].claim.thread;
            var op, row := s.txns[t].op, Apply(s, step).rows[r];
            && op.Complete? && op.run == r && op.token == row.claim.token
            && row.completedAt.Some? && row.completedAt.value < row.claim.lease
            && row.response == Some(op.answer)
            && Apply(s, step).threads[t] == s.threads[t] + Numbered(|s.threads[t]|, op.messages)
  {
    ChangesAreWarranted(s, step, r);
    var t := s.rows[r].claim.thread;
    BatchIsNext(s.txns[t], t, s.rows, s.threads[t], s.clock);
    assert RowOk((s.rows + s.txns[t].staged)[r], s.clock);
  }

  /** Another run was claimed on the thread after this one. */
  ghost predicate Superseded(s: Store, r: RunId)
    requires r in s.rows
  {
    exists q | q in s.rows && q != r && s.rows[q].claim.thread == s.rows[r].claim.thread ::
      Active(s.rows[q]) || s.rows[q].claim.claimedAt > s.rows[r].claim.claimedAt
  }

  lemma SupersededIsOver(s: Store, r: RunId)
    requires Sound(s) && r in s.rows && Superseded(s, r)
    ensures !Active(s.rows[r])
  {
    var q :| q in s.rows && q != r && s.rows[q].claim.thread == s.rows[r].claim.thread
             && (Active(s.rows[q]) || s.rows[q].claim.claimedAt > s.rows[r].claim.claimedAt);
    assert Compatible(s.rows[r], s.rows[q]);
  }

  /** A transaction on a run that is over stages that run as it is, and no message. */
  lemma OverStagesNothing(s: Store, t: ThreadId)
    requires Sound(s) && Enabled(s, Finish(t)) && !IsRefused(s.txns[t])
    requires !(s.txns[t].op.ClaimRun? || s.txns[t].op.Append?)
    requires s.txns[t].op.run in s.rows && !Active(s.rows[s.txns[t].op.run])
    ensures var x := s.txns[t];
            && !x.op.Complete? && x.batch == [] && x.staged == map[x.op.run := s.rows[x.op.run]]
  {
    var x := s.txns[t];
    assert TxnOk(x, t, s.rows, s.threads[t], s.clock);
    hide Sound, RowsOk;
    assert Evolves(s.rows[x.op.run], x.staged[x.op.run]);
  }

  /** Once a successor has claimed the thread, no operation on the stale run changes any row, any
      history, or the log. */
  lemma {:induction false} StaleOwnerChangesNothing(s: Store, t: ThreadId)
    requires Sound(s) && Enabled(s, Finish(t))
    requires !(s.txns[t].op.ClaimRun? || s.txns[t].op.Append?) && s.txns[t].op.run in s.rows
    requires Superseded(s, s.txns[t].op.run)
    ensures Apply(s, Finish(t)) == s.(txns := s.txns - {t})
  {
    hide Sound;
    SupersededIsOver(s, s.txns[t].op.run);
    if !IsRefused(s.txns[t]) {
      OverStagesNothing(s, t);
      assert s.rows + s.txns[t].staged == s.rows;
      assert s.threads[t] + [] == s.threads[t];
    }
  }

  /** When time runs out between the two owner checks, nothing of the completion is kept. */
  lemma LateCompletionKeepsNothing(s: Store, t: ThreadId)
    requires Sound(s) && t in s.txns && t in s.threads
    requires s.txns[t].op.Complete? && s.txns[t].phase.Written?
    ensures Enabled(s, Advance(t)) && Enabled(Apply(s, Advance(t)), Finish(t))
    ensures var settled := Apply(Apply(s, Advance(t)), Finish(t));
            if s.clock < s.rows[s.txns[t].op.run].claim.lease
            then s.txns[t].op.run in settled.rows && settled.rows[s.txns[t].op.run].status.Succeeded?
            else settled == s.(txns := s.txns - {t})
  {
    assert TxnOk(s.txns[t], t, s.rows, s.threads[t], s.clock);
    assert s.txns[t := Next(s.txns[t], t, s.rows, s.threads[t], s.clock)] - {t} == s.txns - {t};
  }

  /** A sweep or a recovery fails only a run that was unfinished and whose lease had run out. */
  lemma SweepFailsOnlyExpired(s: Store, t: ThreadId, r: RunId)
    requires Sound(s) && Enabled(s, Finish(t)) && (s.txns[t].op.Sweep? || s.txns[t].op.Recover?)
    requires r in Apply(s, Finish(t)).rows
    ensures r in s.rows
    ensures var before, after := s.rows[r], Apply(s, Finish(t)).rows[r];
            || after == before
            || (&& (before.status == Accepted || before.status == Running)
                && after.status == Failed && after.error == Some("owner_lease_expired")
                && after.response == None && after.claim == before.claim
                && after.completedAt.Some? && before.claim.lease <= after.completedAt.value <= s.clock)
  {
    var x := s.txns[t];
    if !IsRefused(x) {
      assert SettledOk(x, t, s.rows, x.phase.reply.row);
      if Apply(s, Finish(t)).rows[r] != s.rows[r] { ChangesAreWarranted(s, Finish(t), r); }
      assert RowOk((s.rows + x.staged)[r], s.clock);
    }
  }

  /** A claim is turned away for a busy thread exactly when an unfinished run there is still in time. */
  lemma BusyIffLive(s: Store, t: ThreadId)
    requires Sound(s) && t in s.txns && s.txns[t].op.ClaimRun? && s.txns[t].phase.KeyFree?
    ensures NextClaim(s.txns[t], t, s.rows, s.clock).phase == Done(Refused(ThreadBusy))
        <==> exists r | r in s.rows && s.rows[r].claim.thread == t ::
               Active(s.rows[r]) && s.clock < s.rows[r].claim.lease
  {
    var active := FindActive(s.rows, t);
    if r :| r in s.rows && s.rows[r].claim.thread == t && Active(s.rows[r]) && s.clock < s.rows[r].claim.lease {
      assert active.Some? && active.value != r ==> Compatible(s.rows[r], s.rows[active.value]);
    }
  }

  // ----- keys -----

  /** The row a step reports as created, if it is the commit of a claim that inserted one. */
  ghost function CreatedBy(s: Store, step: Step): Option<Row> {
    if step.Finish? && Enabled(s, step) && s.txns[step.thread].phase.reply.Created?
    then Some(s.txns[step.thread].phase.reply.row) else None
  }

  /** What a claim that reports a new row has staged. */
  lemma CreatedIsStaged(s: Store, t: ThreadId)
    requires Sound(s) && Enabled(s, Finish(t)) && s.txns[t].phase.reply.Created?
    ensures var x := s.txns[t];
            && x.op.ClaimRun? && x.op.run !in s.rows && x.op.run in x.staged
            && x.staged[x.op.run] == x.phase.reply.row && x.phase.reply.row.claim.run == x.op.run
            && RowsOk(s.rows + x.staged, s.clock)
            && (forall r | r in s.rows && r in x.staged :: x.staged[r].claim == s.rows[r].claim)
  {
    var x := s.txns[t];
    assert TxnOk(x, t, s.rows, s.threads[t], s.clock);
    hide Sound, RowsOk;
  }

  lemma CreationIsNew(s: Store, step: Step)
    requires Sound(s) && Enabled(s, step) && CreatedBy(s, step).Some?
    ensures var row := CreatedBy(s, step).value;
            && row.claim.run !in s.rows
            && row.claim.run in Apply(s, step).rows && Apply(s, step).rows[row.claim.run] == row
            && (forall q | q in s.rows :: !SameKey(s.rows[q].claim, row.claim))
  {
    hide Sound;
    CreatedIsStaged(s, step.thread);
    var x := s.txns[step.thread];
    var row, rows := x.phase.reply.row, s.rows + x.staged;
    forall q | q in s.rows ensures !SameKey(s.rows[q].claim, row.claim) {
      assert Compatible(rows[q], rows[x.op.run]);
    }
  }

  /** What a step created is still claimed the same way at any later point. */
  lemma CreationStays(steps: seq<Step>, i: nat, row: Row)
    requires Possible(steps) && i < |steps| && Possible(steps[..i])
    requires CreatedBy(After(steps[..i]), steps[i]) == Some(row)
    ensures row.claim.run in After(steps).rows && After(steps).rows[row.claim.run].claim == row.claim
  {
    hide Sound;
    PrefixPossible(steps, i);
    AlwaysSound(steps[..i]);
    CreationIsNew(After(steps[..i]), steps[i]);
    RowsEvolve(steps, i + 1, row.claim.run);
  }

  /** Over any run of the store, at most one claim reports a key, or a run id, as created. */
  lemma CreatedOnce(steps: seq<Step>, i: nat, j: nat)
    requires Possible(steps) && i < j < |steps|
    requires Possible(steps[..i]) && Possible(steps[..j])
    requires CreatedBy(After(steps[..i]), steps[i]).Some? && CreatedBy(After(steps[..j]), steps[j]).Some?
    ensures !Clashes(CreatedBy(After(steps[..i]), steps[i]).value.claim,
                     CreatedBy(After(steps[..j]), steps[j]).value.claim)
  {
    hide Sound;
    assert steps[..j][..i] == steps[..i];
    CreationStays(steps[..j], i, CreatedBy(After(steps[..i]), steps[i]).value);
    PrefixPossible(steps, j);
    AlwaysSound(steps[..j]);
    CreationIsNew(After(steps[..j]), steps[j]);
  }

  // ----- history -----

  /** Every thread holds its committed batches end to end, numbered 1, 2, 3 and so on. */
  lemma HistoryIsCommitted(steps: seq<Step>, t: ThreadId)
    requires Possible(steps) && t in After(steps).threads
    ensures var history := After(steps).threads[t];
            && |history| == |MessagesIn(After(steps).log, t)|
            && forall k | 0 <= k < |history| ::
                 history[k] == Stored(k + 1, MessagesIn(After(steps).log, t)[k])
  {
    AlwaysSound(steps);
  }

  /** Exactly the succeeded runs have a batch in the log, each one of them exactly one, on its own
      thread and ending in the assistant message its response carries. */
  lemma BatchesAreSuccesses(steps: seq<Step>, r: RunId)
    requires Possible(steps)
    ensures var s := After(steps);
            && ((r in s.rows && s.rows[r].status.Succeeded?) <==> Credited(s.log, r))
            && (forall i, j | 0 <= i < |s.log| && 0 <= j < |s.log|
                              && s.log[i].origin == Some(r) && s.log[j].origin == Some(r) :: i == j)
            && (forall i | 0 <= i < |s.log| && s.log[i].origin == Some(r) :: Credits(s.log[i], s.rows))
  {
    AlwaysSound(steps);
  }
}
