/** A call that nobody disturbs goes all the way: it claims, starts, runs its invoker once, commits its
    turn, and returns its own response. */
module RuntimeProgress {
  import opened Wrappers

  import opened Messages
  import opened RunRows
  import opened RunStore
  import opened RuntimeCalls
  import RunProgress
  import RunSound
  import RuntimeLaws

  /** The steps are possible one after another, and lead there. */
  ghost predicate Leads(w: World, steps: seq<WorldStep>, end: World)
    decreases |steps|
  {
    if |steps| == 0 then w == end
    else Can(w, steps[0]) && Leads(Do(w, steps[0]), steps[1..], end)
  }

  lemma {:induction false} LeadsOn(w: World, a: seq<WorldStep>, middle: World, b: seq<WorldStep>, end: World)
    requires Leads(w, a, middle) && Leads(middle, b, end)
    ensures Leads(w, a + b, end)
    decreases |a|
  {
    if a == [] {
      assert a + b == b;
    } else {
      assert (a + b)[0] == a[0] && (a + b)[1..] == a[1..] + b;
      LeadsOn(Do(w, a[0]), a[1..], middle, b, end);
    }
  }

  lemma LeadsThrough(w: World, a: seq<WorldStep>, w1: World, b: seq<WorldStep>, w2: World, c: seq<WorldStep>,
                     w3: World, d: seq<WorldStep>, w4: World, e: seq<WorldStep>, end: World)
    requires Leads(w, a, w1) && Leads(w1, b, w2) && Leads(w2, c, w3) && Leads(w3, d, w4) && Leads(w4, e, end)
    ensures Leads(w, a + b + c + d + e, end)
  {
    hide Leads;
    LeadsOn(w, a, w1, b, w2);
    LeadsOn(w, a + b, w2, c, w3);
    LeadsOn(w, a + b + c, w3, d, w4);
    LeadsOn(w, a + b + c + d, w4, e, end);
  }

  lemma One(w: World, step: WorldStep)
    requires Can(w, step)
    ensures Leads(w, [step], Do(w, step))
  {
    assert [step][1..] == [];
  }

  // ----- one transaction of a call -----

  predicate MayIssue(w: World, p: nat, t: ThreadId, op: Operation) {
    && p in w.calls && Issues(w.calls[p].stage) && OperationOf(w, p) == op && ThreadOf(w, p) == Some(t)
    && Awaits(Waiting(w.calls[p].stage), op) && MayBegin(w.store, t, op)
  }

  function Waits(w: World, p: nat): Call
    requires p in w.calls && Issues(w.calls[p].stage)
  {
    w.calls[p].(stage := Waiting(w.calls[p].stage))
  }

  /** The call waits while its transaction has come to `x`. */
  function Holding(w: World, p: nat, t: ThreadId, x: Txn): World
    requires p in w.calls && Issues(w.calls[p].stage)
  {
    World(RunProgress.With(w.store, t, x), w.calls[p := Waits(w, p)], w.executed, w.lease)
  }

  ghost function Answered(w: World, p: nat, t: ThreadId, x: Txn): World
    requires p in w.calls && Issues(w.calls[p].stage) && t in w.store.threads && x.phase.Done?
  {
    World(RunProgress.Committed(w.store, t, x),
          w.calls[p := w.calls[p].(stage := Heard(Waits(w, p), x.phase.reply))], w.executed, w.lease)
  }

  lemma IssueLeads(w: World, p: nat, t: ThreadId, op: Operation)
    requires MayIssue(w, p, t, op)
    ensures Leads(w, [Issue(p)], Holding(w, p, t, Start(Some(p), op)))
  {
    One(w, Issue(p));
  }

  lemma AdvanceLeads(w: World, p: nat, t: ThreadId, x: Txn)
    requires p in w.calls && Issues(w.calls[p].stage) && t in w.store.threads && !x.phase.Done?
    requires !HeldUp(RunProgress.With(w.store, t, x), t)
    requires !(x.op.ClaimRun? || x.op.Append?) ==> x.op.run in w.store.rows
    ensures Leads(Holding(w, p, t, x), [Outside(Advance(t))], Holding(w, p, t, RunProgress.NextIn(w.store, t, x)))
  {
    var s, y := w.store, RunProgress.NextIn(w.store, t, x);
    assert RunProgress.With(s, t, x).txns[t := y] == s.txns[t := y];
    One(Holding(w, p, t, x), Outside(Advance(t)));
  }

  lemma DeliverLeads(w: World, p: nat, t: ThreadId, x: Txn)
    requires p in w.calls && Issues(w.calls[p].stage) && RunProgress.Unlocked(w.store, t)
    requires x.phase.Done? && !x.phase.reply.Refused? && x.client == Some(p)
    requires Awaits(Waits(w, p).stage, x.op)
    ensures Leads(Holding(w, p, t, x), [Deliver(t)], Answered(w, p, t, x))
  {
    var held := Holding(w, p, t, x);
    assert RunProgress.With(w.store, t, x).txns - {t} == w.store.txns;
    assert held.calls[p := Waits(w, p).(stage := Heard(Waits(w, p), x.phase.reply))]
        == w.calls[p := w.calls[p].(stage := Heard(Waits(w, p), x.phase.reply))];
    One(held, Deliver(t));
  }

  function Steps(p: nat, t: ThreadId, n: nat): seq<WorldStep> {
    [Issue(p)] + seq(n, i => Outside(Advance(t))) + [Deliver(t)]
  }

  lemma MayIssueMeans(w: World, p: nat, t: ThreadId, op: Operation)
    requires MayIssue(w, p, t, op)
    ensures p in w.calls && Issues(w.calls[p].stage) && Awaits(Waits(w, p).stage, op)
  {
  }

  lemma ThreeStepsLead(w: World, p: nat, t: ThreadId, op: Operation, x1: Txn, x2: Txn, x3: Txn)
    requires MayIssue(w, p, t, op) && RunProgress.Unlocked(w.store, t)
    requires !(op.ClaimRun? || op.Append?) ==> op.run in w.store.rows
    requires x1.op == op && x2.op == op && x3.op == op && x3.client == Some(p)
    requires !x1.phase.Done? && !x2.phase.Done? && x3.phase.Done? && !x3.phase.reply.Refused?
    requires RunProgress.NextIn(w.store, t, Start(Some(p), op)) == x1
    requires RunProgress.NextIn(w.store, t, x1) == x2 && RunProgress.NextIn(w.store, t, x2) == x3
    requires !HeldUp(RunProgress.With(w.store, t, x1), t) && !HeldUp(RunProgress.With(w.store, t, x2), t)
    ensures Leads(w, Steps(p, t, 3), Answered(w, p, t, x3))
  {
    hide Leads, Holding, Answered, Heard, HeldUp, RunProgress.NextIn, RunProgress.With, MayIssue, Awaits, OperationOf;
    MayIssueMeans(w, p, t, op);
    var x0, advance := Start(Some(p), op), [Outside(Advance(t))];
    RunProgress.OnlyClaimsWait(w.store, t, x0);
    IssueLeads(w, p, t, op);
    AdvanceLeads(w, p, t, x0);
    AdvanceLeads(w, p, t, x1);
    AdvanceLeads(w, p, t, x2);
    DeliverLeads(w, p, t, x3);
    LeadsThrough(w, [Issue(p)], Holding(w, p, t, x0), advance, Holding(w, p, t, x1), advance,
                 Holding(w, p, t, x2), advance, Holding(w, p, t, x3), [Deliver(t)], Answered(w, p, t, x3));
    assert [Issue(p)] + advance + advance + advance + [Deliver(t)] == Steps(p, t, 3);
  }

  lemma OneStepLeads(w: World, p: nat, t: ThreadId, op: Operation, x1: Txn)
    requires MayIssue(w, p, t, op) && RunProgress.Unlocked(w.store, t)
    requires !(op.ClaimRun? || op.Append?) && op.run in w.store.rows
    requires x1.op == op && x1.client == Some(p) && x1.phase.Done? && !x1.phase.reply.Refused?
    requires RunProgress.NextIn(w.store, t, Start(Some(p), op)) == x1
    ensures Leads(w, Steps(p, t, 1), Answered(w, p, t, x1))
  {
    var x0, advance := Start(Some(p), op), [Outside(Advance(t))];
    RunProgress.OnlyClaimsWait(w.store, t, x0);
    IssueLeads(w, p, t, op);
    AdvanceLeads(w, p, t, x0);
    DeliverLeads(w, p, t, x1);
    hide Leads, Holding, Answered, Heard;
    LeadsOn(w, [Issue(p)], Holding(w, p, t, x0), advance, Holding(w, p, t, x1));
    LeadsOn(w, [Issue(p)] + advance, Holding(w, p, t, x1), [Deliver(t)], Answered(w, p, t, x1));
    assert [Issue(p)] + advance + [Deliver(t)] == Steps(p, t, 1);
  }

  // ----- the three transactions of a call -----

  /** The call has come to a stage, its run to a row, and everything else about the world is as before,
      but for dead runs of its thread, which may be expired. */
  ghost predicate Reached(w: World, p: nat, t: ThreadId, stage: Stage, row: Row, end: World) {
    && p in w.calls && p in end.calls
    && end.calls == w.calls[p := Call(w.calls[p].request, stage)] && end.lease == w.lease
    && end.store.clock == w.store.clock && end.store.threads == w.store.threads && end.store.txns == w.store.txns
    && p in end.store.rows && end.store.rows[p] == row
  }

  ghost predicate MayClaim(w: World, p: nat, t: ThreadId) {
    && p in w.calls && w.calls[p].stage == Claiming(t) && p !in w.store.rows
    && RunProgress.Unlocked(w.store, t) && RunProgress.NoneLive(w.store, t)
    && FindKey(w.store.rows, w.calls[p].request.agent.id, w.calls[p].request.key) == None
    && RunProgress.Unopposed(w.store, t, OperationOf(w, p))
  }

  lemma CallClaims(w: World, p: nat, t: ThreadId) returns (end: World)
    requires MayClaim(w, p, t)
    ensures Leads(w, Steps(p, t, 3), end) && end.executed == w.executed
    ensures Reached(w, p, t, Starting, NewRow(OperationOf(w, p), t, w.store.clock), end)
  {
    var s, op := w.store, OperationOf(w, p);
    var x1 := Start(Some(p), op).(phase := KeyFree);
    var x2 := Start(Some(p), op).(phase := Timed(s.clock), staged := RunProgress.Expiring(s, t));
    RunProgress.ClaimNexts(s, t, Some(p), op);
    RunProgress.OnlyClaimsWait(s, t, x1);
    RunProgress.Unheld(s, t, x2);
    hide Leads, HeldUp, FindKey, RunProgress.NextIn, RunProgress.Expiring, RunProgress.NoneLive, RunProgress.Unopposed;
    ThreeStepsLead(w, p, t, op, x1, x2, RunProgress.ClaimedTxn(s, t, Some(p), op));
    end := Answered(w, p, t, RunProgress.ClaimedTxn(s, t, Some(p), op));
    assert s.threads[t] + [] == s.threads[t];
  }

  lemma StartNext(s: Store, t: ThreadId, p: nat, row: Row)
    requires t in s.threads && p in s.rows && s.rows[p] == row
    requires row.status.Accepted? && row.claim.token == p && s.clock < row.claim.lease
    ensures var op := Operation.Transition(p, Status.Running, p, None, None);
            var running := row.(status := Running, error := None);
            RunProgress.NextIn(s, t, Start(Some(p), op))
            == Start(Some(p), op).(phase := Done(Settled(running)), staged := map[p := running])
  {
  }

  lemma CallStarts(w: World, p: nat, t: ThreadId, row: Row) returns (end: World)
    requires p in w.calls && w.calls[p].stage.Starting? && RunProgress.Unlocked(w.store, t)
    requires p in w.store.rows && w.store.rows[p] == row && row.claim.thread == t
    requires row.status.Accepted? && row.claim.token == p && w.store.clock < row.claim.lease
    ensures Leads(w, Steps(p, t, 1), end) && end.executed == w.executed
    ensures Reached(w, p, t, Ready, row.(status := Running, error := None), end)
  {
    var op := Operation.Transition(p, Status.Running, p, None, None);
    var running := row.(status := Running, error := None);
    var x1 := Start(Some(p), op).(phase := Done(Settled(running)), staged := map[p := running]);
    StartNext(w.store, t, p, row);
    hide Leads, RunProgress.NextIn;
    OneStepLeads(w, p, t, op, x1);
    end := Answered(w, p, t, x1);
    assert w.store.threads[t] + [] == w.store.threads[t];
  }

  /** The call returns its answer, which its run now holds, and its messages end the thread. */
  ghost predicate HasCommitted(w: World, p: nat, t: ThreadId, op: Operation, end: World)
    requires p in w.calls && t in w.store.threads && op.Complete?
  {
    && end.calls == w.calls[p := Call(w.calls[p].request, Returned(op.answer))]
    && end.store.threads == w.store.threads[t := w.store.threads[t] + Numbered(|w.store.threads[t]|, op.messages)]
    && p in end.store.rows && end.store.rows[p].status.Succeeded?
    && end.store.rows[p].response == Some(op.answer)
  }

  lemma CallCompletes(w: World, p: nat, t: ThreadId, row: Row, op: Operation) returns (end: World)
    requires p in w.calls && w.calls[p].stage.Completing? && RunProgress.Unlocked(w.store, t)
    requires op == OperationOf(w, p)
    requires p in w.store.rows && w.store.rows[p] == row && row.claim.thread == t
    requires LastSequence(w.store.threads[t]) == |w.store.threads[t]|
    requires CompletionError(row, p, op.messages, op.answer, w.store.clock) == None
    ensures Leads(w, Steps(p, t, 3), end) && end.executed == w.executed
    ensures HasCommitted(w, p, t, op, end)
  {
    var s := w.store;
    var x1 := Start(Some(p), op).(phase := Approved);
    var x2 := Start(Some(p), op).(phase := Written, batch := Numbered(|s.threads[t]|, op.messages));
    RunProgress.CompletionNexts(s, t, Some(p), op);
    RunProgress.OnlyClaimsWait(s, t, x1);
    RunProgress.OnlyClaimsWait(s, t, x2);
    hide Leads, HeldUp, RunProgress.NextIn, CompletionError;
    ThreeStepsLead(w, p, t, op, x1, x2, RunProgress.CompletedTxn(s, t, Some(p), op));
    end := Answered(w, p, t, RunProgress.CompletedTxn(s, t, Some(p), op));
  }

  // ----- the whole call -----

  function ClaimToAnswer(p: nat, t: ThreadId, output: seq<Message>, response: Response): seq<WorldStep> {
    Steps(p, t, 3) + Steps(p, t, 1) + [Execute(p)] + [Output(p, output, response)] + Steps(p, t, 3)
  }

  /** What the invoker's output must be: the response is the run's own and ends the batch. */
  predicate IsOwnAnswer(w: World, p: nat, t: ThreadId, output: seq<Message>, response: Response)
    requires p in w.calls
  {
    var r := w.calls[p].request;
    && response == Response(p, r.request, t, r.agent, response.message, response.rest)
    && LastAssistant(r.messages + output) == Some(response.message)
  }

  lemma OwnAnswerCompletes(w: World, p: nat, t: ThreadId, output: seq<Message>, response: Response, row: Row)
    requires p in w.calls && IsOwnAnswer(w, p, t, output, response)
    requires var r := w.calls[p].request;
             && row.claim.run == p && row.claim.token == p && row.claim.request == r.request
             && row.claim.agent == r.agent && row.claim.thread == t
    requires row.status.Running? && w.store.clock < row.claim.lease
    ensures CompletionError(row, p, w.calls[p].request.messages + output, response, w.store.clock) == None
  {
  }

  /** Running the invoker and taking its output changes only the call's stage and the executions. */
  lemma CallExecutes(w: World, p: nat, output: seq<Message>, response: Response) returns (w4: World, w5: World)
    requires p in w.calls && w.calls[p].stage.Ready?
    ensures Leads(w, [Execute(p)], w4) && Leads(w4, [Output(p, output, response)], w5)
    ensures w5 == World(w.store, w.calls[p := Call(w.calls[p].request, Completing(output, response))],
                        w.executed + [p], w.lease)
  {
    w4 := Do(w, Execute(p));
    One(w, Execute(p));
    w5 := Do(w4, Output(p, output, response));
    One(w4, Output(p, output, response));
    assert w4.calls[p := w4.calls[p].(stage := Completing(output, response))]
        == w.calls[p := Call(w.calls[p].request, Completing(output, response))];
  }

  /** The call returned its response after one execution, and its thread ends in its request and its
      output. */
  ghost predicate HasReturned(w: World, p: nat, t: ThreadId, output: seq<Message>, response: Response, end: World) {
    && p in w.calls && p in end.calls && end.calls[p].stage == Returned(response)
    && end.executed == w.executed + [p]
    && t in w.store.threads && t in end.store.threads
    && end.store.threads[t]
       == w.store.threads[t] + Numbered(|w.store.threads[t]|, w.calls[p].request.messages + output)
  }

  lemma ClaimAndStart(w: World, p: nat, t: ThreadId) returns (w2: World, w3: World)
    requires MayClaim(w, p, t) && w.lease > 0
    ensures Leads(w, Steps(p, t, 3), w2) && Leads(w2, Steps(p, t, 1), w3) && w3.executed == w.executed
    ensures Reached(w, p, t, Ready, Started(w, p, t), w3)
  {
    var row := NewRow(OperationOf(w, p), t, w.store.clock);
    w2 := CallClaims(w, p, t);
    hide Leads, Steps;
    w3 := CallStarts(w2, p, t, row);
  }

  /** The run of a call once it was claimed and started without delay. */
  function Started(w: World, p: nat, t: ThreadId): Row
    requires p in w.calls && w.calls[p].stage == Claiming(t)
  {
    NewRow(OperationOf(w, p), t, w.store.clock).(status := Running)
  }

  lemma ReturnsOwn(w: World, p: nat, t: ThreadId, output: seq<Message>, response: Response, row: Row,
                   w3: World, w5: World, op: Operation, end: World)
    requires t in w.store.threads && Reached(w, p, t, Ready, row, w3) && w3.executed == w.executed
    requires w5 == World(w3.store, w3.calls[p := Call(w3.calls[p].request, Completing(output, response))],
                         w3.executed + [p], w3.lease)
    requires op == Complete(p, p, w.calls[p].request.messages + output, response)
    requires HasCommitted(w5, p, t, op, end) && end.executed == w5.executed
    ensures HasReturned(w, p, t, output, response, end)
  {
  }

  lemma ClaimingCallReturns(w: World, p: nat, t: ThreadId, output: seq<Message>, response: Response)
    returns (end: World)
    requires MayClaim(w, p, t) && w.lease > 0 && IsOwnAnswer(w, p, t, output, response)
    requires LastSequence(w.store.threads[t]) == |w.store.threads[t]|
    ensures Leads(w, ClaimToAnswer(p, t, output, response), end)
    ensures HasReturned(w, p, t, output, response, end)
  {
    hide Leads, Steps, CompletionError, IsOwnAnswer, LastSequence, FindKey, Numbered, HasReturned, HasCommitted;
    hide RunProgress.Unopposed, RunProgress.NoneLive;
    OwnAnswerCompletes(w, p, t, output, response, Started(w, p, t));
    var w2, w3 := ClaimAndStart(w, p, t);
    var w4, w5 := CallExecutes(w3, p, output, response);
    end := CallCompletes(w5, p, t, Started(w, p, t), OperationOf(w5, p));
    ReturnsOwn(w, p, t, output, response, Started(w, p, t), w3, w5, OperationOf(w5, p), end);
    LeadsThrough(w, Steps(p, t, 3), w2, Steps(p, t, 1), w3, [Execute(p)], w4, [Output(p, output, response)], w5,
                 Steps(p, t, 3), end);
  }

  /** A call on a free thread, with a key nobody has, goes from opening its thread to returning its own
      response. */
  lemma UndisturbedCallReturns(w: World, p: nat, t: ThreadId, output: seq<Message>, response: Response)
    returns (end: World)
    requires RuntimeLaws.Faithful(w) && w.lease > 0
    requires Can(w, Open(p, t)) && MayClaim(Do(w, Open(p, t)), p, t) && IsOwnAnswer(w, p, t, output, response)
    ensures Leads(w, [Open(p, t)] + ClaimToAnswer(p, t, output, response), end)
    ensures HasReturned(w, p, t, output, response, end)
  {
    var w1 := Do(w, Open(p, t));
    One(w, Open(p, t));
    hide Leads, RunSound.Sound, RuntimeLaws.RowsOwned, RuntimeLaws.TxnsOwned, RuntimeLaws.CallsOk, RuntimeLaws.ExecutedOk;
    hide MayClaim, LastSequence;
    RunProgress.LastIsLength(w.store, t);
    end := ClaimingCallReturns(w1, p, t, output, response);
    LeadsOn(w, [Open(p, t)], w1, ClaimToAnswer(p, t, output, response), end);
  }

  // ----- after an uncertain commit -----

  lemma CleanNext(s: Store, t: ThreadId, p: nat, op: Operation)
    requires t in s.threads && p in s.rows && op.FailIfRunning? && op.run == p && s.rows[p].claim.token == op.token
    ensures var settled := AfterFailure(s.rows[p], op.token, op.code, op.outcome, s.clock);
            && settled.Ok?
            && RunProgress.NextIn(s, t, Start(Some(p), op))
               == Start(Some(p), op).(phase := Done(Settled(settled.value)),
                                                  staged := map[p := settled.value])
  {
  }

  /** The run is cleaned up, and nothing else in the store changed; the call returns a committed success
      unless its caller was cancelled, and otherwise raises. */
  ghost predicate IsReconciled(w: World, p: nat, cancelled: bool, code: string, outcome: Status, end: World)
    requires p in w.calls && p in w.store.rows
  {
    var before := w.store.rows[p];
    && p in end.store.rows && CleanedUp(before, end.store.rows[p], code, outcome, w.store.clock)
    && end.store.rows == w.store.rows[p := end.store.rows[p]]
    && end.store.threads == w.store.threads && end.executed == w.executed
    && (before.status == Succeeded ==> before.response.Some?)
    && end.calls == w.calls[p := Call(w.calls[p].request,
                                      if before.status == Succeeded && !cancelled
                                      then Returned(before.response.value) else Raised)]
  }

  lemma SettledReconciles(w: World, p: nat, t: ThreadId, x: Txn, settled: Row)
    requires p in w.calls && w.calls[p].stage.Cleaning? && p in w.store.rows && t in w.store.threads
    requires x.phase == Done(Settled(settled)) && x.staged == map[p := settled] && x.batch == []
    requires w.calls[p].stage.outcome.Failed? || w.calls[p].stage.outcome.Blocked?
    requires w.store.rows[p].status == Succeeded ==> w.store.rows[p].response.Some?
    requires var stage := w.calls[p].stage;
             CleanedUp(w.store.rows[p], settled, stage.code, stage.outcome, w.store.clock)
    ensures var stage := w.calls[p].stage;
            IsReconciled(w, p, stage.cancelled, stage.code, stage.outcome, Answered(w, p, t, x))
  {
    assert w.store.threads[t] + [] == w.store.threads[t];
    assert w.store.threads[t := w.store.threads[t]] == w.store.threads;
    assert w.store.rows + map[p := settled] == w.store.rows[p := settled];
  }

  lemma CleanupReconciles(w: World, p: nat, t: ThreadId, op: Operation) returns (end: World)
    requires MayIssue(w, p, t, op) && op.FailIfRunning? && w.calls[p].stage.Cleaning?
    requires p in w.store.rows && op.run == p && w.store.rows[p].claim.token == op.token
    requires w.calls[p].stage.outcome.Failed? || w.calls[p].stage.outcome.Blocked?
    requires w.store.rows[p].status == Succeeded ==> w.store.rows[p].response.Some?
    requires op.code == w.calls[p].stage.code && op.outcome == w.calls[p].stage.outcome
    requires RunProgress.Unlocked(w.store, t)
    ensures Leads(w, Steps(p, t, 1), end)
    ensures var stage := w.calls[p].stage; IsReconciled(w, p, stage.cancelled, stage.code, stage.outcome, end)
  {
    CleanNext(w.store, t, p, op);
    var settled := AfterFailure(w.store.rows[p], op.token, op.code, op.outcome, w.store.clock).value;
    var x1 := Start(Some(p), op).(phase := Done(Settled(settled)), staged := map[p := settled]);
    SettledReconciles(w, p, t, x1, settled);
    hide Leads, RunProgress.NextIn, IsReconciled, Answered, MayIssue, AfterFailure;
    OneStepLeads(w, p, t, op, x1);
    end := Answered(w, p, t, x1);
  }

  /** A call that failed without knowing whether its completion was committed asks the store: if it was,
      and the caller was not cancelled, it returns the committed response; otherwise it raises, and its
      run is over either way. */
  lemma UncertainCallIsReconciled(w: World, p: nat, t: ThreadId) returns (end: World)
    requires RuntimeLaws.Faithful(w) && p in w.calls && w.calls[p].stage.Cleaning?
    requires w.calls[p].stage.outcome.Failed? || w.calls[p].stage.outcome.Blocked?
    requires p in w.store.rows && w.store.rows[p].claim.thread == t && RunProgress.Unlocked(w.store, t)
    ensures Leads(w, Steps(p, t, 1), end)
    ensures var stage := w.calls[p].stage; IsReconciled(w, p, stage.cancelled, stage.code, stage.outcome, end)
  {
    RuntimeLaws.RowIsOk(w.store, p);
    hide RunSound.Sound, RuntimeLaws.TxnsOwned, RuntimeLaws.CallsOk, RuntimeLaws.ExecutedOk, Leads, IsReconciled;
    assert RuntimeLaws.Mine(w.store.rows[p].claim, p, w.calls[p].request);
    hide RuntimeLaws.RowsOwned, Steps;
    end := CleanupReconciles(w, p, t, OperationOf(w, p));
  }
}
