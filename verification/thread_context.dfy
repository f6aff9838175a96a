/** Why selecting context from a thread the native agent wrote never meets a broken tool exchange. */
module ThreadContext {
  import opened Wrappers

  import opened Messages
  import opened ContextSpec
  import opened ContextFacts
  import opened ContextExchanges
  import NativeLoop
  import NativeLaws
  import RunStore
  import RunSound
  import RuntimeCalls
  import RuntimeLaws

  // ----- balanced messages -----

  function Ids(calls: seq<ToolCall>): set<string> { set c | c in calls :: c.id }

  /** A message that only calls, under new and distinct ids, opens exactly its calls. */
  lemma {:induction false} CallsOpen(pending: set<string>, content: seq<Part>)
    requires forall k | 0 <= k < |content| :: !content[k].ToolResultPart?
    requires forall c | c in NativeLoop.CallsIn(content) :: c.id !in pending
    requires forall i, j | 0 <= i < j < |NativeLoop.CallsIn(content)| ::
               NativeLoop.CallsIn(content)[i].id != NativeLoop.CallsIn(content)[j].id
    ensures Consume(pending, content) == Pending(pending + Ids(NativeLoop.CallsIn(content)))
  {
    if content == [] {
      assert Ids([]) == {};
    } else {
      var init, last := content[..|content| - 1], content[|content| - 1];
      var calls := NativeLoop.CallsIn(init);
      assert content == init + [last];
      if last.ToolCallPart? {
        assert NativeLoop.CallsIn(content) == calls + [last.call];
        assert forall k | 0 <= k < |calls| :: NativeLoop.CallsIn(content)[k] == calls[k];
        assert NativeLoop.CallsIn(content)[|calls|] == last.call;
        assert Ids(calls + [last.call]) == Ids(calls) + {last.call.id};
      } else {
        assert NativeLoop.CallsIn(content) == calls + [] == calls;
      }
      forall i, j | 0 <= i < j < |calls| ensures calls[i].id != calls[j].id {
        assert NativeLoop.CallsIn(content)[i] == calls[i] && NativeLoop.CallsIn(content)[j] == calls[j];
      }
      CallsOpen(pending, init);
      ConsumeConcat(pending, init, [last]);
      if last.ToolCallPart? {
        assert last.call in NativeLoop.CallsIn(content);
        assert last.call.id !in Ids(calls);
        assert pending + Ids(calls) + {last.call.id} == pending + (Ids(calls) + {last.call.id});
      }
    }
  }

  predicate DistinctIds(calls: seq<ToolCall>) {
    forall i, j | 0 <= i < j < |calls| :: calls[i].id != calls[j].id
  }

  /** Answering the oldest open call leaves the later ones open. */
  lemma AnswerCloses(ms: seq<Message>, tool: Message, calls: seq<ToolCall>, k: nat)
    requires DistinctIds(calls) && k < |calls| && Exchanged(ms) == Pending(Ids(calls[k..]))
    requires tool.role.Tool? && |tool.content| == 1 && tool.content[0].ToolResultPart?
    requires tool.content[0].callId == calls[k].id
    ensures Exchanged(ms + [tool]) == Pending(Ids(calls[k + 1..]))
  {
    ExchangedSnoc(ms, tool);
    assert calls[k..] == [calls[k]] + calls[k + 1..];
    assert calls[k] in calls[k..];
    assert calls[k].id !in Ids(calls[k + 1..]);
    assert Ids(calls[k..]) - {calls[k].id} == Ids(calls[k + 1..]);
    OneResult(Ids(calls[k..]), tool.content);
  }

  /** Tool messages that answer the first calls of a turn leave the others open. */
  lemma {:induction false} AnswersClose(w: NativeLoop.World, ms: seq<Message>, turn: NativeLoop.Turn, n: nat, k: nat)
    requires NativeLaws.Answered(turn) && k <= |turn.answers| && DistinctIds(turn.result.toolCalls)
    requires Exchanged(ms) == Pending(Ids(turn.result.toolCalls))
    ensures Exchanged(ms + NativeLoop.ToolMessages(w, n, turn.answers)[..k])
         == Pending(Ids(turn.result.toolCalls[k..]))
  {
    hide Exchanged, Ids, DistinctIds;
    var tools, calls := NativeLoop.ToolMessages(w, n, turn.answers), turn.result.toolCalls;
    if k == 0 {
      assert ms + tools[..0] == ms && calls[0..] == calls;
    } else {
      AnswersClose(w, ms, turn, n, k - 1);
      AnswerCloses(ms + tools[..k - 1], tools[k - 1], calls, k - 1);
      assert ms + tools[..k] == ms + tools[..k - 1] + [tools[k - 1]];
    }
  }

  lemma OneResult(pending: set<string>, content: seq<Part>)
    requires |content| == 1 && content[0].ToolResultPart? && content[0].callId in pending
    ensures Consume(pending, content) == Pending(pending - {content[0].callId})
  {
    assert content[1..] == [];
  }

  /** Whatever turns were answered in full leave nothing open. */
  lemma {:induction false} TurnsBalance(w: NativeLoop.World, turns: seq<NativeLoop.Turn>)
    requires forall k | 0 <= k < |turns| ::
               NativeLoop.Canonical(turns[k].result) && NativeLaws.Answered(turns[k])
    ensures Balanced(NativeLoop.Generated(w, turns))
  {
    if |turns| > 0 {
      var init, turn := turns[..|turns| - 1], turns[|turns| - 1];
      var before, n := NativeLoop.Generated(w, init), |NativeLoop.Answers(init)|;
      TurnsBalance(w, init);
      ExchangedSnoc(before, turn.result.message);
      CallsOpen({}, turn.result.message.content);
      assert {} + Ids(turn.result.toolCalls) == Ids(turn.result.toolCalls);
      AnswersClose(w, before + [turn.result.message], turn, n, |turn.answers|);
      var tools := NativeLoop.ToolMessages(w, n, turn.answers);
      assert tools[..|tools|] == tools;
      assert Ids([]) == {};
    }
  }

  lemma LastMessage(w: NativeLoop.World, turns: seq<NativeLoop.Turn>)
    requires turns != [] && NativeLaws.Last(turns).answers == []
    ensures var ms := NativeLoop.Generated(w, turns);
            ms != [] && ms[|ms| - 1] == NativeLaws.Last(turns).result.message
  {
    assert NativeLoop.ToolMessages(w, |NativeLoop.Answers(turns[..|turns| - 1])|, []) == [];
  }

  /** Every completed native output is balanced, and its last message calls nothing. */
  lemma CompletedIsBalanced(w: NativeLoop.World, request: seq<Message>, limit: nat)
    ensures NativeLoop.OutcomeOf(w, NativeLoop.Play(w, request, limit, [])).Completed? ==>
              var ms := NativeLoop.OutcomeOf(w, NativeLoop.Play(w, request, limit, [])).output.messages;
              && Balanced(ms)
              && ms != [] && ms[|ms| - 1].role.Assistant? && NativeLoop.CallsIn(ms[|ms| - 1].content) == []
  {
    hide NativeLoop.Play, NativeLoop.Generated, NativeLoop.CallsIn, Balanced;
    var trail := NativeLoop.Play(w, request, limit, []);
    NativeLaws.PlayIsPlayed(w, request, limit, []);
    if trail.ending.Finished? {
      TurnsBalance(w, trail.turns);
      LastMessage(w, trail.turns);
    }
  }

  // ----- balanced histories select -----

  /** Over a balanced history and a balanced request, selection never reports a broken exchange: it
      selects exactly when the mandatory part fits the budget. */
  lemma {:induction false} BalancedSelects(history: seq<Message>, current: seq<Message>, budget: Budget)
    requires Balanced(history) && Balanced(current)
    requires forall m | m in history + current :: m.encoding.Encoded?
    ensures var outcome := SelectionOf(history, current, budget);
            var sc := ScanOf(history + current, |history|);
            && sc.Scan?
            && (outcome.Selected? <==> Fits(Cost(Required(sc, |history|)), budget))
            && (outcome.Rejected? ==> outcome.error == BudgetExceeded)
  {
    var ms := history + current;
    BalancedConcat(history, current);
    ScanExchanges(ms, |history|);
    if ScanOf(ms, |history|).Stopped? {
      var k :| 0 <= k < |ms| && Halts(ms, k);
      assert ms[k] in history + current;
      EncodedHalts(ms, k);
      assert false;
    }
  }

  // ----- threads -----

  lemma {:induction false} CommittedIsBalanced(log: seq<RunStore.Commit>, t: nat)
    requires forall i | 0 <= i < |log| && log[i].thread == t :: Balanced(log[i].messages)
    ensures Balanced(RunSound.MessagesIn(log, t))
  {
    if |log| > 0 {
      var init, last := log[..|log| - 1], log[|log| - 1];
      CommittedIsBalanced(init, t);
      if last.thread == t {
        BalancedConcat(RunSound.MessagesIn(init, t), last.messages);
      } else {
        assert RunSound.MessagesIn(init, t) + [] == RunSound.MessagesIn(init, t);
      }
    }
  }

  function MessagesIn(history: seq<RunStore.Stored>): seq<Message> {
    seq(|history|, k requires 0 <= k < |history| => history[k].message)
  }

  /** What a completed native run commits: its balanced request, then its output. */
  lemma BatchIsBalanced(w: NativeLoop.World, request: seq<Message>, working: seq<Message>, limit: nat)
    requires Balanced(request)
    requires NativeLoop.OutcomeOf(w, NativeLoop.Play(w, working, limit, [])).Completed?
    ensures Balanced(request + NativeLoop.OutcomeOf(w, NativeLoop.Play(w, working, limit, [])).output.messages)
  {
    CompletedIsBalanced(w, working, limit);
    BalancedConcat(request, NativeLoop.OutcomeOf(w, NativeLoop.Play(w, working, limit, [])).output.messages);
  }

  // ----- threads that the runtime wrote -----

  ghost predicate IsNativeOutput(output: seq<Message>) {
    exists w, working, limit |
      NativeLoop.OutcomeOf(w, NativeLoop.Play(w, working, limit, [])).Completed? ::
      output == NativeLoop.OutcomeOf(w, NativeLoop.Play(w, working, limit, [])).output.messages
  }

  /** Requests and appends bring balanced messages, and invokers the outputs of completed native runs. */
  ghost predicate BringsBalanced(step: RuntimeCalls.WorldStep) {
    match step
    case Arrive(_, request) => Balanced(request.messages)
    case Output(_, output, _) => IsNativeOutput(output)
    case Outside(Begin(_, _, Append(messages))) => Balanced(messages)
    case _ => true
  }

  predicate CallBalanced(call: RuntimeCalls.Call) {
    Balanced(call.request.messages) && (call.stage.Completing? ==> Balanced(call.stage.output))
  }

  predicate TxnBalanced(x: RunStore.Txn) { x.op.Complete? || x.op.Append? ==> Balanced(x.op.messages) }

  /** Every message list on its way to a thread is balanced, and so is every batch committed. */
  ghost predicate AllBalanced(w: RuntimeCalls.World) {
    && (forall p | p in w.calls :: CallBalanced(w.calls[p]))
    && (forall t | t in w.store.txns :: TxnBalanced(w.store.txns[t]))
    && (forall i | 0 <= i < |w.store.log| :: Balanced(w.store.log[i].messages))
  }

  lemma NativeIsBalanced(output: seq<Message>)
    requires IsNativeOutput(output)
    ensures Balanced(output)
  {
    var w, working, limit :|
      NativeLoop.OutcomeOf(w, NativeLoop.Play(w, working, limit, [])).Completed?
      && output == NativeLoop.OutcomeOf(w, NativeLoop.Play(w, working, limit, [])).output.messages;
    CompletedIsBalanced(w, working, limit);
  }

  /** A call sends its request and its output as one batch. */
  lemma IssueBalanced(w: RuntimeCalls.World, p: nat)
    requires p in w.calls && RuntimeCalls.Issues(w.calls[p].stage) && CallBalanced(w.calls[p])
    ensures TxnBalanced(RunStore.Start(Some(p), RuntimeCalls.OperationOf(w, p)))
  {
    if w.calls[p].stage.Completing? {
      BalancedConcat(w.calls[p].request.messages, w.calls[p].stage.output);
    }
  }

  lemma StoreBalanced(s: RunStore.Store, step: RunStore.Step)
    requires RunStore.Enabled(s, step)
    requires forall t | t in s.txns :: TxnBalanced(s.txns[t])
    requires forall i | 0 <= i < |s.log| :: Balanced(s.log[i].messages)
    requires step.Begin? ==> TxnBalanced(RunStore.Start(step.client, step.op))
    ensures forall t | t in RunStore.Apply(s, step).txns :: TxnBalanced(RunStore.Apply(s, step).txns[t])
    ensures forall i | 0 <= i < |RunStore.Apply(s, step).log| :: Balanced(RunStore.Apply(s, step).log[i].messages)
  {
    hide Balanced, RunStore.HeldUp, RunStore.FindKey, RunStore.FindActive, RunStore.NextClaim;
    if step.Finish? { assert TxnBalanced(s.txns[step.thread]); }
  }

  lemma CallStaysBalanced(w: RuntimeCalls.World, step: RuntimeCalls.WorldStep, p: nat)
    requires RuntimeCalls.Can(w, step) && AllBalanced(w) && BringsBalanced(step)
    requires p in RuntimeCalls.Do(w, step).calls
    ensures CallBalanced(RuntimeCalls.Do(w, step).calls[p])
  {
    hide Balanced, IsNativeOutput;
    if p in w.calls { assert CallBalanced(w.calls[p]); }
    if step.Output? { NativeIsBalanced(step.output); }
  }

  /** Whatever happens next, what is brought balanced stays balanced. */
  lemma {:induction false} StepStaysBalanced(w: RuntimeCalls.World, step: RuntimeCalls.WorldStep)
    requires RuntimeCalls.Can(w, step) && AllBalanced(w) && BringsBalanced(step)
    ensures AllBalanced(RuntimeCalls.Do(w, step))
  {
    hide Balanced, CallBalanced, TxnBalanced, IsNativeOutput, RunStore.Enabled, RunStore.Apply;
    forall p | p in RuntimeCalls.Do(w, step).calls ensures CallBalanced(RuntimeCalls.Do(w, step).calls[p]) {
      CallStaysBalanced(w, step, p);
    }
    var inner := RuntimeCalls.StoreStep(w, step);
    if inner.Some? {
      if inner.value.Begin? { BegunBalanced(w, step); }
      StoreBalanced(w.store, inner.value);
    }
  }

  lemma BegunBalanced(w: RuntimeCalls.World, step: RuntimeCalls.WorldStep)
    requires RuntimeCalls.Can(w, step) && AllBalanced(w) && BringsBalanced(step)
    requires RuntimeCalls.StoreStep(w, step).Some? && RuntimeCalls.StoreStep(w, step).value.Begin?
    ensures var begin := RuntimeCalls.StoreStep(w, step).value;
            TxnBalanced(RunStore.Start(begin.client, begin.op))
  {
    hide Balanced, IsNativeOutput;
    if step.Issue? { IssueBalanced(w, step.call); }
  }

  lemma {:induction false} AlwaysBalanced(steps: seq<RuntimeCalls.WorldStep>, lease: nat)
    requires RuntimeLaws.Possible(steps, lease) && forall step | step in steps :: BringsBalanced(step)
    ensures AllBalanced(RuntimeLaws.After(steps, lease))
  {
    if |steps| > 0 {
      var init := steps[..|steps| - 1];
      assert forall step | step in init :: step in steps;
      AlwaysBalanced(init, lease);
      assert steps[|steps| - 1] in steps;
      StepStaysBalanced(RuntimeLaws.After(init, lease), steps[|steps| - 1]);
    }
  }

  /** In every world a run of the runtime leads to, however its calls interleave, fail, time out or replay,
      if requests and appends were balanced and invokers native, then selecting from what the store holds
      for any thread, for any balanced request, never meets a broken exchange: it succeeds exactly when
      the mandatory part fits. */
  lemma StoredThreadSelects(steps: seq<RuntimeCalls.WorldStep>, lease: nat, t: nat, current: seq<Message>, budget: Budget)
    requires RuntimeLaws.Possible(steps, lease) && forall step | step in steps :: BringsBalanced(step)
    requires t in RuntimeLaws.After(steps, lease).store.threads && Balanced(current)
    requires forall m | m in MessagesIn(RuntimeLaws.After(steps, lease).store.threads[t]) + current :: m.encoding.Encoded?
    ensures var history := MessagesIn(RuntimeLaws.After(steps, lease).store.threads[t]);
            var outcome, sc := SelectionOf(history, current, budget), ScanOf(history + current, |history|);
            && sc.Scan?
            && (outcome.Selected? <==> Fits(Cost(Required(sc, |history|)), budget))
            && (outcome.Rejected? ==> outcome.error == BudgetExceeded)
  {
    var s := RuntimeLaws.After(steps, lease).store;
    AlwaysBalanced(steps, lease);
    RuntimeLaws.AlwaysFaithful(steps, lease);
    HistoryIsLog(s, t);
    hide Balanced, ScanOf, SelectionOf, RuntimeLaws.Faithful, RuntimeLaws.After, RuntimeLaws.Possible;
    CommittedIsBalanced(s.log, t);
    BalancedSelects(MessagesIn(s.threads[t]), current, budget);
  }

  lemma HistoryIsLog(s: RunStore.Store, t: nat)
    requires RunSound.Sound(s) && t in s.threads
    ensures MessagesIn(s.threads[t]) == RunSound.MessagesIn(s.log, t)
  {
  }
}
