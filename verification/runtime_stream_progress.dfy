/** What a stream comes to on a free thread: undisturbed it delivers everything in order, and closed over a
    full queue it can leave its producer waiting for ever. */
module RuntimeStreamProgress {
  import opened Wrappers

  import Messages
  import RunRows
  import RunStore
  import RunProgress
  import RuntimeCalls
  import RuntimeLaws
  import RuntimeProgress
  import opened RuntimeStream
  import opened RuntimeStreamLaws

  // ----- from the runtime's steps to the stream's -----

  function Outer(steps: seq<RuntimeCalls.WorldStep>): (actions: seq<Action>)
    ensures NoCancel(actions)
  {
    if steps == [] then [] else [Outside(steps[0])] + Outer(steps[1..])
  }

  lemma NoCancelOn(a: seq<Action>, b: seq<Action>)
    requires NoCancel(a) && NoCancel(b)
    ensures NoCancel(a + b)
  {
  }

  /** Neither starts the invoker nor interrupts anything. */
  predicate IsQuiet(step: RuntimeCalls.WorldStep) { !step.Execute? && !step.Interrupt? }

  /** A producer that waits for nothing lets the runtime go on. */
  lemma {:induction false} Lifts(s: State, steps: seq<RuntimeCalls.WorldStep>, end: RuntimeCalls.World)
    requires s.call in s.world.calls && s.channel.blocked.None?
    requires RuntimeProgress.Leads(s.world, steps, end)
    requires forall step | step in steps :: IsQuiet(step)
    ensures Leads(s, Outer(steps), s.(world := end)) && s.call in end.calls
    decreases |steps|
  {
    if steps != [] {
      var next := RuntimeCalls.Do(s.world, steps[0]);
      assert IsQuiet(steps[0]);
      RuntimeLaws.CallsCarry(s.world, steps[0], s.call);
      assert Act(s, Outside(steps[0])) == s.(world := next);
      Lifts(s.(world := next), steps[1..], end);
      assert Outer(steps)[1..] == Outer(steps[1..]);
    }
  }

  lemma StepsAreQuiet(p: nat, t: RunRows.ThreadId, n: nat)
    ensures forall step | step in RuntimeProgress.Steps(p, t, n) :: IsQuiet(step)
  {
  }

  // ----- starting -----

  /** The stream's thread is free and its key new. */
  ghost predicate MayRun(s: State, t: RunRows.ThreadId) {
    && s.channel == NEW && s.world.lease > 0
    && RuntimeCalls.Can(s.world, RuntimeCalls.Open(s.call, t))
    && RuntimeProgress.MayClaim(RuntimeCalls.Do(s.world, RuntimeCalls.Open(s.call, t)), s.call, t)
  }

  /** The invoker is running and the consumer has not begun to read. */
  ghost predicate IsRunning(s: State) {
    && s.call in s.world.calls && StageOf(s).Executing?
    && s.channel.producer.Streaming? && s.channel.consumer.Reading? && s.channel.blocked.None?
  }

  lemma OpenMoves(s: State, t: RunRows.ThreadId)
    requires MayRun(s, t)
    ensures var w1 := RuntimeCalls.Do(s.world, RuntimeCalls.Open(s.call, t));
            && w1.executed == s.world.executed && w1.lease > 0 && s.call in w1.calls && s.channel == NEW
            && RuntimeProgress.MayClaim(w1, s.call, t)
            && Leads(s, [Outside(RuntimeCalls.Open(s.call, t))], s.(world := w1))
  {
    var open := RuntimeCalls.Open(s.call, t);
    hide RuntimeProgress.MayClaim;
    assert Allowed(s, Outside(open)) && Act(s, Outside(open)) == s.(world := RuntimeCalls.Do(s.world, open));
    One(s, Outside(open));
  }

  lemma StreamClaims(s: State, t: RunRows.ThreadId) returns (actions: seq<Action>, ready: State)
    requires MayRun(s, t)
    ensures Leads(s, actions, ready) && ready.call == s.call && ready.channel == NEW
    ensures NoCancel(actions)
    ensures var w1 := RuntimeCalls.Do(s.world, RuntimeCalls.Open(s.call, t));
            && RuntimeProgress.Reached(w1, s.call, t, RuntimeCalls.Ready, RuntimeProgress.Started(w1, s.call, t),
                                       ready.world)
            && ready.world.executed == s.world.executed
  {
    var p, open := s.call, RuntimeCalls.Open(s.call, t);
    var w1 := RuntimeCalls.Do(s.world, open);
    OpenMoves(s, t);
    assert NoCancel([Outside(open)]);
    StepsAreQuiet(p, t, 3);
    StepsAreQuiet(p, t, 1);
    hide RuntimeProgress.Leads, RuntimeProgress.MayClaim, RuntimeProgress.Reached, RuntimeProgress.Steps;
    hide RuntimeCalls.Can, RuntimeCalls.Do, Leads, Act, Allowed, Outer, IsQuiet, NoCancel, MayRun;
    var w2, w3 := RuntimeProgress.ClaimAndStart(w1, p, t);
    Lifts(s.(world := w1), RuntimeProgress.Steps(p, t, 3), w2);
    Lifts(s.(world := w2), RuntimeProgress.Steps(p, t, 1), w3);
    ready := s.(world := w3);
    LeadsOn(s, [Outside(open)], s.(world := w1), Outer(RuntimeProgress.Steps(p, t, 3)), s.(world := w2));
    actions := [Outside(open)] + Outer(RuntimeProgress.Steps(p, t, 3));
    NoCancelOn([Outside(open)], Outer(RuntimeProgress.Steps(p, t, 3)));
    LeadsOn(s, actions, s.(world := w2), Outer(RuntimeProgress.Steps(p, t, 1)), ready);
    NoCancelOn(actions, Outer(RuntimeProgress.Steps(p, t, 1)));
    actions := actions + Outer(RuntimeProgress.Steps(p, t, 1));
  }

  lemma StreamRuns(s: State, t: RunRows.ThreadId) returns (actions: seq<Action>, running: State)
    requires MayRun(s, t)
    ensures Leads(s, actions, running) && NoCancel(actions) && IsRunning(running) && running.call == s.call
    ensures running.channel == NEW.(queue := [Note(Started)], producer := Streaming)
    ensures var w1 := RuntimeCalls.Do(s.world, RuntimeCalls.Open(s.call, t));
            HasBegun(s.world, s.call, t, RuntimeProgress.Started(w1, s.call, t), running.world)
  {
    var begun, ready := StreamClaims(s, t);
    var started := Act(ready, Local(Start));
    One(ready, Local(Start));
    running := Act(started, Outside(RuntimeCalls.Execute(s.call)));
    One(started, Outside(RuntimeCalls.Execute(s.call)));
    hide Leads;
    LeadsOn(s, begun, ready, [Local(Start)], started);
    LeadsOn(s, begun + [Local(Start)], started, [Outside(RuntimeCalls.Execute(s.call))], running);
    actions := begun + [Local(Start)] + [Outside(RuntimeCalls.Execute(s.call))];
    NoCancelOn(begun, [Local(Start)]);
    NoCancelOn(begun + [Local(Start)], [Outside(RuntimeCalls.Execute(s.call))]);
  }

  /** The call's invoker was started, once, on its running row, and its thread is as it was. */
  ghost predicate HasBegun(w: RuntimeCalls.World, p: nat, t: RunRows.ThreadId, row: RunRows.Row, end: RuntimeCalls.World) {
    && p in w.calls && p in end.calls && end.calls[p] == RuntimeCalls.Call(w.calls[p].request, RuntimeCalls.Executing)
    && end.executed == w.executed + [p]
    && end.store.clock == w.store.clock && end.store.threads == w.store.threads && end.store.txns == w.store.txns
    && p in end.store.rows && end.store.rows[p] == row
  }

  // ----- delivering -----

  function Notes(events: seq<Event>): seq<Item> { seq(|events|, k requires 0 <= k < |events| => Note(events[k])) }

  /** A consumer that keeps up gets every event as it is emitted. */
  lemma {:induction false} Delivers(s: State, events: seq<Event>) returns (actions: seq<Action>, end: State)
    requires IsRunning(s) && s.channel.queue == [] && forall e | e in events :: IsProgress(e)
    ensures Leads(s, actions, end)
    ensures end == s.(channel := s.channel.(taken := s.channel.taken + Notes(events)))
    decreases |events|
  {
    if events == [] {
      actions, end := [], s;
      assert s.channel.taken + Notes([]) == s.channel.taken;
    } else {
      var emit, rest := Local(Emit(events[0])), [];
      assert IsProgress(events[0]);
      var emitted := Act(s, emit);
      var taken := Act(emitted, Local(Take));
      assert taken.channel == s.channel.(taken := s.channel.taken + [Note(events[0])]);
      rest, end := Delivers(taken, events[1..]);
      assert s.channel.taken + [Note(events[0])] + Notes(events[1..]) == s.channel.taken + Notes(events);
      One(s, emit);
      One(emitted, Local(Take));
      hide Leads, Act, Allowed;
      LeadsOn(s, [emit], emitted, [Local(Take)], taken);
      LeadsOn(s, [emit] + [Local(Take)], taken, rest, end);
      actions := [emit] + [Local(Take)] + rest;
    }
  }

  /** The invoker's output is committed, and the producer learns the response. */
  lemma Commits(s: State, t: RunRows.ThreadId, row: RunRows.Row, output: seq<Messages.Message>, response: RunRows.Response)
    returns (actions: seq<Action>, end: State)
    requires IsRunning(s) && s.call in s.world.store.rows && s.world.store.rows[s.call] == row
    requires row.claim.thread == t && t in s.world.store.threads && t !in s.world.store.txns
    requires RunStore.LastSequence(s.world.store.threads[t]) == |s.world.store.threads[t]|
    requires RunRows.CompletionError(row, s.call, s.world.calls[s.call].request.messages + output, response,
                                     s.world.store.clock) == None
    ensures Leads(s, actions, end)
    ensures end.call == s.call && end.channel == s.channel && s.call in end.world.calls
    ensures StageOf(end) == RuntimeCalls.Returned(response) && end.world.executed == s.world.executed
    ensures end.world.store.threads == s.world.store.threads[t :=
              s.world.store.threads[t]
              + RunStore.Numbered(|s.world.store.threads[t]|, s.world.calls[s.call].request.messages + output)]
  {
    var p, give := s.call, RuntimeCalls.Output(s.call, output, response);
    var w5 := RuntimeCalls.Do(s.world, give);
    var op := RuntimeCalls.OperationOf(w5, p);
    var w6 := RuntimeProgress.CallCompletes(w5, p, t, row, op);
    assert Act(s, Outside(give)) == s.(world := w5) && Allowed(s, Outside(give));
    One(s, Outside(give));
    StepsAreQuiet(p, t, 3);
    hide RuntimeProgress.Leads, RuntimeProgress.Steps, RuntimeCalls.Can, RuntimeCalls.Do;
    hide Leads, Act, Allowed, Outer, IsQuiet;
    Lifts(s.(world := w5), RuntimeProgress.Steps(p, t, 3), w6);
    end := s.(world := w6);
    LeadsOn(s, [Outside(give)], s.(world := w5), Outer(RuntimeProgress.Steps(p, t, 3)), end);
    actions := [Outside(give)] + Outer(RuntimeProgress.Steps(p, t, 3));
  }

  /** A response that is known goes out. */
  lemma Answers(s: State, response: RunRows.Response) returns (actions: seq<Action>, end: State)
    requires s.call in s.world.calls && StageOf(s) == RuntimeCalls.Returned(response)
    requires s.channel.producer.Streaming? && s.channel.consumer.Reading?
    requires s.channel.blocked.None? && s.channel.queue == []
    ensures Leads(s, actions, end)
    ensures end == s.(channel := s.channel.(taken := s.channel.taken + [Note(Completed(response))], producer := Ending))
  {
    hide RuntimeCalls.Can, RuntimeCalls.Do;
    var s1 := Act(s, Local(Commit(response)));
    var s2 := Act(s1, Local(Report));
    end := Act(s2, Local(Take));
    One(s, Local(Commit(response)));
    One(s1, Local(Report));
    One(s2, Local(Take));
    hide Leads, Act, Allowed;
    LeadsOn(s, [Local(Commit(response))], s1, [Local(Report)], s2);
    actions := [Local(Commit(response))] + [Local(Report)];
    LeadsOn(s, actions, s2, [Local(Take)], end);
    actions := actions + [Local(Take)];
  }

  /** The end follows. */
  lemma Concludes(s: State) returns (actions: seq<Action>, end: State)
    requires s.call in s.world.calls
    requires s.channel.producer.Ending? && s.channel.consumer.Reading?
    requires s.channel.blocked.None? && s.channel.queue == []
    ensures Leads(s, actions, end) && end.world == s.world && end.call == s.call
    ensures end.channel.consumer.Ended? && IsDone(end.channel)
    ensures end.channel.taken == s.channel.taken + [Sentinel]
  {
    hide RuntimeCalls.Can, RuntimeCalls.Do;
    var s1 := Act(s, Local(End));
    end := Act(s1, Local(Take));
    One(s, Local(End));
    One(s1, Local(Take));
    hide Leads, Act, Allowed;
    LeadsOn(s, [Local(End)], s1, [Local(Take)], end);
    actions := [Local(End)] + [Local(Take)];
  }

  /** A response that is known goes out, followed by the end. */
  lemma Finishes(s: State, response: RunRows.Response) returns (actions: seq<Action>, end: State)
    requires s.call in s.world.calls && StageOf(s) == RuntimeCalls.Returned(response)
    requires s.channel.producer.Streaming? && s.channel.consumer.Reading?
    requires s.channel.blocked.None? && s.channel.queue == []
    ensures Leads(s, actions, end) && end.world == s.world && end.call == s.call
    ensures end.channel.consumer.Ended? && IsDone(end.channel)
    ensures end.channel.taken == s.channel.taken + [Note(Completed(response)), Sentinel]
  {
    hide Leads;
    var a, answered := Answers(s, response);
    var b;
    b, end := Concludes(answered);
    LeadsOn(s, a, answered, b, end);
    actions := a + b;
    assert s.channel.taken + [Note(Completed(response))] + [Sentinel]
        == s.channel.taken + [Note(Completed(response)), Sentinel];
  }

  /** What an undisturbed stream shows, whatever the invoker emits. */
  function Shown(events: seq<Event>, response: RunRows.Response): seq<Item> {
    [Note(Started)] + Notes(events) + [Note(Completed(response)), Sentinel]
  }

  lemma MayRunMeans(s: State, t: RunRows.ThreadId)
    requires MayRun(s, t)
    ensures s.call in s.world.calls && t in s.world.store.threads && t !in s.world.store.txns
    ensures var w1 := RuntimeCalls.Do(s.world, RuntimeCalls.Open(s.call, t));
            && s.call in w1.calls && w1.calls[s.call] == s.world.calls[s.call].(stage := RuntimeCalls.Claiming(t))
            && w1.store == s.world.store && w1.lease == s.world.lease
  {
  }

  /** The consumer takes the start and every event after it. */
  lemma ReadsAll(s: State, events: seq<Event>) returns (actions: seq<Action>, end: State)
    requires IsRunning(s) && s.channel == NEW.(queue := [Note(Started)], producer := Streaming)
    requires forall e | e in events :: IsProgress(e)
    ensures Leads(s, actions, end) && IsRunning(end) && end.world == s.world && end.call == s.call
    ensures end.channel == NEW.(producer := Streaming, taken := [Note(Started)] + Notes(events))
  {
    var reading := Act(s, Local(Take));
    One(s, Local(Take));
    assert [] + [Note(Started)] == [Note(Started)];
    var rest;
    rest, end := Delivers(reading, events);
    hide Leads, Act, Allowed;
    LeadsOn(s, [Local(Take)], reading, rest, end);
    actions := [Local(Take)] + rest;
  }

  /** A response that is the run's own can be committed once the run has begun. */
  lemma AnswerFits(w: RuntimeCalls.World, w1: RuntimeCalls.World, p: nat, t: RunRows.ThreadId, begun: RuntimeCalls.World,
                   output: seq<Messages.Message>, response: RunRows.Response)
    requires p in w.calls && RuntimeProgress.IsOwnAnswer(w, p, t, output, response) && w.lease > 0
    requires p in w1.calls && w1.calls[p] == w.calls[p].(stage := RuntimeCalls.Claiming(t)) && w1.store == w.store
    requires w1.lease == w.lease && HasBegun(w, p, t, RuntimeProgress.Started(w1, p, t), begun)
    ensures RuntimeProgress.Started(w1, p, t).claim.thread == t
    ensures RunRows.CompletionError(RuntimeProgress.Started(w1, p, t), p, begun.calls[p].request.messages + output,
                                    response, begun.store.clock) == None
  {
    assert RuntimeProgress.IsOwnAnswer(begun, p, t, output, response);
    RuntimeProgress.OwnAnswerCompletes(begun, p, t, output, response, RuntimeProgress.Started(w1, p, t));
  }

  /** A stream on a free thread, with a key nobody has and a consumer that keeps up, shows its start, every
      event the invoker emits, in order, its own response and its end; the invoker ran once, and the thread
      ends in the request and the output. */
  lemma UndisturbedStreamCompletes(s: State, t: RunRows.ThreadId, events: seq<Event>, output: seq<Messages.Message>,
                                   response: RunRows.Response)
    returns (actions: seq<Action>, end: State)
    requires MayRun(s, t) && RuntimeLaws.Faithful(s.world) && forall e | e in events :: IsProgress(e)
    requires s.call in s.world.calls && RuntimeProgress.IsOwnAnswer(s.world, s.call, t, output, response)
    ensures Leads(s, actions, end) && end.channel.consumer.Ended? && IsDone(end.channel)
    ensures end.channel.taken == Shown(events, response)
    ensures RuntimeProgress.HasReturned(s.world, s.call, t, output, response, end.world)
  {
    var w1 := RuntimeCalls.Do(s.world, RuntimeCalls.Open(s.call, t));
    MayRunMeans(s, t);
    RunProgress.LastIsLength(s.world.store, t);
    assert s.world.lease > 0;
    hide RuntimeLaws.Faithful, MayRun, RuntimeProgress.IsOwnAnswer, RunRows.CompletionError, RunStore.LastSequence, Leads;
    hide RuntimeCalls.Can, RuntimeCalls.Do, IsProgress, IsDone, RuntimeProgress.Started, RunStore.Numbered, Notes;
    var a, running := StreamRuns(s, t);
    var b, delivered := ReadsAll(running, events);
    AnswerFits(s.world, w1, s.call, t, running.world, output, response);
    var c, returned := Commits(delivered, t, RuntimeProgress.Started(w1, s.call, t), output, response);
    var d;
    d, end := Finishes(returned, response);
    LeadsOn(s, a, running, b, delivered);
    LeadsOn(s, a + b, delivered, c, returned);
    LeadsOn(s, a + b + c, returned, d, end);
    actions := a + b + c + d;
  }

  // ----- hanging -----

  /** The invoker can fill the queue of a consumer that does not take. */
  lemma {:induction false} Fills(s: State) returns (actions: seq<Action>, end: State)
    requires IsRunning(s) && |s.channel.queue| <= CAPACITY
    ensures Leads(s, actions, end) && NoCancel(actions) && end.call == s.call
    ensures IsRunning(end) && |end.channel.queue| == CAPACITY
    decreases CAPACITY - |s.channel.queue|
  {
    if |s.channel.queue| == CAPACITY {
      actions, end := [], s;
    } else {
      var emit := Local(Emit(TextDelta("")));
      var rest;
      rest, end := Fills(Act(s, emit));
      actions := [emit] + rest;
      assert actions[1..] == rest;
      assert forall k | 1 <= k < |actions| :: actions[k] == rest[k - 1];
    }
  }

  lemma ClosesFull(s: State) returns (end: State)
    requires Inv(s) && IsRunning(s) && |s.channel.queue| == CAPACITY
    ensures Leads(s, [Local(Close)], end) && NoCancel([Local(Close)])
    ensures Inv(end) && !end.channel.consumer.Reading? && Demand(end.channel) == CAPACITY + 2
  {
    CloseDemands(s);
    hide Inv, IsRunning, Demand, Act;
    end := Act(s, Local(Close));
    One(s, Local(Close));
    ActKeeps(s, Local(Close));
  }

  lemma CloseDemands(s: State)
    requires IsRunning(s) && |s.channel.queue| == CAPACITY
    ensures Allowed(s, Local(Close))
    ensures var end := Act(s, Local(Close)); !end.channel.consumer.Reading? && Demand(end.channel) == CAPACITY + 2
  {
  }

  /** A consumer that closes over a full queue, while the invoker is running, may leave its producer waiting
      for ever: the invoker answers the one cancellation with an exception, which then finds no room. */
  lemma ClosingCanHang(s: State) returns (actions: seq<Action>, end: State)
    requires Inv(s) && IsRunning(s)
    ensures Leads(s, actions, end) && NoCancel(actions) && Stuck(end.channel)
  {
    var a, full := Fills(s);
    LeadsKeep(s, a, full);
    var closed := ClosesFull(full);
    hide *;
    var b, last := RunsOut(closed);
    DoneOrStuck(last);
    NoCancelOn(a, [Local(Close)]);
    NoCancelOn(a + [Local(Close)], b);
    LeadsOn(s, a, full, [Local(Close)], closed);
    LeadsOn(s, a + [Local(Close)], closed, b, last);
    actions, end := a + [Local(Close)] + b, last;
  }

  const REQUEST: RuntimeCalls.Request :=
    RuntimeCalls.Request(RunRows.Agent("agent", "1", "native"), None, "hash", 0, Some(0), [])

  /** A fresh runtime with one thread, on which a stream is opened. */
  lemma FirstStream() returns (before: seq<RuntimeCalls.WorldStep>)
    ensures Opens(before, 1, 0) && MayRun(Opened(before, 1, 0, REQUEST), 0)
  {
    var create := RuntimeCalls.Outside(RunStore.CreateThread(0));
    before := [create];
    assert before[..|before| - 1] == [];
    assert RuntimeCalls.Can(RuntimeCalls.Begun(1), create);
    assert RuntimeLaws.After([], 1) == RuntimeCalls.Begun(1);
    assert RuntimeLaws.After(before, 1) == RuntimeCalls.Do(RuntimeCalls.Begun(1), create);
  }

  lemma StartedStreamHangs(s: State, t: RunRows.ThreadId) returns (actions: seq<Action>, end: State)
    requires Inv(s) && MayRun(s, t)
    ensures Leads(s, actions, end) && Stuck(end.channel) && end.call == s.call
  {
    hide *;
    var a, running := StreamRuns(s, t);
    LeadsKeep(s, a, running);
    var b, stuck := ClosingCanHang(running);
    LeadsKeep(running, b, stuck);
    LeadsOn(s, a, running, b, stuck);
    actions, end := a + b, stuck;
  }

  /** It does happen: some schedule of some runtime leaves a producer waiting for ever, over 64 items. */
  lemma SomeStreamHangs()
    ensures exists s :: Reachable(s) && Stuck(s.channel) && |s.channel.queue| == 64
  {
    var before := FirstStream();
    OpenedInv(before, 1, 0, REQUEST);
    var s := Opened(before, 1, 0, REQUEST);
    assert s.call == 0;
    hide Leads, Inv, MayRun, Opens, Stuck, Opened;
    var actions, end := StartedStreamHangs(s, 0);
    assert Opens(before, 1, end.call) && Leads(Opened(before, 1, end.call, REQUEST), actions, end);
    assert Reachable(end);
    StuckIsFull(end.channel);
    ConsumerSeesOrder(end);
  }

  lemma StuckIsFull(c: Channel)
    requires Stuck(c)
    ensures |c.queue| >= 64
  {
  }
}
