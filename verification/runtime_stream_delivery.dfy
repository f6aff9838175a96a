/** What the consumer is handed is what was emitted: in order, nothing twice, and nothing lost but what a
    cancellation or a deadline takes from a waiting producer. */
module RuntimeStreamDelivery {
  import opened Wrappers
  import RunRows
  import RunSound
  import RuntimeCalls
  import RuntimeFailures
  import RuntimeLaws
  import RuntimeOwners
  import opened RuntimeStream

  /** The text and the tool results among some items, in order. */
  function ProgressOf(items: seq<Item>): seq<Event> {
    if |items| == 0 then []
    else
      var last := items[|items| - 1];
      ProgressOf(items[..|items| - 1]) + (if IsProgressNote(last) then [last.event] else [])
  }

  /** The events that the invocation emitted, in order. */
  function Emitted(actions: seq<Action>): seq<Event> {
    if actions == [] then []
    else
      (if actions[0].Local? && actions[0].inner.Emit? then [actions[0].inner.event] else []) + Emitted(actions[1..])
  }

  /** A cancellation, a consumer that closes, or a deadline that passes while the producer waits. */
  predicate Disturbs(call: nat, action: Action) {
    match action
    case Outside(outer) => outer.Interrupt? && outer.call == call && outer.cancelled
    case Local(inner) => inner.TimeOut? || inner.Cancel? || inner.Close?
  }

  predicate MayEmit(c: Channel) { c.producer.Fresh? || c.producer.Streaming? }

  lemma ProgressSnoc(items: seq<Item>, item: Item)
    ensures ProgressOf(items + [item]) == ProgressOf(items) + (if IsProgressNote(item) then [item.event] else [])
  {
    assert (items + [item])[..|items|] == items;
  }

  lemma {:induction false} ProgressConcat(a: seq<Item>, b: seq<Item>)
    ensures ProgressOf(a + b) == ProgressOf(a) + ProgressOf(b)
  {
    if b == [] {
      assert a + b == a;
    } else {
      assert a + b == (a + b[..|b| - 1]) + [b[|b| - 1]];
      ProgressSnoc(a + b[..|b| - 1], b[|b| - 1]);
      ProgressConcat(a, b[..|b| - 1]);
    }
  }

  /** Dropping what a producer waits with drops at most its own event. */
  lemma StopDrops(c: Channel)
    ensures ProgressOf(All(Stopped(c))) <= ProgressOf(All(c))
    ensures c.blocked.None? || !IsProgressNote(c.blocked.value) ==> ProgressOf(All(Stopped(c))) == ProgressOf(All(c))
    ensures !MayEmit(Stopped(c))
  {
    hide ProgressOf;
    StopLeaves(c);
    if c.blocked.Some? { ProgressSnoc(c.taken + c.queue, c.blocked.value); }
  }

  lemma StopLeaves(c: Channel)
    ensures All(Stopped(c)) == All(c) || All(Stopped(c)) == c.taken + c.queue
    ensures c.blocked.None? ==> All(Stopped(c)) == All(c)
    ensures c.blocked.Some? ==> All(c) == (c.taken + c.queue) + [c.blocked.value]
    ensures !MayEmit(Stopped(c))
  {
    assert c.taken + c.queue + [] == c.taken + c.queue;
  }

  /** Once the consumer takes a problem or the end, nothing waits but the end. */
  lemma LastWaits(c: Channel)
    requires Ordered(c) && c.queue != [] && !c.queue[0].Note? && c.blocked.Some?
    ensures c.blocked.value.Sentinel?
  {
    var all := All(c);
    PlacedIsOrdered(all);
    assert all[|c.taken|] == c.queue[0] && all[|all| - 1] == c.blocked.value;
  }

  lemma TakeMoves(c: Channel)
    requires Ordered(c) && c.queue != []
    ensures ProgressOf(All(Taken(c))) == ProgressOf(All(c))
    ensures c.queue[0].Note? ==> MayEmit(Taken(c)) == MayEmit(c)
    ensures !c.queue[0].Note? ==> !MayEmit(Taken(c))
  {
    hide ProgressOf, PlaceOf, Ordered;
    var rest := c.(taken := c.taken + [c.queue[0]], queue := c.queue[1..]);
    assert c.taken + [c.queue[0]] + c.queue[1..] == c.taken + c.queue;
    assert All(rest) == All(c);
    if !c.queue[0].Note? {
      if c.blocked.Some? { LastWaits(c); }
      StopDrops(rest.(consumer := Raised));
      StopDrops(rest.(consumer := Ended));
    }
  }

  /** What one step of the channel does to the progress that is on its way. */
  lemma StepDelivers(c: Channel, step: Step)
    requires Ordered(c) && Can(c, step)
    ensures var before, after := ProgressOf(All(c)), ProgressOf(All(Do(c, step)));
            if step.TimeOut? || step.Cancel? || step.Close? then after <= before && !MayEmit(Do(c, step))
            else after == before + (if step.Emit? then [step.event] else [])
    ensures !MayEmit(c) ==> !step.Emit? && !MayEmit(Do(c, step))
  {
    hide ProgressOf, PlaceOf;
    var kept := c.taken + c.queue;
    match step
    case Start => PutDelivers(c, Note(Started), Do(c, step).producer);
    case Emit(e) => PutDelivers(c, Note(e), Streaming);
    case Report =>
      PutDelivers(c, if c.producer.Committed? then Note(Completed(c.producer.response)) else Problem(c.producer.code),
                  Ending);
    case End => PutDelivers(c, Sentinel, Finished);
    case Take => TakeMoves(c);
    case Close => StopDrops(c.(consumer := Closed));
    case Cancel => StopDrops(c);
    case Unblock => assert c.taken + (c.queue + [c.blocked.value]) + [] == All(c);
    case TimeOut(_) =>
      ProgressSnoc(kept, c.blocked.value);
      assert All(Do(c, step)) == kept;
    case _ =>
  }

  lemma PutDelivers(c: Channel, item: Item, next: Producer)
    requires c.blocked.None?
    ensures ProgressOf(All(Put(c, item, next)))
         == ProgressOf(All(c)) + (if IsProgressNote(item) then [item.event] else [])
  {
    hide ProgressOf;
    PutPlaces(c, item, next);
    ProgressSnoc(All(c), item);
  }

  lemma ActDelivers(s: State, action: Action)
    requires Ordered(s.channel) && Allowed(s, action)
    ensures var before, after := ProgressOf(All(s.channel)), ProgressOf(All(Act(s, action).channel));
            if Disturbs(s.call, action) then after <= before && !MayEmit(Act(s, action).channel)
            else after == before + Emitted([action])
    ensures !MayEmit(s.channel) ==> Emitted([action]) == [] && !MayEmit(Act(s, action).channel)
  {
    hide ProgressOf, Ordered, Do, Can, RuntimeCalls.Can, RuntimeCalls.Do;
    assert [action][1..] == [];
    if action.Local? { StepDelivers(s.channel, action.inner); }
  }

  lemma EmittedHead(actions: seq<Action>)
    requires actions != []
    ensures Emitted(actions) == Emitted([actions[0]]) + Emitted(actions[1..])
  {
    assert [actions[0]][1..] == [];
  }

  /** Whatever happens to a stream from some state on, its consumer and its queue hold a beginning of what
      they held and what was emitted since; a producer that cannot emit any more does not. */
  lemma {:induction false} OnlyEmitted(s: State, actions: seq<Action>, end: State)
    requires Inv(s) && Leads(s, actions, end)
    ensures ProgressOf(All(end.channel)) <= ProgressOf(All(s.channel)) + Emitted(actions)
    ensures !MayEmit(s.channel) ==> Emitted(actions) == []
    decreases |actions|
  {
    if actions != [] {
      hide ProgressOf, Emitted, Act, Allowed, MayEmit, Inv, All, Disturbs;
      var next := Act(s, actions[0]);
      ActKeeps(s, actions[0]);
      InvIsOrdered(s);
      ActDelivers(s, actions[0]);
      EmittedHead(actions);
      OnlyEmitted(next, actions[1..], end);
      Chained(ProgressOf(All(s.channel)), ProgressOf(All(next.channel)), ProgressOf(All(end.channel)),
              Emitted([actions[0]]), Emitted(actions[1..]));
    }
  }

  lemma CallStays(s: State, action: Action)
    requires Allowed(s, action)
    ensures Act(s, action).call == s.call
  {
  }

  lemma InvIsOrdered(s: State)
    requires Inv(s)
    ensures Ordered(s.channel)
  {
  }

  lemma Chained(before: seq<Event>, middle: seq<Event>, end: seq<Event>, one: seq<Event>, rest: seq<Event>)
    requires end <= middle + rest
    requires middle == before + one || (middle <= before && rest == [])
    ensures end <= before + (one + rest)
    ensures end == middle + rest && middle == before + one ==> end == before + (one + rest)
  {
    assert before + one + rest == before + (one + rest);
    if rest == [] { assert middle + rest == middle; }
  }

  /** Undisturbed, nothing is lost either. */
  lemma {:induction false} AllEmitted(s: State, actions: seq<Action>, end: State)
    requires Inv(s) && Leads(s, actions, end)
    requires forall action | action in actions :: !Disturbs(s.call, action)
    ensures ProgressOf(All(end.channel)) == ProgressOf(All(s.channel)) + Emitted(actions)
    decreases |actions|
  {
    if actions != [] {
      hide ProgressOf, Emitted, Act, Allowed, MayEmit, Inv, All, Disturbs;
      var next := Act(s, actions[0]);
      assert !Disturbs(s.call, actions[0]) && next.call == s.call by { CallStays(s, actions[0]); }
      ActKeeps(s, actions[0]);
      InvIsOrdered(s);
      ActDelivers(s, actions[0]);
      EmittedHead(actions);
      AllEmitted(next, actions[1..], end);
      Chained(ProgressOf(All(s.channel)), ProgressOf(All(next.channel)), ProgressOf(All(end.channel)),
              Emitted([actions[0]]), Emitted(actions[1..]));
    }
  }

  lemma {:induction false} SentinelsSayNothing(items: seq<Item>)
    requires forall item | item in items :: item.Sentinel?
    ensures ProgressOf(items) == []
  {
    if |items| > 0 {
      assert items[|items| - 1] in items;
      SentinelsSayNothing(items[..|items| - 1]);
    }
  }

  /** After a terminal item there is no progress. */
  lemma NothingAfterTerminal(c: Channel, k: nat)
    requires Ordered(c) && k < |c.taken| && IsTerminal(c.taken[k])
    ensures ProgressOf(All(c)) == ProgressOf(c.taken)
  {
    var all, rest := All(c), c.queue + Waiting(c.blocked);
    PlacedIsOrdered(all);
    assert all[k] == c.taken[k] && all == c.taken + rest;
    forall item | item in rest ensures item.Sentinel? {
      var j :| 0 <= j < |rest| && rest[j] == item;
      assert all[|c.taken| + j] == item;
    }
    SentinelsSayNothing(rest);
    ProgressConcat(c.taken, rest);
  }

  /** However a stream went, its consumer was handed a beginning of what the invocation emitted, in order;
      and if nothing disturbed it, then by the time it is told the response, or a problem, all of it. */
  lemma DeliveredIsEmitted(before: seq<RuntimeCalls.WorldStep>, lease: nat, call: nat, request: RuntimeCalls.Request,
                           actions: seq<Action>, end: State)
    requires Opens(before, lease, call) && Leads(Opened(before, lease, call, request), actions, end)
    ensures ProgressOf(end.channel.taken) <= Emitted(actions)
    ensures (forall action | action in actions :: !Disturbs(call, action))
            && (exists k | 0 <= k < |end.channel.taken| :: IsTerminal(end.channel.taken[k])) ==>
              ProgressOf(end.channel.taken) == Emitted(actions)
  {
    hide ProgressOf, Emitted, Inv, Leads, Opens, Disturbs, Allowed, Act, Opened, All, Ordered;
    var start := Opened(before, lease, call, request);
    OpenedInv(before, lease, call, request);
    LeadsKeep(start, actions, end);
    InvIsOrdered(end);
    OnlyEmitted(start, actions, end);
    OpensEmpty(before, lease, call, request);
    TakenComesFirst(end.channel);
    assert [] + Emitted(actions) == Emitted(actions);
    if forall action | action in actions :: !Disturbs(call, action) {
      if k :| 0 <= k < |end.channel.taken| && IsTerminal(end.channel.taken[k]) {
        AllEmitted(start, actions, end);
        NothingAfterTerminal(end.channel, k);
      }
    }
  }

  lemma OpensEmpty(before: seq<RuntimeCalls.WorldStep>, lease: nat, call: nat, request: RuntimeCalls.Request)
    requires Opens(before, lease, call)
    ensures ProgressOf(All(Opened(before, lease, call, request).channel)) == []
    ensures Opened(before, lease, call, request).call == call
  {
    assert All(NEW) == [];
  }

  lemma TakenComesFirst(c: Channel)
    ensures ProgressOf(c.taken) <= ProgressOf(All(c))
  {
    hide ProgressOf;
    assert c.taken + (c.queue + Waiting(c.blocked)) == All(c);
    ProgressConcat(c.taken, c.queue + Waiting(c.blocked));
  }

  // ----- problems -----

  /** The invocation failed, or ran out of time, with this code. */
  predicate FailedWith(actions: seq<Action>, code: string) {
    exists k | 0 <= k < |actions| :: actions[k] == Local(Fail(code)) || actions[k] == Local(TimeOut(code))
  }

  /** The code is one that was put, or is about to be. */
  predicate HasProblem(c: Channel, code: string) { Problem(code) in All(c) || c.producer == Failing(code) }

  lemma StopHasNoMore(c: Channel, code: string)
    ensures HasProblem(Stopped(c), code) ==> HasProblem(c, code)
  {
    assert forall item | item in All(Stopped(c)) :: item in All(c);
  }

  lemma StepProblem(c: Channel, step: Step, code: string)
    requires Can(c, step) && HasProblem(Do(c, step), code)
    ensures HasProblem(c, code) || step == Fail(code) || step == TimeOut(code)
  {
    match step
    case Take =>
      var rest := c.(taken := c.taken + [c.queue[0]], queue := c.queue[1..]);
      assert c.taken + [c.queue[0]] + c.queue[1..] == c.taken + c.queue;
      assert All(rest) == All(c);
      StopHasNoMore(rest.(consumer := Raised), code);
      StopHasNoMore(rest.(consumer := Ended), code);
    case Close => StopHasNoMore(c.(consumer := Closed), code);
    case Cancel => StopHasNoMore(c, code);
    case Unblock => assert c.taken + (c.queue + [c.blocked.value]) + [] == All(c);
    case _ =>
  }

  lemma {:induction false} ProblemsAreFailures(s: State, actions: seq<Action>, end: State, code: string)
    requires Leads(s, actions, end) && HasProblem(end.channel, code) && !HasProblem(s.channel, code)
    ensures FailedWith(actions, code)
    decreases |actions|
  {
    if actions != [] {
      var next := Act(s, actions[0]);
      hide HasProblem, RuntimeCalls.Can, RuntimeCalls.Do;
      if HasProblem(next.channel, code) {
        if actions[0].Local? {
          StepProblem(s.channel, actions[0].inner, code);
        } else {
          OutsideProblem(s, actions[0], code);
        }
        assert actions[0] == Local(Fail(code)) || actions[0] == Local(TimeOut(code));
      } else {
        ProblemsAreFailures(next, actions[1..], end, code);
        var k :| 0 <= k < |actions[1..]|
                 && (actions[1..][k] == Local(Fail(code)) || actions[1..][k] == Local(TimeOut(code)));
        assert actions[k + 1] == actions[1..][k];
      }
    }
  }

  lemma OutsideProblem(s: State, action: Action, code: string)
    requires Allowed(s, action) && action.Outside?
    ensures HasProblem(Act(s, action).channel, code) ==> HasProblem(s.channel, code)
  {
  }

  /** A consumer is told only of a failure that the invocation had. */
  lemma ToldFailuresHappened(before: seq<RuntimeCalls.WorldStep>, lease: nat, call: nat, request: RuntimeCalls.Request,
                             actions: seq<Action>, end: State, code: string)
    requires Opens(before, lease, call) && Leads(Opened(before, lease, call, request), actions, end)
    requires Problem(code) in end.channel.taken
    ensures FailedWith(actions, code)
  {
    hide Leads;
    assert Problem(code) in All(end.channel);
    assert All(NEW) == [];
    ProblemsAreFailures(Opened(before, lease, call, request), actions, end, code);
  }

  /** A step that no disturbance is. */
  predicate IsCalm(call: nat, actions: seq<Action>) { forall action | action in actions :: !Disturbs(call, action) }

  /** Undisturbed, a failure that is on its way, or was told, is the call's own. */
  ghost predicate FailureIsOwn(s: State)
    requires s.call in s.world.calls
  {
    && !s.channel.producer.Interrupted?
    && (s.channel.producer.Failing? || (exists item | item in All(s.channel) :: item.Problem?) ==>
          RuntimeCalls.HasRaised(StageOf(s)))
  }

  lemma StopAddsNothing(c: Channel)
    ensures forall item | item in All(Stopped(c)) :: item in All(c)
    ensures Stopped(c).producer.Failing? ==> c.producer.Failing?
  {
  }

  /** The channel's part: a problem comes from a failing producer, and only a disturbance interrupts one. */
  lemma StepFails(c: Channel, step: Step)
    requires Ordered(c) && Can(c, step) && !c.producer.Interrupted? && c.consumer.Reading?
    requires !step.TimeOut? && !step.Cancel? && !step.Close?
    ensures !Do(c, step).producer.Interrupted?
    ensures Do(c, step).producer.Failing? ==> c.producer.Failing? || step.Fail?
    ensures (exists item | item in All(Do(c, step)) :: item.Problem?) ==>
              c.producer.Failing? || exists item | item in All(c) :: item.Problem?
  {
    match step
    case Take =>
      var rest := c.(taken := c.taken + [c.queue[0]], queue := c.queue[1..]);
      assert c.taken + [c.queue[0]] + c.queue[1..] == c.taken + c.queue;
      assert All(rest) == All(c);
      StopAddsNothing(rest.(consumer := Raised));
      StopAddsNothing(rest.(consumer := Ended));
      if !c.queue[0].Note? { PastTerminal(c); }
    case Unblock => assert c.taken + (c.queue + [c.blocked.value]) + [] == All(c);
    case _ =>
  }

  /** A producer whose problem or end is in the queue has left its invocation. */
  lemma PastTerminal(c: Channel)
    requires Ordered(c) && c.queue != [] && !c.queue[0].Note?
    ensures !c.producer.Fresh? && !c.producer.Replaying? && !c.producer.Streaming? && !c.producer.Committed?
  {
    var all := All(c);
    PlacedIsOrdered(all);
    assert all[|c.taken|] == c.queue[0];
  }

  lemma RaisedStays(w: RuntimeCalls.World, step: RuntimeCalls.WorldStep, p: nat)
    requires RuntimeCalls.Can(w, step) && p in w.calls && RuntimeCalls.HasRaised(w.calls[p].stage)
    ensures p in RuntimeCalls.Do(w, step).calls && RuntimeCalls.HasRaised(RuntimeCalls.Do(w, step).calls[p].stage)
  {
    RuntimeLaws.CallsCarry(w, step, p);
  }

  /** While the consumer reads, a failure is the call's own; afterwards, one that it was told of. */
  ghost predicate ToldIsOwn(s: State)
    requires s.call in s.world.calls
  {
    if s.channel.consumer.Reading? then FailureIsOwn(s)
    else (exists item | item in s.channel.taken :: item.Problem?) ==> RuntimeCalls.HasRaised(StageOf(s))
  }

  lemma LocalFails(s: State, inner: Step)
    requires Inv(s) && Allowed(s, Local(inner)) && !Disturbs(s.call, Local(inner)) && ToldIsOwn(s)
    ensures s.call in Act(s, Local(inner)).world.calls && ToldIsOwn(Act(s, Local(inner)))
  {
    hide RuntimeLaws.Faithful, RuntimeCalls.Can, RuntimeCalls.Do, Tells, Ordered, All, Taken, Stopped;
    InvIsOrdered(s);
    var c := s.channel;
    if c.consumer.Reading? {
      StepFails(c, inner);
      TakenIsKept(c, inner);
    } else {
      NotReading(c, inner);
    }
  }

  lemma NotReading(c: Channel, step: Step)
    requires Can(c, step) && !c.consumer.Reading?
    ensures Do(c, step).taken == c.taken && !Do(c, step).consumer.Reading?
  {
  }

  lemma TakenIsKept(c: Channel, step: Step)
    requires Can(c, step)
    ensures forall item | item in Do(c, step).taken :: item in All(Do(c, step))
  {
  }

  lemma OutsideFails(s: State, outer: RuntimeCalls.WorldStep)
    requires Inv(s) && Allowed(s, Outside(outer)) && !Disturbs(s.call, Outside(outer)) && ToldIsOwn(s)
    ensures s.call in Act(s, Outside(outer)).world.calls && ToldIsOwn(Act(s, Outside(outer)))
  {
    hide RuntimeLaws.Faithful, RuntimeCalls.Can, RuntimeCalls.Do, Tells, Ordered, All;
    RuntimeLaws.CallsCarry(s.world, outer, s.call);
    if RuntimeCalls.HasRaised(StageOf(s)) { RaisedStays(s.world, outer, s.call); }
  }

  lemma {:induction false} FailuresAreOwn(s: State, actions: seq<Action>, end: State)
    requires Inv(s) && ToldIsOwn(s) && Leads(s, actions, end) && IsCalm(s.call, actions)
    ensures end.call in end.world.calls && ToldIsOwn(end)
    decreases |actions|
  {
    if actions != [] {
      hide Inv, ToldIsOwn, Disturbs, Act, Allowed;
      ActKeeps(s, actions[0]);
      CallStays(s, actions[0]);
      assert actions[0] in actions;
      InvHasCall(s);
      if actions[0].Local? { LocalFails(s, actions[0].inner); } else { OutsideFails(s, actions[0].outer); }
      assert forall action | action in actions[1..] :: action in actions;
      FailuresAreOwn(Act(s, actions[0]), actions[1..], end);
    }
  }

  lemma InvHasCall(s: State)
    requires Inv(s)
    ensures s.call in s.world.calls
  {
  }

  /** If nothing disturbed the stream, a consumer that is told of a failure had a call that raised. */
  lemma UndisturbedFailureIsOwn(before: seq<RuntimeCalls.WorldStep>, lease: nat, call: nat,
                                request: RuntimeCalls.Request, actions: seq<Action>, end: State, code: string)
    requires Opens(before, lease, call) && Leads(Opened(before, lease, call, request), actions, end)
    requires IsCalm(call, actions) && Problem(code) in end.channel.taken
    ensures end.call in end.world.calls && RuntimeCalls.HasRaised(StageOf(end))
  {
    var start := Opened(before, lease, call, request);
    OpenedInv(before, lease, call, request);
    hide Inv, Leads, Opens, Disturbs, RuntimeLaws.After, RuntimeLaws.Possible;
    InvHasCall(start);
    assert All(NEW) == [];
    OpensEmpty(before, lease, call, request);
    FailuresAreOwn(start, actions, end);
    TakenIsAmongAll(end.channel);
  }

  lemma TakenIsAmongAll(c: Channel)
    ensures forall item | item in c.taken :: item in All(c)
  {
  }

  // ----- the start comes first -----

  ghost predicate StartsFirst(s: State) { s.channel.producer.Fresh? ==> s.call !in s.world.executed }

  lemma ActStartsFirst(s: State, action: Action)
    requires Allowed(s, action) && StartsFirst(s)
    ensures StartsFirst(Act(s, action))
  {
    match action
    case Outside(outer) => RuntimeLaws.ExecutedList(s.world, outer);
    case Local(inner) =>
      if inner.TimeOut? && s.channel.producer.Streaming? {
        RuntimeLaws.ExecutedList(s.world, Overdue(s, inner.code));
      }
      hide RuntimeCalls.Can, RuntimeCalls.Do;
  }

  lemma {:induction false} AlwaysStartsFirst(s: State, actions: seq<Action>, end: State)
    requires Leads(s, actions, end) && StartsFirst(s)
    ensures StartsFirst(end)
    decreases |actions|
  {
    if actions != [] {
      hide StartsFirst, RuntimeCalls.Can, RuntimeCalls.Do;
      ActStartsFirst(s, actions[0]);
      AlwaysStartsFirst(Act(s, actions[0]), actions[1..], end);
    }
  }

  /** A call's invoker is never started before its stream has put that it started. */
  lemma NoRunBeforeStart(s: State)
    requires Reachable(s) && s.call in s.world.executed
    ensures !s.channel.producer.Fresh?
  {
    var before, lease, request, actions :|
      Opens(before, lease, s.call) && Leads(Opened(before, lease, s.call, request), actions, s);
    NotYetRun(before, lease, s.call, request);
    AlwaysStartsFirst(Opened(before, lease, s.call, request), actions, s);
  }

  lemma NotYetRun(before: seq<RuntimeCalls.WorldStep>, lease: nat, call: nat, request: RuntimeCalls.Request)
    requires Opens(before, lease, call)
    ensures StartsFirst(Opened(before, lease, call, request))
  {
    RuntimeLaws.AlwaysFaithful(before, lease);
    hide RuntimeLaws.After, RuntimeLaws.Possible;
  }

  // ----- when the call may move, and when its events come -----

  /** A producer that waits for the queue while its invocation streams holds the call where it is. */
  lemma WaitingHoldsCall(s: State, outer: RuntimeCalls.WorldStep)
    requires Allowed(s, Outside(outer)) && s.channel.producer.Streaming? && s.channel.blocked != None
    ensures s.call in Act(s, Outside(outer)).world.calls
    ensures StageOf(Act(s, Outside(outer))) == StageOf(s)
  {
    RuntimeLaws.CallsCarry(s.world, outer, s.call);
    hide RuntimeCalls.Can, RuntimeCalls.Do;
  }

  /** Other calls go on whatever the stream does, and leave its channel alone. */
  lemma OthersPassBy(s: State, outer: RuntimeCalls.WorldStep)
    requires s.call in s.world.calls && RuntimeCalls.Can(s.world, outer)
    requires RuntimeCalls.Subject(s.world, outer) != Some(s.call)
    ensures Allowed(s, Outside(outer)) && Act(s, Outside(outer)).channel == s.channel
  {
    hide RuntimeCalls.Can, RuntimeCalls.Do;
  }

  /** What was put of a stream has happened: a start of its own run or of a response replayed, and progress
      only once the invoker was started. */
  ghost predicate PutsWhatWas(s: State)
    requires s.call in s.world.calls
  {
    && (Note(Started) in All(s.channel) || s.channel.producer.Streaming? ==>
          s.call in s.world.store.rows || StageOf(s).Returned?)
    && ((exists item | item in All(s.channel) :: IsProgressNote(item)) ==> s.call in s.world.executed)
  }

  /** Which steps put a start or progress. */
  lemma StepPuts(c: Channel, step: Step)
    requires Can(c, step)
    ensures Note(Started) in All(Do(c, step)) ==> Note(Started) in All(c) || step.Start?
    ensures Do(c, step).producer.Streaming? ==> c.producer.Streaming? || step.Start?
    ensures (exists item | item in All(Do(c, step)) :: IsProgressNote(item)) ==>
              step.Emit? || exists item | item in All(c) :: IsProgressNote(item)
  {
    match step
    case Take =>
      var rest := c.(taken := c.taken + [c.queue[0]], queue := c.queue[1..]);
      assert c.taken + [c.queue[0]] + c.queue[1..] == c.taken + c.queue;
      assert All(rest) == All(c);
      StopAddsNothing(rest.(consumer := Raised));
      StopAddsNothing(rest.(consumer := Ended));
    case Close => StopAddsNothing(c.(consumer := Closed));
    case Cancel => StopAddsNothing(c);
    case Unblock => assert c.taken + (c.queue + [c.blocked.value]) + [] == All(c);
    case _ =>
  }

  /** A call that may start or emit has its run, and its invoker when it emits. */
  lemma MayPut(s: State, inner: Step)
    requires Inv(s) && Allowed(s, Local(inner))
    ensures inner.Start? ==> s.call in s.world.store.rows || StageOf(s).Returned?
    ensures inner.Emit? ==> s.call in s.world.executed
  {
    assert RuntimeLaws.CallOk(s.call, s.world.calls[s.call], s.world.store.rows, s.world.executed);
    hide RunSound.Sound, RuntimeLaws.RowsOwned, RuntimeLaws.TxnsOwned, RuntimeLaws.ExecutedOk, PlaceOf, Framed;
  }

  /** A world step keeps a call's run, its answer and its execution. */
  lemma WorldKeepsRun(w: RuntimeCalls.World, step: RuntimeCalls.WorldStep, p: nat)
    requires RuntimeLaws.Faithful(w) && RuntimeCalls.Can(w, step) && p in w.calls
    ensures p in RuntimeCalls.Do(w, step).calls
    ensures p in w.store.rows ==> p in RuntimeCalls.Do(w, step).store.rows
    ensures w.calls[p].stage.Returned? ==> RuntimeCalls.Do(w, step).calls[p].stage.Returned?
    ensures p in w.executed ==> p in RuntimeCalls.Do(w, step).executed
  {
    hide RuntimeLaws.RowsOwned, RuntimeLaws.TxnsOwned, RuntimeLaws.CallsOk, RuntimeLaws.ExecutedOk;
    hide RuntimeCalls.Can, RuntimeCalls.Do, RunRows.Evolves, RunSound.Sound;
    RuntimeLaws.CallsCarry(w, step, p);
    RuntimeLaws.StageForward(w, step, p);
    if p in w.store.rows { RuntimeLaws.MovesEvolve(w, step, p); }
  }

  lemma ActPuts(s: State, action: Action)
    requires Inv(s) && Allowed(s, action) && PutsWhatWas(s)
    ensures s.call in Act(s, action).world.calls && PutsWhatWas(Act(s, action))
  {
    hide RuntimeLaws.Faithful, RuntimeCalls.Can, RuntimeCalls.Do, Ordered, Tells, All, Do, Can;
    match action
    case Outside(outer) =>
      WorldKeepsRun(s.world, outer, s.call);
      SameItems(s.channel);
    case Local(inner) =>
      StepPuts(s.channel, inner);
      MayPut(s, inner);
      if inner.TimeOut? && s.channel.producer.Streaming? { WorldKeepsRun(s.world, Overdue(s, inner.code), s.call); }
  }

  lemma SameItems(c: Channel)
    ensures All(c.(producer := Unwinding)) == All(c)
  {
  }

  lemma {:induction false} AlwaysPuts(s: State, actions: seq<Action>, end: State)
    requires Inv(s) && Leads(s, actions, end) && PutsWhatWas(s)
    ensures end.call in end.world.calls && PutsWhatWas(end)
    decreases |actions|
  {
    InvHasCall(s);
    if actions != [] {
      hide Inv, PutsWhatWas, Allowed, Act;
      ActKeeps(s, actions[0]);
      ActPuts(s, actions[0]);
      AlwaysPuts(Act(s, actions[0]), actions[1..], end);
    }
  }

  /** A consumer that was handed a start has a call whose own run exists, or that was answered by replaying
      another; one that was handed progress has a call whose invoker was started. */
  lemma HandedWhatWas(s: State)
    requires Reachable(s)
    ensures s.call in s.world.calls
    ensures Note(Started) in s.channel.taken ==> s.call in s.world.store.rows || StageOf(s).Returned?
    ensures (exists item | item in s.channel.taken :: IsProgressNote(item)) ==> s.call in s.world.executed
  {
    var before, lease, request, actions :|
      Opens(before, lease, s.call) && Leads(Opened(before, lease, s.call, request), actions, s);
    OpenedInv(before, lease, s.call, request);
    assert All(NEW) == [];
    hide Inv, Leads, Opens, Reachable, RuntimeLaws.After, RuntimeLaws.Possible;
    InvHasCall(Opened(before, lease, s.call, request));
    AlwaysPuts(Opened(before, lease, s.call, request), actions, s);
    TakenIsAmongAll(s.channel);
  }

  /** A deadline may pass while the producer waits exactly if it is inside its invocation; one that replays
      a response it had put no start for fails with the deadline's code. */
  lemma WaitingMayTimeOut(s: State, code: string)
    requires s.call in s.world.calls && s.channel.blocked != None
    ensures Allowed(s, Local(TimeOut(code))) <==>
              || s.channel.producer.Committed?
              || (s.channel.producer.Streaming? && RuntimeCalls.Can(s.world, Overdue(s, code)))
    ensures s.channel.producer.Committed? ==>
              Act(s, Local(TimeOut(code))).channel == s.channel.(blocked := None, producer := Failing(code))
  {
    hide RuntimeCalls.Can, RuntimeCalls.Do;
  }

  // ----- what a cancelled producer may still do -----

  /** Once its call is over, an interrupted producer may answer with an exception; with the cancellation
      exactly if it was cancelled; and with a response exactly if it had started and the call returned it. */
  lemma InterruptedMayAnswer(s: State)
    requires Reachable(s) && s.channel.producer.Interrupted? && s.call in s.world.calls
    requires RuntimeCalls.IsOver(StageOf(s))
    ensures s.channel.blocked == None
    ensures forall code :: Allowed(s, Local(Fail(code)))
    ensures Allowed(s, Local(Settle)) <==> s.channel.producer.cancelled
    ensures forall response :: Allowed(s, Local(Commit(response))) <==>
                                 s.channel.producer.started && StageOf(s) == RuntimeCalls.Returned(response)
  {
    hide Inv, Reachable, PlaceOf, RuntimeCalls.Can, RuntimeCalls.Do;
    AlwaysInv(s);
    InterruptedHoldsNothing(s);
  }

  lemma InterruptedHoldsNothing(s: State)
    requires Inv(s) && s.channel.producer.Interrupted?
    ensures s.channel.blocked == None
  {
    hide RuntimeLaws.Faithful, PlaceOf, Tells, ConsumerOk;
  }

  // ----- a deadline that passes while the producer waits -----

  /** It fails the call, with the code of the deadline, and the call goes on to clean up. */
  lemma DeadlineFailsCall(s: State, code: string)
    requires s.call in s.world.calls && Allowed(s, Local(TimeOut(code))) && s.channel.producer.Streaming?
    requires RuntimeOwners.Owning(s.world) && s.call in s.world.store.rows
    ensures Act(s, Local(TimeOut(code))).world.calls[s.call].stage
         == RuntimeCalls.Cleaning(false, code, RunRows.Status.Failed)
  {
    RuntimeFailures.InterruptCleans(s.world, s.call, false, code, RunRows.Status.Failed);
  }

  // ----- how the reading ends -----

  /** A consumer that raised took a problem last, one that ended took the end last, and any other took
      neither. */
  predicate EndsAsTaken(c: Channel) {
    match c.consumer
    case Raised => c.taken != [] && c.taken[|c.taken| - 1].Problem? && OnlyNotes(c.taken[..|c.taken| - 1])
    case Ended => c.taken != [] && c.taken[|c.taken| - 1].Sentinel? && OnlyNotes(c.taken[..|c.taken| - 1])
    case _ => OnlyNotes(c.taken)
  }

  lemma StepEnds(c: Channel, step: Step)
    requires EndsAsTaken(c) && Can(c, step)
    ensures EndsAsTaken(Do(c, step))
  {
    if step.Take? { assert (c.taken + [c.queue[0]])[..|c.taken|] == c.taken; }
  }

  lemma {:induction false} ReadingEndsAsTaken(s: State, actions: seq<Action>, end: State)
    requires Leads(s, actions, end) && EndsAsTaken(s.channel)
    ensures EndsAsTaken(end.channel)
    decreases |actions|
  {
    if actions != [] {
      hide EndsAsTaken, RuntimeCalls.Can, RuntimeCalls.Do;
      if actions[0].Local? { StepEnds(s.channel, actions[0].inner); } else { OutsideEnds(s, actions[0]); }
      ReadingEndsAsTaken(Act(s, actions[0]), actions[1..], end);
    }
  }

  lemma OutsideEnds(s: State, action: Action)
    requires Allowed(s, action) && action.Outside? && EndsAsTaken(s.channel)
    ensures EndsAsTaken(Act(s, action).channel)
  {
  }

  /** The consumer raises exactly when it is handed a problem, and stops exactly when it is handed the end. */
  lemma ConsumerEndsAsTold(s: State)
    requires Reachable(s)
    ensures s.channel.consumer.Raised? <==> exists k | 0 <= k < |s.channel.taken| :: s.channel.taken[k].Problem?
    ensures s.channel.consumer.Ended? <==> exists k | 0 <= k < |s.channel.taken| :: s.channel.taken[k].Sentinel?
  {
    var before, lease, request, actions :|
      Opens(before, lease, s.call) && Leads(Opened(before, lease, s.call, request), actions, s);
    ReadingEndsAsTaken(Opened(before, lease, s.call, request), actions, s);
    EndedAsTaken(s.channel);
  }

  lemma EndedAsTaken(c: Channel)
    requires EndsAsTaken(c)
    ensures c.consumer.Raised? <==> exists k | 0 <= k < |c.taken| :: c.taken[k].Problem?
    ensures c.consumer.Ended? <==> exists k | 0 <= k < |c.taken| :: c.taken[k].Sentinel?
  {
    if c.taken != [] {
      var init := c.taken[..|c.taken| - 1];
      assert forall k | 0 <= k < |init| :: init[k] == c.taken[k];
    }
  }
}
