/** Who is told, and who gets free: when a reading consumer is ever told that its stream is over, and when
    a producer whose consumer has stopped comes to its end. */
module RuntimeStreamLaws {
  import RuntimeCalls
  import RuntimeLaws
  import RunRows
  import RunSound
  import opened RuntimeStream

  lemma {:induction false} LeadsOn(s: State, a: seq<Action>, middle: State, b: seq<Action>, end: State)
    requires Leads(s, a, middle) && Leads(middle, b, end)
    ensures Leads(s, a + b, end)
    decreases |a|
  {
    if a == [] {
      assert a + b == b;
    } else {
      assert (a + b)[0] == a[0] && (a + b)[1..] == a[1..] + b;
      LeadsOn(Act(s, a[0]), a[1..], middle, b, end);
    }
  }

  lemma One(s: State, action: Action)
    requires Allowed(s, action)
    ensures Leads(s, [action], Act(s, action))
  {
    assert [action][1..] == [];
  }

  // ----- the producer's own way to its end -----

  const FAILURE := "internal_error"

  /** The producer can go on by itself, without the consumer. */
  predicate IsMoving(c: Channel) { c.blocked.None? && !c.producer.Finished? && !c.producer.Cancelled? }

  /** How the invocation comes to its end if it fails now. */
  ghost function EndCall(s: State): RuntimeCalls.WorldStep
    requires s.call in s.world.calls
  {
    if StageOf(s).Cleaning? || StageOf(s).AwaitCleanup? then RuntimeCalls.GiveUp(s.call) else Overdue(s, FAILURE)
  }

  /** A step by which a producer that nothing holds up gets nearer to its end. */
  ghost function OwnMove(s: State): Action
    requires s.call in s.world.calls && IsMoving(s.channel)
  {
    if s.channel.producer.Replaying? then Local(Start)
    else if s.channel.producer.Committed? || s.channel.producer.Failing? then Local(Report)
    else if s.channel.producer.Ending? then Local(End)
    else if !RuntimeCalls.IsOver(StageOf(s)) then Outside(EndCall(s))
    else if s.channel.producer.Unwinding? then Local(Settle)
    else if s.channel.producer.Interrupted? || !StageOf(s).Returned? then Local(Fail(FAILURE))
    else if s.channel.producer.Fresh? then Local(Replay(StageOf(s).response))
    else Local(Commit(StageOf(s).response))
  }

  /** How many such steps are left at most. */
  ghost function Rank(s: State): nat
    requires s.call in s.world.calls
  {
    if s.channel.producer.Finished? || s.channel.producer.Cancelled? then 0
    else if s.channel.producer.Ending? then 1
    else if s.channel.producer.Committed? || s.channel.producer.Failing? then 2
    else if s.channel.producer.Replaying? then 3
    else if RuntimeCalls.IsOver(StageOf(s)) then 4
    else if StageOf(s).Cleaning? || StageOf(s).AwaitCleanup? then 5
    else 6
  }

  /** Bringing the call to its end is possible, touches no other call and no item, and gets nearer. */
  lemma EndCallMoves(s: State)
    requires s.call in s.world.calls && IsMoving(s.channel) && !RuntimeCalls.IsOver(StageOf(s))
    ensures Allowed(s, Outside(EndCall(s)))
    ensures var next := Act(s, Outside(EndCall(s)));
            && next.call == s.call && next.channel == s.channel && s.call in next.world.calls
            && (RuntimeCalls.IsOver(StageOf(next)) || StageOf(next).Cleaning?)
            && (StageOf(s).Cleaning? || StageOf(s).AwaitCleanup? ==> RuntimeCalls.IsOver(StageOf(next)))
  {
  }

  lemma OwnMoveMoves(s: State)
    requires Inv(s) && IsMoving(s.channel)
    ensures Allowed(s, OwnMove(s))
    ensures var next := Act(s, OwnMove(s));
            && next.call == s.call && s.call in next.world.calls && Rank(next) < Rank(s)
            && next.channel.consumer == s.channel.consumer && next.channel.taken == s.channel.taken
            && s.channel.queue <= next.channel.queue
            && |next.channel.queue| + (if next.channel.blocked.Some? then 1 else 0) <= |s.channel.queue| + 1
            && (next.channel.producer.Unwinding? ==> s.channel.producer.Unwinding?)
            && (next.channel.producer.Cancelled? ==> s.channel.producer.Unwinding?)
  {
    hide Ordered, Tells, RuntimeLaws.Faithful;
    if OwnMove(s).Outside? { EndCallMoves(s); }
    hide RuntimeCalls.Can, RuntimeCalls.Do;
  }

  // ----- a reading consumer -----

  predicate HasEnded(c: Channel) { c.consumer.Ended? || c.consumer.Raised? }

  /** The producer is going, or gone, with its cancellation, and nothing it has put ends the reading. */
  predicate Silent(c: Channel) {
    c.consumer.Reading? && (c.producer.Unwinding? || c.producer.Cancelled?) && OnlyNotes(c.queue)
  }

  predicate NoClose(actions: seq<Action>) { forall k | 0 <= k < |actions| :: actions[k] != Local(Close) }

  predicate NoCancel(actions: seq<Action>) { forall k | 0 <= k < |actions| :: actions[k] != Local(Cancel) }

  lemma SilentStaysSilent(s: State, action: Action)
    requires Inv(s) && Allowed(s, action) && Silent(s.channel) && action != Local(Close)
    ensures Silent(Act(s, action).channel)
  {
    hide RuntimeLaws.Faithful, RuntimeCalls.Can, RuntimeCalls.Do, PlaceOf, Tells;
  }

  lemma {:induction false} SilentForEver(s: State, actions: seq<Action>, end: State)
    requires Inv(s) && Silent(s.channel) && NoClose(actions) && Leads(s, actions, end)
    ensures Silent(end.channel)
    decreases |actions|
  {
    if actions != [] {
      SilentStaysSilent(s, actions[0]);
      ActKeeps(s, actions[0]);
      SilentForEver(Act(s, actions[0]), actions[1..], end);
    }
  }

  /** How much is left to do until the reading ends. */
  ghost function Load(s: State): nat
    requires s.call in s.world.calls
  {
    3 * Rank(s) + (if s.channel.blocked.Some? then 2 else 0) + |s.channel.queue|
  }

  /** The consumer takes what there is; when there is nothing the producer goes on. */
  ghost function NextMove(s: State): Action
    requires s.call in s.world.calls && (s.channel.queue != [] || s.channel.blocked.Some? || IsMoving(s.channel))
  {
    if s.channel.queue != [] then Local(Take)
    else if s.channel.blocked.Some? then Local(Unblock)
    else OwnMove(s)
  }

  /** A producer that put its end has it in the queue as long as the consumer reads on. */
  lemma EndIsQueued(c: Channel)
    requires Ordered(c) && c.consumer.Reading? && c.producer.Finished? && c.blocked.None?
    ensures c.queue != []
  {
    assert c.taken + [] + [] == c.taken;
  }

  /** The reading has come to its end, or goes on, with less left to do. */
  ghost predicate Nearer(s: State, next: State)
    requires s.call in s.world.calls
  {
    HasEnded(next.channel)
    || (next.call == s.call && s.call in next.world.calls && next.channel.consumer.Reading?
        && !Silent(next.channel) && Load(next) < Load(s))
  }

  lemma TakeMoves(s: State)
    requires Inv(s) && s.channel.consumer.Reading? && !Silent(s.channel) && s.channel.queue != []
    ensures Allowed(s, Local(Take))
    ensures Nearer(s, Act(s, Local(Take)))
  {
    hide RuntimeLaws.Faithful, PlaceOf, Tells;
    var c := s.channel;
    if c.queue[0].Note? && OnlyNotes(c.queue[1..]) {
      assert forall k | 1 <= k < |c.queue| :: c.queue[k] == c.queue[1..][k - 1];
    }
  }

  /** A waiting item moves into the empty queue. */
  lemma UnblockMoves(s: State)
    requires s.call in s.world.calls && s.channel.consumer.Reading? && !Silent(s.channel)
    requires s.channel.queue == [] && s.channel.blocked.Some? && BlockedOk(s.channel)
    ensures Allowed(s, Local(Unblock))
    ensures Nearer(s, Act(s, Local(Unblock)))
  {
  }

  /** The producer goes on while the consumer waits at the empty queue. */
  lemma ProducerMoves(s: State)
    requires Inv(s) && s.channel.consumer.Reading? && !Silent(s.channel)
    requires s.channel.queue == [] && s.channel.blocked.None?
    ensures IsMoving(s.channel) && Allowed(s, OwnMove(s))
    ensures OwnMove(s) != Local(Close) && OwnMove(s) != Local(Cancel)
    ensures Nearer(s, Act(s, OwnMove(s)))
  {
    hide RuntimeLaws.Faithful, PlaceOf, Tells;
    if s.channel.producer.Finished? { EndIsQueued(s.channel); }
    OwnMoveMoves(s);
    hide RuntimeCalls.Can, RuntimeCalls.Do, OwnMove, Act, Allowed, Rank;
  }

  /** As long as the consumer is not lost, there is a step that ends its reading or gets nearer to it. */
  lemma ReaderMoves(s: State)
    requires Inv(s) && s.channel.consumer.Reading? && !Silent(s.channel)
    ensures s.channel.queue != [] || s.channel.blocked.Some? || IsMoving(s.channel)
    ensures Allowed(s, NextMove(s)) && NextMove(s) != Local(Close) && NextMove(s) != Local(Cancel)
    ensures Nearer(s, Act(s, NextMove(s)))
  {
    InvMeans(s);
    hide Inv, Silent, Nearer, Act, Allowed, OwnMove, IsMoving, BlockedOk;
    if s.channel.queue != [] {
      TakeMoves(s);
    } else if s.channel.blocked.Some? {
      UnblockMoves(s);
    } else {
      ProducerMoves(s);
    }
  }

  lemma InvMeans(s: State)
    requires Inv(s)
    ensures s.call in s.world.calls && BlockedOk(s.channel)
  {
  }

  lemma {:induction false} ReaderEnds(s: State) returns (actions: seq<Action>, end: State)
    requires Inv(s) && s.channel.consumer.Reading? && !Silent(s.channel)
    ensures Leads(s, actions, end) && NoClose(actions) && NoCancel(actions) && HasEnded(end.channel)
    decreases Load(s)
  {
    ReaderMoves(s);
    ActKeeps(s, NextMove(s));
    var next := Act(s, NextMove(s));
    hide NextMove, Act, Allowed, Load, Silent, Inv;
    if HasEnded(next.channel) {
      actions, end := [NextMove(s)], next;
      One(s, NextMove(s));
    } else {
      var rest;
      rest, end := ReaderEnds(next);
      actions := [NextMove(s)] + rest;
      assert actions[1..] == rest;
      assert forall k | 1 <= k < |actions| :: actions[k] == rest[k - 1];
    }
  }

  /** A consumer that goes on reading can still be told that its stream is over, by an end or a problem,
      exactly until its producer goes with a cancellation before it has put either. */
  lemma ReaderIsToldIff(s: State)
    requires Reachable(s) && s.channel.consumer.Reading?
    ensures (exists actions, end | Leads(s, actions, end) && NoClose(actions) :: HasEnded(end.channel))
        <==> !Silent(s.channel)
  {
    AlwaysInv(s);
    hide Inv, Reachable, Leads;
    if Silent(s.channel) {
      forall actions, end | Leads(s, actions, end) && NoClose(actions) ensures !HasEnded(end.channel) {
        SilentForEver(s, actions, end);
      }
    } else {
      var actions, end := ReaderEnds(s);
    }
  }

  /** A cancellation leaves a reading consumer without an end exactly when the producer has left its
      invocation and has put neither a problem nor the end; inside the invocation, the cancelled call may
      still answer, but may let the cancellation through as well. */
  lemma CancellationLosesIff(s: State)
    requires Reachable(s) && s.channel.consumer.Reading? && Allowed(s, Local(Cancel))
    ensures var producer := Act(s, Local(Cancel)).channel.producer;
            producer.Unwinding? || (producer.Interrupted? && producer.cancelled)
    ensures (exists actions, end | Leads(Act(s, Local(Cancel)), actions, end) && NoClose(actions) :: HasEnded(end.channel))
        <==> (var producer := s.channel.producer;
              || producer.Fresh? || producer.Replaying? || producer.Streaming? || producer.Committed?
              || producer.Interrupted?
              || exists k | 0 <= k < |s.channel.queue| :: !s.channel.queue[k].Note?)
  {
    AlwaysInv(s);
    ActKeeps(s, Local(Cancel));
    var next := Act(s, Local(Cancel));
    CancelSilences(s.channel);
    hide Inv, Reachable, Leads, Allowed, Silent, Stopped;
    if Silent(next.channel) {
      forall actions, end | Leads(next, actions, end) && NoClose(actions) ensures !HasEnded(end.channel) {
        SilentForEver(next, actions, end);
        SilentReads(end.channel);
      }
    } else {
      var actions, end := ReaderEnds(next);
    }
  }

  lemma SilentReads(c: Channel)
    requires Silent(c)
    ensures !HasEnded(c)
  {
  }

  lemma CancelSilences(c: Channel)
    requires c.consumer.Reading? && Can(c, Cancel)
    ensures Do(c, Cancel).consumer.Reading?
    ensures Do(c, Cancel).producer.Unwinding? || (Do(c, Cancel).producer.Interrupted? && Do(c, Cancel).producer.cancelled)
    ensures Silent(Do(c, Cancel)) <==>
              !(c.producer.Fresh? || c.producer.Replaying? || c.producer.Streaming? || c.producer.Committed?
                || c.producer.Interrupted? || exists k | 0 <= k < |c.queue| :: !c.queue[k].Note?)
  {
  }

  lemma OpenedStage(before: seq<RuntimeCalls.WorldStep>, lease: nat, call: nat, request: RuntimeCalls.Request)
    requires Opens(before, lease, call)
    ensures var s := Opened(before, lease, call, request);
            && s.call == call && s.channel == NEW && s.call in s.world.calls
            && (StageOf(s).Looking? || StageOf(s).Opening?)
  {
    hide RuntimeLaws.After, RuntimeLaws.Possible;
  }

  /** While its consumer reads, nobody has cancelled the producer. */
  predicate Uncancelled(c: Channel) {
    c.consumer.Reading? ==>
      && !c.producer.Unwinding? && !c.producer.Cancelled?
      && !(c.producer.Interrupted? && c.producer.cancelled)
  }

  lemma UncancelledStays(s: State, action: Action)
    requires Inv(s) && Allowed(s, action) && Uncancelled(s.channel) && action != Local(Cancel)
    ensures Uncancelled(Act(s, action).channel)
  {
    hide RuntimeLaws.Faithful, RuntimeCalls.Can, RuntimeCalls.Do, PlaceOf, Tells;
  }

  lemma {:induction false} UncancelledLasts(s: State, actions: seq<Action>, end: State)
    requires Inv(s) && Uncancelled(s.channel) && NoCancel(actions) && Leads(s, actions, end)
    ensures Inv(end) && Uncancelled(end.channel)
    decreases |actions|
  {
    if actions != [] {
      UncancelledStays(s, actions[0]);
      ActKeeps(s, actions[0]);
      UncancelledLasts(Act(s, actions[0]), actions[1..], end);
    }
  }

  /** As long as nobody cancels its producer from outside, whatever fails, runs out of time or is
      interleaved, a reading consumer is never lost: without any cancellation it can be told of the end. */
  lemma UncancelledIsTold(before: seq<RuntimeCalls.WorldStep>, lease: nat, call: nat, request: RuntimeCalls.Request,
                          actions: seq<Action>, end: State)
    requires Opens(before, lease, call) && Leads(Opened(before, lease, call, request), actions, end)
    requires NoCancel(actions) && end.channel.consumer.Reading?
    ensures !Silent(end.channel)
    ensures exists more, last | Leads(end, more, last) && NoClose(more) && NoCancel(more) :: HasEnded(last.channel)
  {
    OpenedInv(before, lease, call, request);
    OpenedStage(before, lease, call, request);
    hide Inv, Leads, NoCancel, Opened;
    UncancelledLasts(Opened(before, lease, call, request), actions, end);
    var more, last := ReaderEnds(end);
  }

  lemma CancelMoves(s: State)
    requires s.channel == NEW && s.call in s.world.calls
    ensures Leads(s, [Local(Cancel)], s.(channel := NEW.(producer := Interrupted(false, true))))
  {
    hide RuntimeCalls.Can, RuntimeCalls.Do;
    One(s, Local(Cancel));
  }

  lemma SettleMoves(s: State) returns (end: State)
    requires s.channel == NEW.(producer := Unwinding) && s.call in s.world.calls && RuntimeCalls.IsOver(StageOf(s))
    ensures Leads(s, [Local(Settle)], end) && end.call == s.call && Silent(end.channel)
  {
    hide RuntimeCalls.Can, RuntimeCalls.Do;
    end := Act(s, Local(Settle));
    One(s, Local(Settle));
  }

  /** Cancelling a stream whose call has not begun takes the producer with it. */
  lemma CancelLeads(s: State) returns (end: State)
    requires s.channel == NEW && s.call in s.world.calls && (StageOf(s).Looking? || StageOf(s).Opening?)
    ensures var stop := RuntimeCalls.Interrupt(s.call, true, "invocation_cancelled", RunRows.Status.Failed);
            Leads(s, [Local(Cancel), Outside(stop), Local(Settle)], end)
    ensures end.call == s.call && Silent(end.channel)
  {
    var stop := RuntimeCalls.Interrupt(s.call, true, "invocation_cancelled", RunRows.Status.Failed);
    var s1 := s.(channel := NEW.(producer := Interrupted(false, true)));
    var s2 := StopLeads(s1);
    CancelMoves(s);
    end := SettleMoves(s2);
    hide Leads, Act, Allowed;
    LeadsOn(s, [Local(Cancel)], s1, [Outside(stop)], s2);
    LeadsOn(s, [Local(Cancel)] + [Outside(stop)], s2, [Local(Settle)], end);
    assert [Local(Cancel)] + [Outside(stop)] + [Local(Settle)] == [Local(Cancel), Outside(stop), Local(Settle)];
  }

  lemma StopLeads(s: State) returns (end: State)
    requires s.channel == NEW.(producer := Interrupted(false, true)) && s.call in s.world.calls
    requires StageOf(s).Looking? || StageOf(s).Opening?
    ensures var stop := RuntimeCalls.Interrupt(s.call, true, "invocation_cancelled", RunRows.Status.Failed);
            Leads(s, [Outside(stop)], end)
    ensures end.call == s.call && end.channel == NEW.(producer := Unwinding)
    ensures s.call in end.world.calls && RuntimeCalls.IsOver(StageOf(end))
  {
    var stop := RuntimeCalls.Interrupt(s.call, true, "invocation_cancelled", RunRows.Status.Failed);
    end := Act(s, Outside(stop));
    One(s, Outside(stop));
  }

  /** The schedule in which it is lost: whatever the runtime did before, a producer cancelled as soon as its
      stream is opened leaves a reading consumer that nobody will ever tell. */
  lemma CancelledIsSilent(before: seq<RuntimeCalls.WorldStep>, lease: nat, call: nat, request: RuntimeCalls.Request)
    returns (end: State)
    requires Opens(before, lease, call)
    ensures var stop := RuntimeCalls.Interrupt(call, true, "invocation_cancelled", RunRows.Status.Failed);
            Leads(Opened(before, lease, call, request), [Local(Cancel), Outside(stop), Local(Settle)], end)
    ensures Reachable(end) && Silent(end.channel)
    ensures forall actions, later | Leads(end, actions, later) && NoClose(actions) :: !HasEnded(later.channel)
  {
    var s := Opened(before, lease, call, request);
    var stop := RuntimeCalls.Interrupt(call, true, "invocation_cancelled", RunRows.Status.Failed);
    OpenedStage(before, lease, call, request);
    hide Opened;
    end := CancelLeads(s);
    assert Reachable(end) by {
      assert Opens(before, lease, end.call) && Leads(Opened(before, lease, end.call, request),
                                                     [Local(Cancel), Outside(stop), Local(Settle)], end);
    }
    hide Leads, Reachable;
    ReaderIsToldIff(end);
  }

  // ----- a producer whose consumer has stopped -----

  /** The items a producer is going to put; one that was interrupted puts two, unless its cancellation gets
      out of the invocation as it is. */
  function Owed(c: Channel): nat {
    (if c.producer.Ending? then 1
     else if c.producer.Finished? || c.producer.Unwinding? || c.producer.Cancelled? then 0
     else 2)
    + if c.blocked.Some? then 1 else 0
  }

  /** What the queue comes to hold if nobody takes from it. */
  function Demand(c: Channel): nat { |c.queue| + Owed(c) }

  /** The producer waits for room in a queue that nobody empties any more. */
  predicate Stuck(c: Channel) { !c.consumer.Reading? && c.blocked.Some? && |c.queue| >= CAPACITY }

  /** After its consumer has stopped, a producer never comes to owe more. */
  lemma DemandHolds(s: State, action: Action)
    requires Inv(s) && Allowed(s, action) && !s.channel.consumer.Reading? && action != Local(Cancel)
    ensures var next := Act(s, action);
            && Demand(next.channel) <= Demand(s.channel) && !next.channel.consumer.Reading?
            && (Stuck(s.channel) ==> Stuck(next.channel))
  {
    hide RuntimeLaws.Faithful, RuntimeCalls.Can, RuntimeCalls.Do, PlaceOf, Tells;
  }

  lemma {:induction false} DemandStays(s: State, actions: seq<Action>, end: State)
    requires Inv(s) && !s.channel.consumer.Reading? && NoCancel(actions) && Leads(s, actions, end)
    ensures Demand(end.channel) <= Demand(s.channel) && (Stuck(s.channel) ==> Stuck(end.channel))
    decreases |actions|
  {
    if actions != [] {
      DemandHolds(s, actions[0]);
      ActKeeps(s, actions[0]);
      DemandStays(Act(s, actions[0]), actions[1..], end);
    }
  }

  /** Without its consumer a producer puts exactly what it owes. */
  lemma OwnMoveOwes(s: State)
    requires Inv(s) && IsMoving(s.channel) && !s.channel.consumer.Reading?
    ensures Allowed(s, OwnMove(s))
    ensures Demand(Act(s, OwnMove(s)).channel) == Demand(s.channel)
  {
    hide RuntimeLaws.Faithful, PlaceOf, Tells;
    if OwnMove(s).Outside? { EndCallMoves(s); }
    hide RuntimeCalls.Can, RuntimeCalls.Do;
  }

  ghost function SoloMove(s: State): Action
    requires s.call in s.world.calls && (s.channel.blocked.Some? || IsMoving(s.channel))
  {
    if s.channel.blocked.Some? then Local(Unblock) else OwnMove(s)
  }

  lemma SoloMoves(s: State)
    requires Inv(s) && !s.channel.consumer.Reading? && !IsDone(s.channel) && !Stuck(s.channel)
    ensures s.channel.blocked.Some? || IsMoving(s.channel)
    ensures Allowed(s, SoloMove(s)) && SoloMove(s) != Local(Cancel)
    ensures var next := Act(s, SoloMove(s));
            && next.call == s.call && s.call in next.world.calls && !next.channel.consumer.Reading?
            && Demand(next.channel) == Demand(s.channel)
            && (Rank(next) < Rank(s) || (Rank(next) == Rank(s) && s.channel.blocked.Some? && next.channel.blocked.None?))
  {
    if s.channel.blocked.Some? {
      hide RuntimeLaws.Faithful, PlaceOf, Tells;
    } else {
      OwnMoveMoves(s);
      OwnMoveOwes(s);
      hide RuntimeLaws.Faithful, PlaceOf, Tells, RuntimeCalls.Can, RuntimeCalls.Do, OwnMove, Act, Allowed, Rank, Demand;
    }
  }

  /** Left alone, a producer ends, or gets stuck, after putting exactly what it owes. */
  lemma {:induction false} RunsOut(s: State) returns (actions: seq<Action>, end: State)
    requires Inv(s) && !s.channel.consumer.Reading?
    ensures Leads(s, actions, end) && NoCancel(actions)
    ensures IsDone(end.channel) || Stuck(end.channel)
    ensures Inv(end) && Demand(end.channel) == Demand(s.channel)
    decreases Rank(s), s.channel.blocked.Some?
  {
    hide Inv;
    InvMeans(s);
    hide SoloMove, Act, Allowed, Rank, Stuck, IsDone, Inv, Demand;
    if IsDone(s.channel) || Stuck(s.channel) {
      actions, end := [], s;
    } else {
      SoloMoves(s);
      ActKeeps(s, SoloMove(s));
      var next, rest := Act(s, SoloMove(s)), [];
      rest, end := RunsOut(next);
      actions := [SoloMove(s)] + rest;
      assert actions[1..] == rest;
      assert forall k | 1 <= k < |actions| :: actions[k] == rest[k - 1];
    }
  }

  lemma DoneOrStuck(s: State)
    requires Inv(s)
    ensures IsDone(s.channel) ==> Demand(s.channel) <= CAPACITY
    ensures Stuck(s.channel) ==> Demand(s.channel) > CAPACITY
  {
  }

  /** A producer whose consumer has stopped is safe from waiting for ever exactly if the queue has room for
      everything it may still put, a problem and the end after an interruption; then it does come to its
      end by itself. Without the room there is a schedule in which it waits, and goes on waiting. */
  lemma StoppedConsumerFreesProducer(s: State)
    requires Reachable(s) && !s.channel.consumer.Reading?
    ensures (forall actions, end | Leads(s, actions, end) && NoCancel(actions) :: !Stuck(end.channel))
        <==> Demand(s.channel) <= CAPACITY
    ensures Demand(s.channel) <= CAPACITY ==>
              exists actions, end | Leads(s, actions, end) && NoCancel(actions) :: IsDone(end.channel)
  {
    AlwaysInv(s);
    var more, last := RunsOut(s);
    DoneOrStuck(last);
    forall actions, end | Leads(s, actions, end) && NoCancel(actions)
      ensures Stuck(end.channel) ==> Demand(s.channel) > CAPACITY
    {
      DemandStays(s, actions, end);
      LeadsKeep(s, actions, end);
      DoneOrStuck(end);
    }
  }

  /** A stuck producer is stuck until it is cancelled again, and that frees it. */
  lemma StuckUntilCancelled(s: State, actions: seq<Action>, end: State)
    requires Reachable(s) && Stuck(s.channel) && Leads(s, actions, end)
    ensures NoCancel(actions) ==> Stuck(end.channel)
    ensures Allowed(s, Local(Cancel)) && Allowed(Act(s, Local(Cancel)), Local(Settle))
    ensures IsDone(Act(Act(s, Local(Cancel)), Local(Settle)).channel)
  {
    hide RunSound.Sound, RuntimeLaws.RowsOwned, RuntimeLaws.TxnsOwned, RuntimeLaws.CallsOk, RuntimeLaws.ExecutedOk;
    hide PlaceOf, Tells, Reachable, Leads, RuntimeCalls.Can, RuntimeCalls.Do;
    AlwaysInv(s);
    if NoCancel(actions) { DemandStays(s, actions, end); }
  }
}
