/** The runtime's streaming form: a producer that runs one invocation and fills a bounded queue, a consumer
    that empties it, and either of them stopped at any point. The invocation itself is a call of the
    runtime's transition system, so that what the consumer is told can be held against the store. */
module RuntimeStream {
  import opened Wrappers

  import opened RunRows
  import RuntimeCalls
  import RuntimeLaws

  // ----- the queue -----

  const CAPACITY := 64

  datatype Event = Started | TextDelta(text: string) | ToolResult(output: string) | Completed(response: Response)

  datatype Item = Note(event: Event) | Problem(code: string) | Sentinel

  /** Where the producer is. Up to `Committed` it is inside the invocation, so a cancellation, like a
      deadline, may still end in an ordinary exception, or in the response when the commit had come
      through; once it is `Unwinding` the cancellation itself is on its way out. */
  datatype Producer =
    | Fresh
    | Replaying(response: Response)
    | Streaming
    | Committed(response: Response)
    | Failing(code: string)
    | Ending
    | Finished
    | Interrupted(started: bool, cancelled: bool)
    | Unwinding
    | Cancelled

  datatype Consumer = Reading | Ended | Raised | Closed

  /** `taken` is what the consumer took from the queue, and `blocked` the item a full queue keeps the
      producer waiting with. */
  datatype Channel = Channel(taken: seq<Item>, queue: seq<Item>, blocked: Option<Item>, producer: Producer,
                             consumer: Consumer)

  const NEW: Channel := Channel([], [], None, Fresh, Reading)

  datatype Step =
    | Start
    | Replay(response: Response)
    | Emit(event: Event)
    | Commit(response: Response)
    | Fail(code: string)
    | TimeOut(code: string)
    | Report
    | End
    | Unblock
    | Take
    | Close
    | Cancel
    | Settle

  predicate IsProgress(e: Event) { e.TextDelta? || e.ToolResult? }

  /** The producer's task is over: nothing of it waits for the queue any more. */
  predicate IsDone(c: Channel) { c.producer.Cancelled? || (c.producer.Finished? && c.blocked.None?) }

  predicate Can(c: Channel, step: Step) {
    match step
    case Start => c.blocked.None? && (c.producer.Fresh? || c.producer.Replaying?)
    case Replay(_) => c.producer.Fresh?
    case Emit(e) => c.blocked.None? && c.producer.Streaming? && IsProgress(e)
    case Commit(_) => c.blocked.None? && (c.producer.Streaming? || (c.producer.Interrupted? && c.producer.started))
    case Fail(_) => c.blocked.None? && (c.producer.Fresh? || c.producer.Streaming? || c.producer.Interrupted?)
    case TimeOut(_) => c.blocked.Some? && (c.producer.Streaming? || c.producer.Committed?)
    case Report => c.blocked.None? && (c.producer.Committed? || c.producer.Failing?)
    case End => c.blocked.None? && c.producer.Ending?
    case Unblock => c.blocked.Some? && |c.queue| < CAPACITY
    case Take => c.consumer.Reading? && c.queue != []
    case Close => c.consumer.Reading?
    case Cancel => !IsDone(c)
    case Settle => (c.producer.Interrupted? && c.producer.cancelled) || c.producer.Unwinding?
  }

  /** Putting an item waits, with the item in hand, while the queue is full. */
  function Put(c: Channel, item: Item, next: Producer): Channel {
    if |c.queue| < CAPACITY then c.(queue := c.queue + [item], producer := next)
    else c.(blocked := Some(item), producer := next)
  }

  predicate HasStarted(c: Channel) {
    (c.producer.Streaming? || c.producer.Committed?) && c.blocked != Some(Note(Started))
  }

  /** A cancelled producer drops what it was about to put. */
  function Stopped(c: Channel): Channel {
    if IsDone(c) then c
    else if c.producer.Interrupted? then c.(producer := Interrupted(c.producer.started, true))
    else if c.producer.Fresh? || c.producer.Replaying? || c.producer.Streaming? || c.producer.Committed?
    then c.(producer := Interrupted(HasStarted(c), true), blocked := None)
    else c.(producer := Unwinding, blocked := None)
  }

  function Taken(c: Channel): Channel
    requires c.queue != []
  {
    var rest := c.(taken := c.taken + [c.queue[0]], queue := c.queue[1..]);
    match c.queue[0]
    case Note(_) => rest
    case Problem(_) => Stopped(rest.(consumer := Raised))
    case Sentinel => Stopped(rest.(consumer := Ended))
  }

  function Do(c: Channel, step: Step): Channel
    requires Can(c, step)
  {
    match step
    case Start => Put(c, Note(Started), if c.producer.Fresh? then Streaming else Committed(c.producer.response))
    case Replay(response) => c.(producer := Replaying(response))
    case Emit(e) => Put(c, Note(e), Streaming)
    case Commit(response) => c.(producer := Committed(response))
    case Fail(code) => c.(producer := Failing(code))
    case TimeOut(code) =>
      c.(blocked := None, producer := if c.producer.Committed? then Failing(code) else Interrupted(HasStarted(c), false))
    case Report =>
      if c.producer.Committed? then Put(c, Note(Completed(c.producer.response)), Ending)
      else Put(c, Problem(c.producer.code), Ending)
    case End => Put(c, Sentinel, Finished)
    case Unblock => c.(queue := c.queue + [c.blocked.value], blocked := None)
    case Take => Taken(c)
    case Close => Stopped(c.(consumer := Closed))
    case Cancel => Stopped(c)
    case Settle => c.(producer := Cancelled)
  }

  // ----- the stream and its invocation -----

  /** A stream over call `call` of a runtime. */
  datatype State = State(world: RuntimeCalls.World, call: nat, channel: Channel)

  datatype Action = Outside(outer: RuntimeCalls.WorldStep) | Local(inner: Step)

  ghost function StageOf(s: State): RuntimeCalls.Stage
    requires s.call in s.world.calls
  {
    s.world.calls[s.call].stage
  }

  /** The step that interrupts the invocation when the deadline passes while it waits for the queue. */
  function Overdue(s: State, code: string): RuntimeCalls.WorldStep {
    RuntimeCalls.Interrupt(s.call, false, code, Status.Failed)
  }

  /** The streaming form follows its call: it starts when the call's run has started, streams while the
      invoker runs, and knows a response, or a failure, when the call is over. A producer waiting for the
      queue keeps the call waiting, and only a cancelled producer cancels the call. */
  ghost predicate Follows(s: State, step: Step)
    requires s.call in s.world.calls
  {
    match step
    case Start => s.channel.producer.Replaying? || StageOf(s).Ready?
    case Replay(response) => StageOf(s) == RuntimeCalls.Returned(response)
    case Emit(_) => StageOf(s).Executing?
    case Commit(response) => StageOf(s) == RuntimeCalls.Returned(response)
    case Fail(_) =>
      if s.channel.producer.Interrupted? then RuntimeCalls.IsOver(StageOf(s)) else RuntimeCalls.HasRaised(StageOf(s))
    case TimeOut(code) => s.channel.producer.Streaming? ==> RuntimeCalls.Can(s.world, Overdue(s, code))
    case Settle => RuntimeCalls.IsOver(StageOf(s))
    case _ => true
  }

  ghost predicate Lets(s: State, outer: RuntimeCalls.WorldStep) {
    && (RuntimeCalls.Subject(s.world, outer) == Some(s.call) && s.channel.producer.Streaming? ==>
          s.channel.blocked.None?)
    && (outer == RuntimeCalls.Execute(s.call) ==> !s.channel.producer.Fresh?)
    && (IsCancellation(s, outer) ==> s.channel.producer.Interrupted? && s.channel.producer.cancelled)
  }

  predicate IsCancellation(s: State, outer: RuntimeCalls.WorldStep) {
    outer.Interrupt? && outer.call == s.call && outer.cancelled
  }

  ghost predicate Allowed(s: State, action: Action) {
    && s.call in s.world.calls
    && match action
       case Outside(outer) => RuntimeCalls.Can(s.world, outer) && Lets(s, outer)
       case Local(inner) => Can(s.channel, inner) && Follows(s, inner)
  }

  ghost function Act(s: State, action: Action): State
    requires Allowed(s, action)
  {
    match action
    case Outside(outer) =>
      s.(world := RuntimeCalls.Do(s.world, outer),
         channel := if IsCancellation(s, outer) then s.channel.(producer := Unwinding) else s.channel)
    case Local(inner) =>
      s.(world := if inner.TimeOut? && s.channel.producer.Streaming?
                  then RuntimeCalls.Do(s.world, Overdue(s, inner.code)) else s.world,
         channel := Do(s.channel, inner))
  }

  /** The actions are possible one after another, and lead there. */
  ghost predicate Leads(s: State, actions: seq<Action>, end: State)
    decreases |actions|
  {
    if |actions| == 0 then s == end
    else Allowed(s, actions[0]) && Leads(Act(s, actions[0]), actions[1..], end)
  }

  /** A stream is opened when its call arrives, in whatever world a run of the runtime has led to. */
  ghost predicate Opens(before: seq<RuntimeCalls.WorldStep>, lease: nat, call: nat) {
    RuntimeLaws.Possible(before, lease) && call !in RuntimeLaws.After(before, lease).calls
  }

  ghost function Opened(before: seq<RuntimeCalls.WorldStep>, lease: nat, call: nat, request: RuntimeCalls.Request): State
    requires Opens(before, lease, call)
  {
    State(RuntimeCalls.Do(RuntimeLaws.After(before, lease), RuntimeCalls.Arrive(call, request)), call, NEW)
  }

  /** Some schedule leads there. */
  ghost predicate Reachable(s: State) {
    exists before, lease, request, actions ::
      Opens(before, lease, s.call) && Leads(Opened(before, lease, s.call, request), actions, s)
  }

  // ----- the order of what is put -----

  datatype Place = AtStart | InMiddle | AfterResponse | AfterProblem | AfterEnd | Misplaced

  function Next(p: Place, item: Item): Place {
    match item
    case Note(Started) => if p.AtStart? then InMiddle else Misplaced
    case Note(Completed(_)) => if p.InMiddle? then AfterResponse else Misplaced
    case Note(_) => if p.InMiddle? then InMiddle else Misplaced
    case Problem(_) => if p.AtStart? || p.InMiddle? then AfterProblem else Misplaced
    case Sentinel => if p.AfterResponse? || p.AfterProblem? then AfterEnd else Misplaced
  }

  /** Where a sequence of items has got to in `started, (text or tool result)*, completed, end`, or in
      one of its beginnings followed by a problem and the end. */
  function PlaceOf(items: seq<Item>): Place {
    if |items| == 0 then AtStart else Next(PlaceOf(items[..|items| - 1]), items[|items| - 1])
  }

  function Waiting(blocked: Option<Item>): seq<Item> { if blocked.Some? then [blocked.value] else [] }

  function All(c: Channel): seq<Item> { c.taken + c.queue + Waiting(c.blocked) }

  predicate Placed(producer: Producer, place: Place) {
    match producer
    case Fresh => place.AtStart?
    case Replaying(_) => place.AtStart?
    case Streaming => place.InMiddle?
    case Committed(_) => place.InMiddle?
    case Failing(_) => place.AtStart? || place.InMiddle?
    case Ending => place.AfterResponse? || place.AfterProblem?
    case Finished => place.AfterEnd?
    case Interrupted(started, _) => place == if started then InMiddle else AtStart
    case _ => !place.Misplaced?
  }

  predicate IsResponse(item: Item) { item.Note? && item.event.Completed? }

  predicate IsProgressNote(item: Item) { item.Note? && IsProgress(item.event) }

  /** What the producer may be waiting with. */
  predicate BlockedOk(c: Channel) {
    c.blocked.Some? ==>
      match c.producer
      case Streaming => c.blocked.value == Note(Started) || IsProgressNote(c.blocked.value)
      case Committed(_) => c.blocked.value == Note(Started)
      case Ending => true
      case Finished => true
      case _ => false
  }

  predicate OnlyNotes(items: seq<Item>) { forall k | 0 <= k < |items| :: items[k].Note? }

  /** A consumer goes on reading until it takes a problem or the end, and then the producer is past its
      streaming. */
  predicate ConsumerOk(c: Channel) {
    if c.consumer.Reading? then OnlyNotes(c.taken)
    else !c.producer.Fresh? && !c.producer.Replaying? && !c.producer.Streaming?
         && (c.blocked.Some? ==> c.producer.Ending? || c.producer.Finished?)
  }

  predicate Framed(c: Channel) {
    |c.queue| <= CAPACITY && Placed(c.producer, PlaceOf(All(c))) && BlockedOk(c)
  }

  predicate Ordered(c: Channel) { Framed(c) && ConsumerOk(c) }

  lemma PlaceSnoc(items: seq<Item>, item: Item)
    ensures PlaceOf(items + [item]) == Next(PlaceOf(items), item)
  {
    assert (items + [item])[..|items|] == items;
  }

  lemma PutPlaces(c: Channel, item: Item, next: Producer)
    requires c.blocked.None?
    ensures All(Put(c, item, next)) == All(c) + [item]
    ensures PlaceOf(All(Put(c, item, next))) == Next(PlaceOf(All(c)), item)
  {
    assert All(c) == c.taken + c.queue;
    assert c.taken + (c.queue + [item]) == c.taken + c.queue + [item];
    PlaceSnoc(All(c), item);
  }

  lemma {:induction false} PrefixPlaced(items: seq<Item>, n: nat)
    requires n <= |items| && !PlaceOf(items).Misplaced?
    ensures !PlaceOf(items[..n]).Misplaced?
  {
    if n == |items| {
      assert items[..n] == items;
    } else {
      assert items[..|items| - 1][..n] == items[..n];
      PrefixPlaced(items[..|items| - 1], n);
    }
  }

  lemma DropWaiting(c: Channel)
    requires Framed(c)
    ensures c.taken + c.queue == All(c)[..|c.taken + c.queue|]
    ensures !PlaceOf(c.taken + c.queue).Misplaced?
    ensures c.blocked.Some? ==> PlaceOf(All(c)) == Next(PlaceOf(c.taken + c.queue), c.blocked.value)
    ensures c.blocked.None? ==> All(c) == c.taken + c.queue
  {
    var kept := c.taken + c.queue;
    assert kept == All(c)[..|kept|];
    PrefixPlaced(All(c), |kept|);
    if c.blocked.Some? { PlaceSnoc(kept, c.blocked.value); }
  }

  lemma StopKeeps(c: Channel, consumer: Consumer)
    requires Framed(c) && (consumer.Reading? ==> OnlyNotes(c.taken))
    ensures Ordered(Stopped(c.(consumer := consumer)))
  {
    hide PlaceOf;
    DropWaiting(c);
    var next := Stopped(c.(consumer := consumer));
    if next.blocked.None? { assert All(next) == c.taken + c.queue; }
  }

  lemma PutKeeps(c: Channel, item: Item, next: Producer)
    requires Ordered(c) && c.blocked.None?
    requires Placed(next, Next(PlaceOf(All(c)), item))
    requires BlockedOk(c.(blocked := Some(item), producer := next))
    requires ConsumerOk(c.(blocked := Some(item), producer := next))
    ensures Ordered(Put(c, item, next))
  {
    PutPlaces(c, item, next);
  }

  lemma TakeKeeps(c: Channel)
    requires Ordered(c) && Can(c, Take)
    ensures Ordered(Taken(c))
  {
    var rest := c.(taken := c.taken + [c.queue[0]], queue := c.queue[1..]);
    assert c.taken + [c.queue[0]] + c.queue[1..] == c.taken + c.queue;
    assert All(rest) == All(c);
    StopKeeps(rest, Raised);
    StopKeeps(rest, Ended);
  }

  lemma DecideKeeps(c: Channel, step: Step)
    requires Ordered(c) && Can(c, step)
    requires step.Replay? || step.Commit? || step.Fail? || step.TimeOut? || step.Unblock? || step.Settle?
    ensures Ordered(Do(c, step))
  {
    match step
    case TimeOut(_) =>
      DropWaiting(c);
      assert All(Do(c, step)) == c.taken + c.queue;
    case Unblock => assert c.taken + (c.queue + [c.blocked.value]) + [] == All(c);
    case _ =>
  }

  /** Whatever the producer, the consumer or a cancellation does next, the order stays. */
  lemma ChannelKeeps(c: Channel, step: Step)
    requires Ordered(c) && Can(c, step)
    ensures Ordered(Do(c, step))
  {
    hide PlaceOf;
    match step
    case Start => PutKeeps(c, Note(Started), if c.producer.Fresh? then Streaming else Committed(c.producer.response));
    case Emit(e) => PutKeeps(c, Note(e), Streaming);
    case Report =>
      PutKeeps(c, if c.producer.Committed? then Note(Completed(c.producer.response)) else Problem(c.producer.code), Ending);
    case End => PutKeeps(c, Sentinel, Finished);
    case Take => TakeKeeps(c);
    case Close => StopKeeps(c, Closed);
    case Cancel => StopKeeps(c, c.consumer);
    case _ => DecideKeeps(c, step);
  }

  // ----- what is told -----

  /** The response an invocation returned, if it has. */
  function Answer(stage: RuntimeCalls.Stage): Option<Response> {
    if stage.Returned? then Some(stage.response) else None
  }

  /** The only response that is put, or about to be, is the one the invocation returned. */
  ghost predicate Tells(c: Channel, answer: Option<Response>) {
    && (forall item | item in All(c) && IsResponse(item) :: answer == Some(item.event.response))
    && (c.producer.Replaying? || c.producer.Committed? ==> answer == Some(c.producer.response))
  }

  /** Stopping drops what was waiting, and adds nothing. */
  lemma StopTells(c: Channel, answer: Option<Response>)
    requires Tells(c, answer)
    ensures Tells(Stopped(c), answer)
  {
    assert forall item | item in All(Stopped(c)) :: item in All(c);
  }

  lemma TakeTells(c: Channel, answer: Option<Response>)
    requires Tells(c, answer) && c.queue != []
    ensures Tells(Taken(c), answer)
  {
    var rest := c.(taken := c.taken + [c.queue[0]], queue := c.queue[1..]);
    assert c.taken + [c.queue[0]] + c.queue[1..] == c.taken + c.queue;
    assert All(rest) == All(c);
    StopTells(rest.(consumer := Raised), answer);
    StopTells(rest.(consumer := Ended), answer);
  }

  lemma StepTells(c: Channel, step: Step, answer: Option<Response>)
    requires Tells(c, answer) && Can(c, step)
    requires step.Replay? || step.Commit? ==> answer == Some(step.response)
    ensures Tells(Do(c, step), answer)
  {
    match step
    case Take => TakeTells(c, answer);
    case Close => StopTells(c.(consumer := Closed), answer);
    case Cancel => StopTells(c, answer);
    case Unblock => assert c.taken + (c.queue + [c.blocked.value]) + [] == All(c);
    case _ =>
  }

  // ----- what every action keeps -----

  /** The producer has the outcome of its invocation. */
  predicate IsPast(producer: Producer) { producer.Failing? || producer.Ending? || producer.Finished? }

  ghost predicate Inv(s: State) {
    && Ordered(s.channel)
    && RuntimeLaws.Faithful(s.world)
    && s.call in s.world.calls
    && Tells(s.channel, Answer(StageOf(s)))
    && (IsPast(s.channel.producer) ==> RuntimeCalls.IsOver(StageOf(s)))
  }

  /** An invocation's answer is never taken back, and what was told of it stays true. */
  lemma OuterTells(s: State, outer: RuntimeCalls.WorldStep)
    requires s.call in s.world.calls && RuntimeCalls.Can(s.world, outer) && Tells(s.channel, Answer(StageOf(s)))
    ensures s.call in RuntimeCalls.Do(s.world, outer).calls
    ensures Tells(s.channel, Answer(RuntimeCalls.Do(s.world, outer).calls[s.call].stage))
    ensures RuntimeCalls.IsOver(StageOf(s)) ==> RuntimeCalls.IsOver(RuntimeCalls.Do(s.world, outer).calls[s.call].stage)
  {
    RuntimeLaws.CallsCarry(s.world, outer, s.call);
    RuntimeLaws.StageForward(s.world, outer, s.call);
  }

  lemma OutsideKeeps(s: State, outer: RuntimeCalls.WorldStep)
    requires Inv(s) && Allowed(s, Outside(outer))
    ensures Inv(Act(s, Outside(outer)))
  {
    hide RuntimeLaws.Faithful, RuntimeCalls.Can, RuntimeCalls.Do, PlaceOf;
    RuntimeLaws.WorldStepKeeps(s.world, outer);
    OuterTells(s, outer);
  }

  /** A producer knows an outcome only once its call is over. */
  lemma StepPast(s: State, inner: Step)
    requires Inv(s) && Allowed(s, Local(inner)) && IsPast(Do(s.channel, inner).producer)
    ensures RuntimeCalls.IsOver(StageOf(s))
  {
    hide RuntimeLaws.Faithful, RuntimeCalls.Can, Ordered, PlaceOf;
  }

  /** Whatever the stream or the runtime around it does next, the invariant stays. */
  lemma ActKeeps(s: State, action: Action)
    requires Inv(s) && Allowed(s, action)
    ensures Inv(Act(s, action))
  {
    hide RuntimeLaws.Faithful, RuntimeCalls.Can, RuntimeCalls.Do, Ordered, Tells, Do;
    match action
    case Outside(outer) => OutsideKeeps(s, outer);
    case Local(inner) =>
      ChannelKeeps(s.channel, inner);
      StepTells(s.channel, inner, Answer(StageOf(s)));
      if IsPast(Do(s.channel, inner).producer) { StepPast(s, inner); }
      if inner.TimeOut? && s.channel.producer.Streaming? {
        var outer := Overdue(s, inner.code);
        RuntimeLaws.WorldStepKeeps(s.world, outer);
        OuterTells(s.(channel := Do(s.channel, inner)), outer);
      }
  }

  lemma {:induction false} LeadsKeep(s: State, actions: seq<Action>, end: State)
    requires Inv(s) && Leads(s, actions, end)
    ensures Inv(end) && end.call == s.call
    decreases |actions|
  {
    if actions != [] {
      ActKeeps(s, actions[0]);
      LeadsKeep(Act(s, actions[0]), actions[1..], end);
    }
  }

  lemma OpenedInv(before: seq<RuntimeCalls.WorldStep>, lease: nat, call: nat, request: RuntimeCalls.Request)
    requires Opens(before, lease, call)
    ensures Inv(Opened(before, lease, call, request))
  {
    RuntimeLaws.AlwaysFaithful(before, lease);
    RuntimeLaws.WorldStepKeeps(RuntimeLaws.After(before, lease), RuntimeCalls.Arrive(call, request));
    hide RuntimeLaws.Faithful, RuntimeLaws.After, RuntimeLaws.Possible;
    assert All(NEW) == [];
  }

  lemma AlwaysInv(s: State)
    requires Reachable(s)
    ensures Inv(s)
  {
    var before, lease, request, actions :|
      Opens(before, lease, s.call) && Leads(Opened(before, lease, s.call, request), actions, s);
    OpenedInv(before, lease, s.call, request);
    LeadsKeep(Opened(before, lease, s.call, request), actions, s);
  }

  // ----- what the consumer sees -----

  predicate IsTerminal(item: Item) { IsResponse(item) || item.Problem? }

  /** Started comes first and once, a terminal item is followed only by the end, and the end comes
      directly after a terminal item and before nothing. */
  ghost predicate WellOrdered(items: seq<Item>) {
    && (forall k | 0 <= k < |items| && items[k] == Note(Started) :: k == 0)
    && (|items| > 0 ==> items[0] == Note(Started) || items[0].Problem?)
    && (forall j, k | 0 <= j < k < |items| && IsTerminal(items[j]) :: items[k].Sentinel?)
    && (forall k | 0 <= k < |items| && items[k].Sentinel? :: k == |items| - 1 && k > 0 && IsTerminal(items[k - 1]))
  }

  lemma {:induction false} PlacedIsOrdered(items: seq<Item>)
    requires !PlaceOf(items).Misplaced?
    ensures WellOrdered(items)
    ensures PlaceOf(items).AtStart? <==> items == []
    ensures PlaceOf(items).AtStart? || PlaceOf(items).InMiddle? ==>
              forall k | 0 <= k < |items| :: !IsTerminal(items[k]) && !items[k].Sentinel?
    ensures PlaceOf(items).AfterResponse? || PlaceOf(items).AfterProblem? ==>
              IsTerminal(items[|items| - 1]) && forall k | 0 <= k < |items| :: !items[k].Sentinel?
  {
    if |items| > 0 { PlacedIsOrdered(items[..|items| - 1]); }
  }

  lemma TakenIsPlaced(c: Channel)
    requires Framed(c)
    ensures !PlaceOf(c.taken).Misplaced?
  {
    DropWaiting(c);
    assert c.taken == (c.taken + c.queue)[..|c.taken|];
    PrefixPlaced(c.taken + c.queue, |c.taken|);
  }

  /** A row of the store holds the response, as that of a succeeded run for the stream's own request, and
      the run's invoker was started. */
  ghost predicate Stored(s: State, response: Response)
    requires s.call in s.world.calls
  {
    exists r | r in s.world.store.rows ::
      && RuntimeLaws.Holds(s.world.store.rows[r], s.call, s.world.calls[s.call].request, response)
      && r in s.world.executed
  }

  /** In every schedule the consumer has taken a well-ordered beginning of started, progress, and one
      terminal, which an end directly follows; a completion it saw is stored; and the queue never holds
      more than 64. */
  lemma ConsumerSeesOrder(s: State)
    requires Reachable(s)
    ensures WellOrdered(s.channel.taken) && |s.channel.queue| <= 64
    ensures s.call in s.world.calls
    ensures forall item | item in s.channel.taken && IsResponse(item) :: Stored(s, item.event.response)
  {
    AlwaysInv(s);
    TakenIsPlaced(s.channel);
    PlacedIsOrdered(s.channel.taken);
    forall item | item in s.channel.taken && IsResponse(item) ensures Stored(s, item.event.response) {
      assert item in All(s.channel);
      RuntimeLaws.AnswersAreDurable(s.world, s.call);
    }
  }
}
