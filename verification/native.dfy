/** The native agent's bounded model and tool loop, once returning its output and once streaming it. */
module NativeLoop {
  import opened Wrappers

  import opened Messages
  import opened Streams

  datatype ModelResult = ModelResult(message: Message, toolCalls: seq<ToolCall>, usage: Option<Usage>)

  datatype ModelEvent = TextDelta(delta: string) | ModelCompleted(result: ModelResult)

  /** What a model client may raise. */
  datatype Problem = KitError(code: string) | InvalidShape | OtherError

  datatype ToolResult = ToolResult(callId: string, name: string, output: string)

  datatype Failure =
    | Reported(code: string)
    | InvalidResult
    | GenerationFailed
    | StreamBroken
    | ToolFailed(code: string)
    | ToolLimit

  datatype Output = Output(messages: seq<Message>, toolResults: seq<ToolResult>, usage: Option<Usage>)

  datatype Outcome = Completed(output: Output) | Failed(failure: Failure)

  datatype AgentEvent =
    | AgentText(delta: string)
    | AgentTool(result: ToolResult)
    | AgentCompleted(output: Output)

  /** Everything the loop asks of others: the model's `n`th call on some messages, the `n`th tool run,
      the `n`th fresh message id, and the canonical encoding of a tool message. */
  datatype World = World(
    model: (nat, seq<Message>) -> Source<ModelEvent, Problem>,
    tool: (nat, ToolCall) -> Result<string, string>,
    ids: nat -> nat,
    encode: (nat, seq<Part>) -> Encoding)

  // ----- one model call -----

  predicate IsCompletion(e: ModelEvent) { e.ModelCompleted? }

  function Classified(problem: Problem): Failure {
    match problem
    case KitError(code) => Reported(code)
    case InvalidShape => InvalidResult
    case OtherError => GenerationFailed
  }

  /** The result a model call ends with: a client that does not stream answers with it directly. */
  function Answer(source: Source<ModelEvent, Problem>): Result<ModelResult, Failure> {
    match Gated(source, IsCompletion).outcome
    case Ok(event) => if event.ModelCompleted? then Ok(event.result) else Err(StreamBroken)
    case Err(Interrupted(problem)) => Err(Classified(problem))
    case Err(_) => Err(StreamBroken)
  }

  function CallsIn(content: seq<Part>): seq<ToolCall> {
    if |content| == 0 then []
    else
      CallsIn(content[..|content| - 1])
        + (match content[|content| - 1] case ToolCallPart(call) => [call] case _ => [])
  }

  /** An assistant message whose tool calls are exactly the result's, under distinct ids. */
  predicate Canonical(r: ModelResult) {
    && r.message.role.Assistant?
    && r.message.content != []
    && (forall k | 0 <= k < |r.message.content| :: !r.message.content[k].ToolResultPart?)
    && CallsIn(r.message.content) == r.toolCalls
    && forall i, j | 0 <= i < j < |r.toolCalls| :: r.toolCalls[i].id != r.toolCalls[j].id
  }

  function Combined(total: Option<Usage>, usage: Option<Usage>): Option<Usage> {
    if total.None? || usage.None? then None
    else Some(Usage(total.value.inputTokens + usage.value.inputTokens,
                    total.value.outputTokens + usage.value.outputTokens))
  }

  // ----- what the loop means -----

  /** One model result, and the answers its tool calls got. */
  datatype Turn = Turn(result: ModelResult, answers: seq<ToolResult>)

  datatype Ending = Finished | LimitReached | Broke(failure: Failure)

  datatype Trail = Trail(turns: seq<Turn>, ending: Ending)

  function ToolMessage(w: World, n: nat, answer: ToolResult): Message {
    var content := [ToolResultPart(answer.callId, answer.output)];
    Message(w.ids(n), Role.Tool, content, w.encode(w.ids(n), content))
  }

  function ToolMessages(w: World, n: nat, answers: seq<ToolResult>): seq<Message> {
    seq(|answers|, k requires 0 <= k < |answers| => ToolMessage(w, n + k, answers[k]))
  }

  function Answers(turns: seq<Turn>): seq<ToolResult> {
    if |turns| == 0 then [] else Answers(turns[..|turns| - 1]) + turns[|turns| - 1].answers
  }

  /** The messages of the turns: each result's, then one tool message per answer. */
  function Generated(w: World, turns: seq<Turn>): seq<Message> {
    if |turns| == 0 then []
    else
      var init, last := turns[..|turns| - 1], turns[|turns| - 1];
      Generated(w, init) + [last.result.message] + ToolMessages(w, |Answers(init)|, last.answers)
  }

  function UsageOf(turns: seq<Turn>): Option<Usage> {
    if |turns| == 0 then Some(Usage(0, 0))
    else Combined(UsageOf(turns[..|turns| - 1]), turns[|turns| - 1].result.usage)
  }

  datatype Ran = Ran(answers: seq<ToolResult>, failure: Option<Failure>)

  /** Tools run in order, until one fails. */
  function RunTools(w: World, n: nat, calls: seq<ToolCall>): Ran {
    if |calls| == 0 then Ran([], None)
    else
      var before, call := RunTools(w, n, calls[..|calls| - 1]), calls[|calls| - 1];
      if before.failure.Some? then before
      else match w.tool(n + |calls| - 1, call)
        case Ok(output) => Ran(before.answers + [ToolResult(call.id, call.name, output)], None)
        case Err(code) => Ran(before.answers, Some(ToolFailed(code)))
  }

  /** What one round comes to: the end of the invocation, or one more complete turn. */
  datatype Move = Stop(last: seq<Turn>, ending: Ending) | Go(turn: Turn)

  /** A round's outcome: the model's answer, and what its tools make of it, the first being the `n`th. */
  function MoveOf(w: World, answer: Result<ModelResult, Failure>, n: nat, isLast: bool): Move {
    match answer
    case Err(failure) => Stop([], Broke(failure))
    case Ok(result) =>
      if !Canonical(result) then Stop([], Broke(InvalidResult))
      else if result.toolCalls == [] then Stop([Turn(result, [])], Finished)
      else if isLast then Stop([Turn(result, [])], LimitReached)
      else
        var ran := RunTools(w, n, result.toolCalls);
        if ran.failure.Some? then Stop([Turn(result, ran.answers)], Broke(ran.failure.value))
        else Go(Turn(result, ran.answers))
  }

  function SourceAfter(w: World, request: seq<Message>, turns: seq<Turn>): Source<ModelEvent, Problem> {
    w.model(|turns|, request + Generated(w, turns))
  }

  function MoveAfter(w: World, request: seq<Message>, limit: nat, turns: seq<Turn>): Move {
    MoveOf(w, Answer(SourceAfter(w, request, turns)), |Answers(turns)|, |turns| == limit)
  }

  /** The rest of an invocation after `turns`. */
  function Play(w: World, request: seq<Message>, limit: nat, turns: seq<Turn>): Trail
    requires |turns| <= limit
    decreases limit - |turns|
  {
    match MoveAfter(w, request, limit, turns)
    case Stop(last, ending) => Trail(turns + last, ending)
    case Go(turn) => if |turns| < limit then Play(w, request, limit, turns + [turn]) else Trail(turns, LimitReached)
  }

  function OutputOf(w: World, turns: seq<Turn>): Output {
    Output(Generated(w, turns), Answers(turns), UsageOf(turns))
  }

  /** What an ending raises, if anything. */
  function FailureOf(ending: Ending): Option<Failure> {
    match ending
    case Finished => None
    case LimitReached => Some(ToolLimit)
    case Broke(failure) => Some(failure)
  }

  function OutcomeOf(w: World, trail: Trail): Outcome {
    match FailureOf(trail.ending)
    case None => Completed(OutputOf(w, trail.turns))
    case Some(failure) => Failed(failure)
  }

  // ----- the events of the streaming form -----

  function TextEvents(events: seq<ModelEvent>): seq<AgentEvent> {
    if |events| == 0 then []
    else
      TextEvents(events[..|events| - 1])
        + (match events[|events| - 1] case TextDelta(delta) => [AgentText(delta)] case _ => [])
  }

  function ToolEvents(answers: seq<ToolResult>): seq<AgentEvent> {
    seq(|answers|, k requires 0 <= k < |answers| => AgentTool(answers[k]))
  }

  function MoveEvents(w: World, turns: seq<Turn>, move: Move): seq<AgentEvent> {
    match move
    case Stop(last, Finished) => [AgentCompleted(OutputOf(w, turns + last))]
    case Stop(last, _) => ToolEvents(Answers(last))
    case Go(turn) => ToolEvents(turn.answers)
  }

  /** The events still to come after `turns`: each call's text, its tools' results, and the output. */
  function Events(w: World, request: seq<Message>, limit: nat, turns: seq<Turn>): seq<AgentEvent>
    requires |turns| <= limit
    decreases limit - |turns|
  {
    var move := MoveAfter(w, request, limit, turns);
    TextEvents(Gated(SourceAfter(w, request, turns), IsCompletion).passed) + MoveEvents(w, turns, move)
      + (if move.Go? && |turns| < limit then Events(w, request, limit, turns + [move.turn]) else [])
  }

  // ----- the loops -----

  lemma TurnsSnoc(w: World, turns: seq<Turn>, turn: Turn)
    ensures Answers(turns + [turn]) == Answers(turns) + turn.answers
    ensures UsageOf(turns + [turn]) == Combined(UsageOf(turns), turn.result.usage)
    ensures Generated(w, turns + [turn])
         == Generated(w, turns) + [turn.result.message] + ToolMessages(w, |Answers(turns)|, turn.answers)
  {
    assert (turns + [turn])[..|turns|] == turns;
  }

  lemma ToolMessagesSnoc(w: World, n: nat, answers: seq<ToolResult>, answer: ToolResult)
    ensures ToolMessages(w, n, answers + [answer])
         == ToolMessages(w, n, answers) + [ToolMessage(w, n + |answers|, answer)]
  {
  }

  lemma {:induction false} FailedToolsStay(w: World, n: nat, calls: seq<ToolCall>, k: nat)
    requires k <= |calls| && RunTools(w, n, calls[..k]).failure.Some?
    ensures RunTools(w, n, calls) == RunTools(w, n, calls[..k])
  {
    if k == |calls| {
      assert calls[..k] == calls;
    } else {
      assert calls[..|calls| - 1][..k] == calls[..k];
      FailedToolsStay(w, n, calls[..|calls| - 1], k);
    }
  }

  /** Run a result's tools, recording and announcing each answer. */
  method Dispatch(w: World, calls: seq<ToolCall>, n: nat) returns (ran: Ran, messages: seq<Message>)
    ensures ran == RunTools(w, n, calls)
    ensures messages == ToolMessages(w, n, ran.answers)
  {
    ran, messages := Ran([], None), [];
    for k := 0 to |calls|
      invariant ran == RunTools(w, n, calls[..k]) && ran.failure.None? && |ran.answers| == k
      invariant messages == ToolMessages(w, n, ran.answers)
    {
      assert calls[..k + 1][..k] == calls[..k];
      var output := w.tool(n + k, calls[k]);
      if output.Err? {
        ran := Ran(ran.answers, Some(ToolFailed(output.error)));
        FailedToolsStay(w, n, calls, k + 1);
        return;
      }
      var answer := ToolResult(calls[k].id, calls[k].name, output.value);
      ToolMessagesSnoc(w, n, ran.answers, answer);
      ran := Ran(ran.answers + [answer], None);
      messages := messages + [ToolMessage(w, n + k, answer)];
    }
    assert calls[..|calls|] == calls;
  }

  /** One round after the model has answered: record the message and run the tools it asks for. */
  method Round(w: World, answer: Result<ModelResult, Failure>, n: nat, isLast: bool)
    returns (move: Move, messages: seq<Message>)
    ensures move == MoveOf(w, answer, n, isLast)
    ensures move.Go? ==> messages == [move.turn.result.message] + ToolMessages(w, n, move.turn.answers)
    ensures move.Stop? && move.ending.Finished? ==> messages == [move.last[0].result.message]
  {
    messages := [];
    if answer.Err? { return Stop([], Broke(answer.error)), []; }
    var result := answer.value;
    if !Canonical(result) { return Stop([], Broke(InvalidResult)), []; }
    messages := [result.message];
    if result.toolCalls == [] { return Stop([Turn(result, [])], Finished), messages; }
    if isLast { return Stop([Turn(result, [])], LimitReached), messages; }
    var ran, answered := Dispatch(w, result.toolCalls, n);
    if ran.failure.Some? { return Stop([Turn(result, ran.answers)], Broke(ran.failure.value)), messages; }
    move, messages := Go(Turn(result, ran.answers)), messages + answered;
  }

  lemma MoveShape(w: World, answer: Result<ModelResult, Failure>, n: nat, isLast: bool)
    ensures var move := MoveOf(w, answer, n, isLast);
            && (move.Stop? && move.ending.Finished? ==>
                  |move.last| == 1 && move.last == [move.last[0]] && move.last[0].answers == [])
            && (move.Stop? ==> Answers(move.last) == if move.last == [] then [] else move.last[0].answers)
            && (move.Go? ==> !isLast)
  {
    var move := MoveOf(w, answer, n, isLast);
    assert move.Stop? && move.last != [] ==> move.last == [move.last[0]];
    hide MoveOf;
    if move.Stop? && move.last != [] { OneAnswers(w, move.last[0]); }
  }

  lemma OneAnswers(w: World, turn: Turn)
    ensures Answers([turn]) == turn.answers
  {
    TurnsSnoc(w, [], turn);
    assert [] + [turn] == [turn];
  }

  lemma OutputGrows(w: World, turns: seq<Turn>, last: seq<Turn>, generated: seq<Message>,
                    answers: seq<ToolResult>, usage: Option<Usage>)
    requires generated == Generated(w, turns) && answers == Answers(turns) && usage == UsageOf(turns)
    requires |last| == 1 && last == [last[0]] && last[0].answers == []
    ensures OutputOf(w, turns + last)
         == Output(generated + [last[0].result.message], answers, Combined(usage, last[0].result.usage))
  {
    TurnsSnoc(w, turns, last[0]);
    assert ToolMessages(w, |answers|, []) == [];
    assert generated + [last[0].result.message] + [] == generated + [last[0].result.message];
    assert answers + [] == answers;
  }

  lemma TurnGrows(w: World, request: seq<Message>, turns: seq<Turn>, turn: Turn, generated: seq<Message>,
                  messages: seq<Message>)
    requires generated == Generated(w, turns)
    requires messages == [turn.result.message] + ToolMessages(w, |Answers(turns)|, turn.answers)
    ensures generated + messages == Generated(w, turns + [turn])
    ensures request + generated + messages == request + (generated + messages)
    ensures Answers(turns + [turn]) == Answers(turns) + turn.answers
    ensures UsageOf(turns + [turn]) == Combined(UsageOf(turns), turn.result.usage)
  {
    TurnsSnoc(w, turns, turn);
    var tools := ToolMessages(w, |Answers(turns)|, turn.answers);
    assert generated + ([turn.result.message] + tools) == generated + [turn.result.message] + tools;
  }

  lemma EventsStep(w: World, request: seq<Message>, limit: nat, turns: seq<Turn>)
    requires |turns| <= limit
    ensures var move := MoveAfter(w, request, limit, turns);
            var text := TextEvents(Gated(SourceAfter(w, request, turns), IsCompletion).passed);
            if move.Go? && |turns| < limit
            then Events(w, request, limit, turns)
                 == text + ToolEvents(move.turn.answers) + Events(w, request, limit, turns + [move.turn])
            else Events(w, request, limit, turns) == text + MoveEvents(w, turns, move)
  {
  }

  lemma Regroup(events: seq<AgentEvent>, text: seq<AgentEvent>, tools: seq<AgentEvent>, rest: seq<AgentEvent>)
    ensures events + (text + tools + rest) == (events + text + tools) + rest
    ensures events + (text + tools) == events + text + tools
  {
  }

  /** Generate messages and run requested tools within a fixed bound. */
  method Invoke(w: World, request: seq<Message>, limit: nat) returns (outcome: Outcome)
    ensures outcome == OutcomeOf(w, Play(w, request, limit, []))
  {
    var working, generated: seq<Message> := request, [];
    var toolResults: seq<ToolResult> := [];
    var usage := Some(Usage(0, 0));
    ghost var turns: seq<Turn> := [];
    assert generated == Generated(w, turns) && toolResults == Answers(turns) && usage == UsageOf(turns);
    hide Generated, Answers, UsageOf, OutputOf, MoveOf, ToolMessages;
    for iteration := 0 to limit + 1
      invariant |turns| == iteration <= limit
      invariant Play(w, request, limit, []) == Play(w, request, limit, turns)
      invariant generated == Generated(w, turns) && working == request + generated
      invariant toolResults == Answers(turns) && usage == UsageOf(turns)
    {
      var answer := Answer(w.model(iteration, working));
      MoveShape(w, answer, |toolResults|, iteration == limit);
      var move, messages := Round(w, answer, |toolResults|, iteration == limit);
      match move
      case Stop(last, ending) =>
        if FailureOf(ending).Some? { return Failed(FailureOf(ending).value); }
        OutputGrows(w, turns, last, generated, toolResults, usage);
        return Completed(Output(generated + messages, toolResults, Combined(usage, last[0].result.usage)));
      case Go(turn) =>
        TurnGrows(w, request, turns, turn, generated, messages);
        generated, working := generated + messages, working + messages;
        usage := Combined(usage, turn.result.usage);
        toolResults := toolResults + turn.answers;
        turns := turns + [turn];
    }
    outcome := Failed(ToolLimit);
  }

  /** The same loop as a stream: the events it yields, and the failure it raises after them, if any. */
  method Stream(w: World, request: seq<Message>, limit: nat)
    returns (events: seq<AgentEvent>, failure: Option<Failure>)
    ensures events == Events(w, request, limit, [])
    ensures failure == FailureOf(Play(w, request, limit, []).ending)
  {
    var working, generated: seq<Message> := request, [];
    var toolResults: seq<ToolResult> := [];
    var usage := Some(Usage(0, 0));
    events := [];
    ghost var turns: seq<Turn> := [];
    assert generated == Generated(w, turns) && toolResults == Answers(turns) && usage == UsageOf(turns);
    hide Generated, Answers, UsageOf, OutputOf, MoveOf, ToolMessages, ToolEvents, TextEvents, Events, Gated, Combined;
    for iteration := 0 to limit + 1
      invariant |turns| == iteration <= limit
      invariant Play(w, request, limit, []) == Play(w, request, limit, turns)
      invariant Events(w, request, limit, []) == events + Events(w, request, limit, turns)
      invariant generated == Generated(w, turns) && working == request + generated
      invariant toolResults == Answers(turns) && usage == UsageOf(turns)
    {
      var source := w.model(iteration, working);
      var checked := CheckedStream(source, IsCompletion);
      var text := Texts(checked.passed);
      EventsStep(w, request, limit, turns);
      MoveShape(w, Answer(source), |toolResults|, iteration == limit);
      var move, messages := Round(w, Answer(source), |toolResults|, iteration == limit);
      match move
      case Stop(last, Finished) =>
        OutputGrows(w, turns, last, generated, toolResults, usage);
        var output := Output(generated + messages, toolResults, Combined(usage, last[0].result.usage));
        Regroup(events, text, [AgentCompleted(output)], []);
        return events + text + [AgentCompleted(output)], None;
      case Stop(last, ending) =>
        var answers := if last == [] then [] else last[0].answers;
        Regroup(events, text, ToolEvents(answers), []);
        return events + text + ToolEvents(answers), FailureOf(ending);
      case Go(turn) =>
        TurnGrows(w, request, turns, turn, generated, messages);
        Regroup(events, text, ToolEvents(turn.answers), Events(w, request, limit, turns + [turn]));
        events := events + text + ToolEvents(turn.answers);
        generated, working := generated + messages, working + messages;
        usage := Combined(usage, turn.result.usage);
        toolResults := toolResults + turn.answers;
        turns := turns + [turn];
    }
    failure := Some(ToolLimit);
  }

  /** Pass a model's text on as the agent's. */
  method Texts(passed: seq<ModelEvent>) returns (text: seq<AgentEvent>)
    ensures text == TextEvents(passed)
  {
    text := [];
    for k := 0 to |passed|
      invariant text == TextEvents(passed[..k])
    {
      assert passed[..k + 1][..k] == passed[..k];
      match passed[k]
      case TextDelta(delta) => text := text + [AgentText(delta)];
      case ModelCompleted(_) =>
    }
    assert passed[..|passed|] == passed;
  }
}
