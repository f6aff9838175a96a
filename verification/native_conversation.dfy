/** What an invocation of the native agent is, told round by round: what every model call was given and
    answered, what every tool was given and answered, where each answer went, and why the last round was
    the last. */
module NativeConversation {
  import opened Wrappers

  import opened Messages
  import opened Streams
  import opened NativeLoop
  import NativeLaws

  /** One complete round: the text a model call streamed, its result, and the outputs of its tool calls. */
  datatype Round = Round(said: seq<string>, result: ModelResult, outputs: seq<string>)

  /** Why there is no further round. */
  datatype Finale =
    | Replied(said: seq<string>, result: ModelResult)
    | Malformed(said: seq<string>, result: ModelResult)
    | OutOfRounds(said: seq<string>, result: ModelResult)
    | ToolBroke(said: seq<string>, result: ModelResult, outputs: seq<string>, code: string)
    | ModelBroke(said: seq<string>, problem: Problem)
    | BadStream(said: seq<string>)

  /** An invocation: its complete rounds, the messages and tool results they left, and its last round. */
  datatype Conversation = Conversation(rounds: seq<Round>, messages: seq<Message>, results: seq<ToolResult>,
                                       finale: Finale)

  // ----- complete rounds -----

  /** How many tool calls the first `n` rounds made. */
  function CallsBefore(rounds: seq<Round>, n: nat): nat
    requires n <= |rounds|
  {
    if n == 0 then 0 else CallsBefore(rounds, n - 1) + |rounds[n - 1].outputs|
  }

  function Texts(said: seq<string>): seq<ModelEvent> {
    seq(|said|, k requires 0 <= k < |said| => TextDelta(said[k]))
  }

  /** The model streamed this text and then this one result, and ended normally. */
  predicate Streamed(source: Source<ModelEvent, Problem>, said: seq<string>, result: ModelResult) {
    source.events == Texts(said) + [ModelCompleted(result)] && source.failure == None
  }

  /** An assistant message with some content and no tool results, whose tool calls are the result's, in
      order and under distinct ids. */
  predicate IsUsable(r: ModelResult) {
    && r.message.role == Role.Assistant && |r.message.content| > 0
    && (forall part | part in r.message.content :: !part.ToolResultPart?)
    && CallsIn(r.message.content) == r.toolCalls
    && forall i, j | 0 <= i < j < |r.toolCalls| :: r.toolCalls[i].id != r.toolCalls[j].id
  }

  function ToolAnswer(w: World, n: nat, call: ToolCall, output: string): Message {
    Message(w.ids(n), Role.Tool, [ToolResultPart(call.id, output)],
            w.encode(w.ids(n), [ToolResultPart(call.id, output)]))
  }

  /** The `n`th tool run answered this call with this output. */
  predicate Ran(w: World, n: nat, call: ToolCall, output: string) { w.tool(n, call) == Ok(output) }

  /** The round whose model call is the `k`th, whose message is at `at`, and whose first tool run is the
      `n`th: the model was given the request and every message before, each call's output is its tool
      result's and its tool message's, and the messages come in the order of the calls. */
  predicate InPlace(w: World, request: seq<Message>, round: Round, k: nat, at: nat, n: nat,
                    messages: seq<Message>, results: seq<ToolResult>)
  {
    var calls, count := round.result.toolCalls, |round.outputs|;
    && at + 1 + count <= |messages| && n + count <= |results|
    && Streamed(w.model(k, request + messages[..at]), round.said, round.result)
    && IsUsable(round.result) && calls != [] && |calls| == count
    && messages[at] == round.result.message
    && (forall i | 0 <= i < count :: Ran(w, n + i, calls[i], round.outputs[i]))
    && (forall i | 0 <= i < count :: results[n + i] == ToolResult(calls[i].id, calls[i].name, round.outputs[i]))
    && (forall i | 0 <= i < count :: messages[at + 1 + i] == ToolAnswer(w, n + i, calls[i], round.outputs[i]))
  }

  predicate Conversed(w: World, request: seq<Message>, rounds: seq<Round>, messages: seq<Message>,
                      results: seq<ToolResult>)
  {
    && |results| == CallsBefore(rounds, |rounds|) && |messages| == |rounds| + |results|
    && forall k | 0 <= k < |rounds| ::
         InPlace(w, request, rounds[k], k, k + CallsBefore(rounds, k), CallsBefore(rounds, k), messages, results)
  }

  // ----- the last round -----

  /** The first calls were answered with these outputs, and the next one failed with this code. */
  predicate BreaksAt(w: World, n: nat, calls: seq<ToolCall>, outputs: seq<string>, code: string) {
    && |outputs| < |calls|
    && (forall i | 0 <= i < |outputs| :: Ran(w, n + i, calls[i], outputs[i]))
    && w.tool(n + |outputs|, calls[|outputs|]) == Err(code)
  }

  ghost predicate IsLast(w: World, limit: nat, c: Conversation, source: Source<ModelEvent, Problem>) {
    match c.finale
    case Replied(said, result) => Streamed(source, said, result) && IsUsable(result) && result.toolCalls == []
    case Malformed(said, result) => Streamed(source, said, result) && !IsUsable(result)
    case OutOfRounds(said, result) =>
      Streamed(source, said, result) && IsUsable(result) && result.toolCalls != [] && |c.rounds| == limit
    case ToolBroke(said, result, outputs, code) =>
      && Streamed(source, said, result) && IsUsable(result) && |c.rounds| < limit
      && BreaksAt(w, |c.results|, result.toolCalls, outputs, code)
    case ModelBroke(said, problem) =>
      && source.failure == Some(problem)
      && (source.events == Texts(said) || exists r :: source.events == Texts(said) + [ModelCompleted(r)])
    case BadStream(said) =>
      || (source.failure == None && source.events == Texts(said))
      || (|said| + 1 < |source.events| && source.events[..|said|] == Texts(said)
          && source.events[|said|].ModelCompleted?)
  }

  function ResultsOf(rounds: seq<Round>): seq<ModelResult> {
    seq(|rounds|, k requires 0 <= k < |rounds| => rounds[k].result)
  }

  function InputTokens(results: seq<ModelResult>): nat {
    if |results| == 0 then 0
    else
      var usage := results[|results| - 1].usage;
      InputTokens(results[..|results| - 1]) + (if usage.Some? then usage.value.inputTokens else 0)
  }

  function OutputTokens(results: seq<ModelResult>): nat {
    if |results| == 0 then 0
    else
      var usage := results[|results| - 1].usage;
      OutputTokens(results[..|results| - 1]) + (if usage.Some? then usage.value.outputTokens else 0)
  }

  /** The usage of all model calls, known only if each one's is. */
  function Spent(results: seq<ModelResult>): Option<Usage> {
    if exists k | 0 <= k < |results| :: results[k].usage == None then None
    else Some(Usage(InputTokens(results), OutputTokens(results)))
  }

  function OutcomeIs(c: Conversation): Outcome {
    match c.finale
    case Replied(_, result) =>
      Completed(Output(c.messages + [result.message], c.results, Spent(ResultsOf(c.rounds) + [result])))
    case Malformed(_, _) => Failed(InvalidResult)
    case OutOfRounds(_, _) => Failed(ToolLimit)
    case ToolBroke(_, _, _, code) => Failed(ToolFailed(code))
    case ModelBroke(_, KitError(code)) => Failed(Reported(code))
    case ModelBroke(_, InvalidShape) => Failed(InvalidResult)
    case ModelBroke(_, OtherError) => Failed(GenerationFailed)
    case BadStream(_) => Failed(StreamBroken)
  }

  // ----- the events -----

  function Said(said: seq<string>): seq<AgentEvent> {
    seq(|said|, k requires 0 <= k < |said| => AgentText(said[k]))
  }

  function Announced(calls: seq<ToolCall>, outputs: seq<string>): seq<AgentEvent>
    requires |outputs| <= |calls|
  {
    seq(|outputs|, k requires 0 <= k < |outputs| => AgentTool(ToolResult(calls[k].id, calls[k].name, outputs[k])))
  }

  /** Round by round, the text of the model call and then the results of its tool calls. */
  function Told(rounds: seq<Round>): seq<AgentEvent>
    requires forall k | 0 <= k < |rounds| :: |rounds[k].outputs| <= |rounds[k].result.toolCalls|
  {
    if |rounds| == 0 then []
    else
      var last := rounds[|rounds| - 1];
      Told(rounds[..|rounds| - 1]) + Said(last.said) + Announced(last.result.toolCalls, last.outputs)
  }

  predicate IsTellable(c: Conversation) {
    && (forall k | 0 <= k < |c.rounds| :: |c.rounds[k].outputs| <= |c.rounds[k].result.toolCalls|)
    && (c.finale.ToolBroke? ==> |c.finale.outputs| <= |c.finale.result.toolCalls|)
  }

  function EventsOf(c: Conversation): seq<AgentEvent>
    requires IsTellable(c)
  {
    Told(c.rounds) + Said(c.finale.said)
      + (match c.finale
         case Replied(_, _) => [AgentCompleted(OutcomeIs(c).output)]
         case ToolBroke(_, result, outputs, _) => Announced(result.toolCalls, outputs)
         case _ => [])
  }

  /** The conversation took place as told, with the world and the limit given. */
  ghost predicate TookPlace(w: World, request: seq<Message>, limit: nat, c: Conversation) {
    && |c.rounds| <= limit && Conversed(w, request, c.rounds, c.messages, c.results)
    && IsLast(w, limit, c, w.model(|c.rounds|, request + c.messages))
    && IsTellable(c)
  }

  // ----- a model call -----

  function Deltas(events: seq<ModelEvent>): seq<string>
    requires forall k | 0 <= k < |events| :: events[k].TextDelta?
  {
    seq(|events|, k requires 0 <= k < |events| => events[k].delta)
  }

  lemma {:induction false} TextIsSaid(said: seq<string>)
    ensures TextEvents(Texts(said)) == Said(said)
  {
    if |said| > 0 {
      TextIsSaid(said[..|said| - 1]);
      assert Texts(said)[..|said| - 1] == Texts(said[..|said| - 1]);
    }
  }

  /** What a model call that did not break said, and with which result it ended. */
  lemma CallAnswers(source: Source<ModelEvent, Problem>) returns (said: seq<string>)
    ensures Gated(source, IsCompletion).passed == Texts(said)
    ensures Answer(source).Ok? ==> Streamed(source, said, Answer(source).value)
  {
    GateIsExact(source, IsCompletion);
    var passed := Gated(source, IsCompletion).passed;
    assert forall k | 0 <= k < |passed| :: !IsCompletion(passed[k]);
    said := Deltas(passed);
    assert Texts(said) == passed;
  }

  /** What a broken model call is told as. */
  ghost predicate CallBreaks(source: Source<ModelEvent, Problem>, said: seq<string>, failure: Failure, finale: Finale) {
    match finale
    case ModelBroke(text, problem) =>
      && text == said && source.failure == Some(problem)
      && (source.events == Texts(said) || exists r :: source.events == Texts(said) + [ModelCompleted(r)])
      && failure == (match problem
                     case KitError(code) => Reported(code)
                     case InvalidShape => InvalidResult
                     case OtherError => GenerationFailed)
    case BadStream(text) =>
      && text == said && failure == StreamBroken
      && (|| (source.failure == None && source.events == Texts(said))
          || (|said| + 1 < |source.events| && source.events[..|said|] == Texts(said)
              && source.events[|said|].ModelCompleted?))
    case _ => false
  }

  lemma BrokenCall(source: Source<ModelEvent, Problem>, said: seq<string>) returns (finale: Finale)
    requires Gated(source, IsCompletion).passed == Texts(said) && Answer(source).Err?
    ensures CallBreaks(source, said, Answer(source).error, finale)
  {
    var k := FirstTerminal(source.events, IsCompletion);
    assert |Texts(said)| == |said| == k;
    if k + 1 < |source.events| || source.failure == None {
      finale := BadStream(said);
      if k + 1 >= |source.events| { assert source.events[..k] == source.events; }
    } else {
      finale := ModelBroke(said, source.failure.value);
      if k < |source.events| {
        assert source.events == source.events[..k] + [source.events[k]];
        assert source.events == Texts(said) + [ModelCompleted(source.events[k].result)];
      } else {
        assert source.events[..k] == source.events;
      }
    }
  }

  // ----- a round of tools -----

  function Outputs(answers: seq<ToolResult>): seq<string> {
    seq(|answers|, k requires 0 <= k < |answers| => answers[k].output)
  }

  /** The tools that answered did so in order with these outputs, and the next one, if one failed, failed. */
  predicate RanAs(w: World, n: nat, calls: seq<ToolCall>, ran: NativeLoop.Ran) {
    && |ran.answers| <= |calls|
    && (forall k | 0 <= k < |ran.answers| ::
          ran.answers[k] == ToolResult(calls[k].id, calls[k].name, ran.answers[k].output)
          && Ran(w, n + k, calls[k], ran.answers[k].output))
    && (if ran.failure == None then |ran.answers| == |calls|
        else |ran.answers| < |calls| && w.tool(n + |ran.answers|, calls[|ran.answers|]).Err?
             && ran.failure == Some(ToolFailed(w.tool(n + |ran.answers|, calls[|ran.answers|]).error)))
  }

  lemma {:induction false} ToolsRunAs(w: World, n: nat, calls: seq<ToolCall>)
    ensures RanAs(w, n, calls, RunTools(w, n, calls))
  {
    if |calls| > 0 {
      var init := calls[..|calls| - 1];
      ToolsRunAs(w, n, init);
      assert forall k | 0 <= k < |init| :: init[k] == calls[k];
    }
  }

  // ----- one more round -----

  lemma {:induction false} CallsBeforeSnoc(rounds: seq<Round>, round: Round, n: nat)
    requires n <= |rounds|
    ensures CallsBefore(rounds + [round], n) == CallsBefore(rounds, n)
  {
    if n > 0 { CallsBeforeSnoc(rounds, round, n - 1); }
  }

  lemma InPlaceStays(w: World, request: seq<Message>, round: Round, k: nat, at: nat, n: nat, messages: seq<Message>,
                     results: seq<ToolResult>, moreMessages: seq<Message>, moreResults: seq<ToolResult>)
    requires InPlace(w, request, round, k, at, n, messages, results)
    ensures InPlace(w, request, round, k, at, n, messages + moreMessages, results + moreResults)
  {
    hide IsUsable;
    assert (messages + moreMessages)[..at] == messages[..at];
  }

  /** What the next round adds. */
  lemma RoundInPlace(w: World, request: seq<Message>, messages: seq<Message>, results: seq<ToolResult>, k: nat,
                     said: seq<string>, turn: Turn)
    requires Streamed(w.model(k, request + messages), said, turn.result)
    requires IsUsable(turn.result) && turn.result.toolCalls != []
    requires RanAs(w, |results|, turn.result.toolCalls, NativeLoop.Ran(turn.answers, None))
    ensures InPlace(w, request, Round(said, turn.result, Outputs(turn.answers)), k, |messages|, |results|,
                    messages + ([turn.result.message] + ToolMessages(w, |results|, turn.answers)),
                    results + turn.answers)
  {
    hide IsUsable;
    var more := messages + ([turn.result.message] + ToolMessages(w, |results|, turn.answers));
    assert more[..|messages|] == messages;
    forall i | 0 <= i < |turn.answers|
      ensures more[|messages| + 1 + i] == ToolAnswer(w, |results| + i, turn.result.toolCalls[i], turn.answers[i].output)
    {
      assert more[|messages| + 1 + i] == ToolMessages(w, |results|, turn.answers)[i];
    }
  }

  lemma ConversedSnoc(w: World, request: seq<Message>, rounds: seq<Round>, messages: seq<Message>,
                      results: seq<ToolResult>, round: Round, moreMessages: seq<Message>, moreResults: seq<ToolResult>)
    requires Conversed(w, request, rounds, messages, results)
    requires InPlace(w, request, round, |rounds|, |messages|, |results|, messages + moreMessages, results + moreResults)
    requires |moreMessages| == 1 + |round.outputs| && |moreResults| == |round.outputs|
    ensures Conversed(w, request, rounds + [round], messages + moreMessages, results + moreResults)
  {
    hide InPlace, CallsBefore;
    var all := rounds + [round];
    AllCalls(rounds, round);
    forall k | 0 <= k < |all|
      ensures InPlace(w, request, all[k], k, k + CallsBefore(all, k), CallsBefore(all, k),
                      messages + moreMessages, results + moreResults)
    {
      if k < |rounds| {
        assert all[k] == rounds[k];
        RoundStays(w, request, rounds, k, messages, results, moreMessages, moreResults);
      } else {
        assert all[k] == round && k == |rounds|;
      }
    }
  }

  lemma AllCalls(rounds: seq<Round>, round: Round)
    ensures forall k | 0 <= k <= |rounds| :: CallsBefore(rounds + [round], k) == CallsBefore(rounds, k)
    ensures CallsBefore(rounds + [round], |rounds| + 1) == CallsBefore(rounds, |rounds|) + |round.outputs|
  {
    forall k | 0 <= k <= |rounds| ensures CallsBefore(rounds + [round], k) == CallsBefore(rounds, k) {
      CallsBeforeSnoc(rounds, round, k);
    }
  }

  lemma RoundStays(w: World, request: seq<Message>, rounds: seq<Round>, k: nat, messages: seq<Message>,
                   results: seq<ToolResult>, moreMessages: seq<Message>, moreResults: seq<ToolResult>)
    requires Conversed(w, request, rounds, messages, results) && k < |rounds|
    ensures InPlace(w, request, rounds[k], k, k + CallsBefore(rounds, k), CallsBefore(rounds, k),
                    messages + moreMessages, results + moreResults)
  {
    hide InPlace, CallsBefore;
    InPlaceStays(w, request, rounds[k], k, k + CallsBefore(rounds, k), CallsBefore(rounds, k), messages, results,
                 moreMessages, moreResults);
  }

  // ----- usage -----

  lemma SpentSnoc(results: seq<ModelResult>, result: ModelResult)
    ensures Spent(results + [result]) == Combined(Spent(results), result.usage)
  {
    var all := results + [result];
    assert all[..|results|] == results && all[|results|] == result;
    if k :| 0 <= k < |results| && results[k].usage == None { assert all[k].usage == None; }
    if k :| 0 <= k < |all| && all[k].usage == None { assert k < |results| ==> results[k].usage == None; }
  }

  lemma {:induction false} UsageIsSpent(turns: seq<Turn>, rounds: seq<Round>)
    requires |turns| == |rounds| && forall k | 0 <= k < |turns| :: turns[k].result == rounds[k].result
    ensures UsageOf(turns) == Spent(ResultsOf(rounds))
  {
    if |turns| > 0 {
      var n := |turns| - 1;
      UsageIsSpent(turns[..n], rounds[..n]);
      SpentSnoc(ResultsOf(rounds[..n]), rounds[n].result);
      assert ResultsOf(rounds) == ResultsOf(rounds[..n]) + [rounds[n].result];
    }
  }

  // ----- the whole invocation -----

  /** The rounds told so far are the turns played so far. */
  predicate Matches(w: World, request: seq<Message>, turns: seq<Turn>, rounds: seq<Round>) {
    && |rounds| == |turns|
    && (forall k | 0 <= k < |turns| :: turns[k].result == rounds[k].result)
    && (forall k | 0 <= k < |rounds| :: |rounds[k].outputs| <= |rounds[k].result.toolCalls|)
    && Conversed(w, request, rounds, Generated(w, turns), NativeLoop.Answers(turns))
  }

  lemma CanonicalIsUsable(r: ModelResult)
    ensures Canonical(r) == IsUsable(r)
  {
    assert forall part | part in r.message.content ::
             exists k | 0 <= k < |r.message.content| :: part == r.message.content[k];
  }

  lemma AnnouncedIs(calls: seq<ToolCall>, n: nat, w: World, ran: NativeLoop.Ran)
    requires RanAs(w, n, calls, ran)
    ensures ToolEvents(ran.answers) == Announced(calls, Outputs(ran.answers))
  {
  }

  /** What a complete turn is. */
  lemma GoMeans(w: World, request: seq<Message>, limit: nat, turns: seq<Turn>) returns (said: seq<string>)
    requires MoveAfter(w, request, limit, turns).Go?
    ensures var turn := MoveAfter(w, request, limit, turns).turn;
            && Streamed(w.model(|turns|, request + Generated(w, turns)), said, turn.result)
            && IsUsable(turn.result) && turn.result.toolCalls != [] && |turns| != limit
            && RanAs(w, |NativeLoop.Answers(turns)|, turn.result.toolCalls, NativeLoop.Ran(turn.answers, None))
    ensures TextEvents(Gated(SourceAfter(w, request, turns), IsCompletion).passed) == Said(said)
  {
    var source, turn := SourceAfter(w, request, turns), MoveAfter(w, request, limit, turns).turn;
    said := CallAnswers(source);
    TextIsSaid(said);
    CanonicalIsUsable(turn.result);
    ToolsRunAs(w, |NativeLoop.Answers(turns)|, turn.result.toolCalls);
    hide Generated, NativeLoop.Answers, RunTools, Gated, CallsIn, RanAs, Streamed, IsUsable, Canonical;
  }

  /** The round a complete turn is. */
  lemma GoRound(w: World, request: seq<Message>, turns: seq<Turn>, rounds: seq<Round>, said: seq<string>, turn: Turn)
    requires Matches(w, request, turns, rounds)
    requires Streamed(w.model(|turns|, request + Generated(w, turns)), said, turn.result)
    requires IsUsable(turn.result) && turn.result.toolCalls != []
    requires RanAs(w, |NativeLoop.Answers(turns)|, turn.result.toolCalls, NativeLoop.Ran(turn.answers, None))
    ensures Matches(w, request, turns + [turn], rounds + [Round(said, turn.result, Outputs(turn.answers))])
  {
    var results, messages := NativeLoop.Answers(turns), Generated(w, turns);
    hide Conversed, InPlace, IsUsable, Generated, NativeLoop.Answers, Streamed, ToolMessages;
    RoundInPlace(w, request, messages, results, |turns|, said, turn);
    TurnsSnoc(w, turns, turn);
    var more := [turn.result.message] + ToolMessages(w, |results|, turn.answers);
    assert messages + [turn.result.message] + ToolMessages(w, |results|, turn.answers) == messages + more;
    MessagesCount(w, |results|, turn.answers);
    ConversedSnoc(w, request, rounds, messages, results, Round(said, turn.result, Outputs(turn.answers)), more,
                  turn.answers);
  }

  lemma MessagesCount(w: World, n: nat, answers: seq<ToolResult>)
    ensures |ToolMessages(w, n, answers)| == |answers| && |Outputs(answers)| == |answers|
  {
  }

  function Closing(c: Conversation): seq<AgentEvent>
    requires IsTellable(c)
  {
    match c.finale
    case Replied(_, _) => [AgentCompleted(OutcomeIs(c).output)]
    case ToolBroke(_, result, outputs, _) => Announced(result.toolCalls, outputs)
    case _ => []
  }

  /** The last round is told as it went: why it was the last, what came of it, and its events. */
  ghost predicate Closes(w: World, request: seq<Message>, limit: nat, turns: seq<Turn>, c: Conversation) {
    var move, source := MoveAfter(w, request, limit, turns), SourceAfter(w, request, turns);
    && move.Stop? && IsTellable(c) && IsLast(w, limit, c, source)
    && OutcomeOf(w, Trail(turns + move.last, move.ending)) == OutcomeIs(c)
    && TextEvents(Gated(source, IsCompletion).passed) == Said(c.finale.said)
    && MoveEvents(w, turns, move) == Closing(c)
  }

  lemma ClosesBroken(w: World, request: seq<Message>, limit: nat, turns: seq<Turn>, c: Conversation)
    requires Answer(SourceAfter(w, request, turns)).Err?
    requires CallBreaks(SourceAfter(w, request, turns), c.finale.said, Answer(SourceAfter(w, request, turns)).error,
                        c.finale)
    requires TextEvents(Gated(SourceAfter(w, request, turns), IsCompletion).passed) == Said(c.finale.said)
    requires forall k | 0 <= k < |c.rounds| :: |c.rounds[k].outputs| <= |c.rounds[k].result.toolCalls|
    ensures Closes(w, request, limit, turns, c)
  {
    hide Answer, Gated, Texts, SourceAfter, OutputOf;
    assert NativeLoop.Answers([]) == [];
  }

  lemma ClosesReplied(w: World, request: seq<Message>, limit: nat, turns: seq<Turn>, c: Conversation)
    requires c.finale.Replied? && Answer(SourceAfter(w, request, turns)) == Ok(c.finale.result)
    requires Canonical(c.finale.result) && c.finale.result.toolCalls == []
    requires Streamed(SourceAfter(w, request, turns), c.finale.said, c.finale.result)
    requires TextEvents(Gated(SourceAfter(w, request, turns), IsCompletion).passed) == Said(c.finale.said)
    requires Matches(w, request, turns, c.rounds)
    requires c.messages == Generated(w, turns) && c.results == NativeLoop.Answers(turns)
    ensures Closes(w, request, limit, turns, c)
  {
    hide Answer, Gated, Streamed, SourceAfter, IsUsable, Canonical, Generated, NativeLoop.Answers;
    hide UsageOf, Spent, Conversed, OutputOf, ResultsOf;
    var result := c.finale.result;
    CanonicalIsUsable(result);
    RepliedOutput(w, turns, c);
    assert MoveAfter(w, request, limit, turns) == Stop([Turn(result, [])], Finished);
    hide MoveAfter;
  }

  lemma RepliedOutput(w: World, turns: seq<Turn>, c: Conversation)
    requires c.finale.Replied? && |turns| == |c.rounds|
    requires forall k | 0 <= k < |turns| :: turns[k].result == c.rounds[k].result
    requires c.messages == Generated(w, turns) && c.results == NativeLoop.Answers(turns)
    ensures Completed(OutputOf(w, turns + [Turn(c.finale.result, [])])) == OutcomeIs(c)
  {
    UsageIsSpent(turns, c.rounds);
    SpentSnoc(ResultsOf(c.rounds), c.finale.result);
    hide Spent, Generated, NativeLoop.Answers, UsageOf, ResultsOf, OutputOf;
    OutputGrows(w, turns, [Turn(c.finale.result, [])], c.messages, c.results, UsageOf(turns));
  }

  lemma ClosesUnanswered(w: World, request: seq<Message>, limit: nat, turns: seq<Turn>, c: Conversation)
    requires c.finale.Malformed? || c.finale.OutOfRounds?
    requires Answer(SourceAfter(w, request, turns)) == Ok(c.finale.result)
    requires || (c.finale.Malformed? && !Canonical(c.finale.result))
             || (c.finale.OutOfRounds? && Canonical(c.finale.result) && c.finale.result.toolCalls != []
                 && |turns| == limit == |c.rounds|)
    requires Streamed(SourceAfter(w, request, turns), c.finale.said, c.finale.result)
    requires TextEvents(Gated(SourceAfter(w, request, turns), IsCompletion).passed) == Said(c.finale.said)
    requires forall k | 0 <= k < |c.rounds| :: |c.rounds[k].outputs| <= |c.rounds[k].result.toolCalls|
    ensures Closes(w, request, limit, turns, c)
  {
    CanonicalIsUsable(c.finale.result);
    hide Answer, Gated, Streamed, SourceAfter, IsUsable, Canonical, OutputOf;
    assert NativeLoop.Answers([]) == [];
    OneAnswers(w, Turn(c.finale.result, []));
  }

  lemma ClosesToolBroke(w: World, request: seq<Message>, limit: nat, turns: seq<Turn>, c: Conversation,
                        ran: NativeLoop.Ran)
    requires c.finale.ToolBroke? && Answer(SourceAfter(w, request, turns)) == Ok(c.finale.result)
    requires Canonical(c.finale.result) && c.finale.result.toolCalls != [] && |turns| == |c.rounds| < limit
    requires ran == RunTools(w, |NativeLoop.Answers(turns)|, c.finale.result.toolCalls)
    requires ran.failure == Some(ToolFailed(c.finale.code)) && c.finale.outputs == Outputs(ran.answers)
    requires RanAs(w, |NativeLoop.Answers(turns)|, c.finale.result.toolCalls, ran)
    requires Streamed(SourceAfter(w, request, turns), c.finale.said, c.finale.result)
    requires TextEvents(Gated(SourceAfter(w, request, turns), IsCompletion).passed) == Said(c.finale.said)
    requires forall k | 0 <= k < |c.rounds| :: |c.rounds[k].outputs| <= |c.rounds[k].result.toolCalls|
    requires c.results == NativeLoop.Answers(turns)
    ensures Closes(w, request, limit, turns, c)
  {
    hide Answer, Gated, Streamed, SourceAfter, Canonical, OutputOf, RunTools, NativeLoop.Answers;
    hide IsUsable, Outputs, Said;
    CanonicalIsUsable(c.finale.result);
    AnnouncedIs(c.finale.result.toolCalls, |c.results|, w, ran);
    BrokeMove(w, Answer(SourceAfter(w, request, turns)), |c.results|, c.finale.result, ran);
    OneAnswers(w, Turn(c.finale.result, ran.answers));
    BrokeIsBreak(w, |c.results|, c.finale.result.toolCalls, ran);
    hide MoveOf, RanAs;
  }

  lemma BrokeMove(w: World, answer: Result<ModelResult, Failure>, n: nat, result: ModelResult, ran: NativeLoop.Ran)
    requires answer == Ok(result) && Canonical(result) && result.toolCalls != []
    requires ran == RunTools(w, n, result.toolCalls) && ran.failure.Some?
    ensures MoveOf(w, answer, n, false) == Stop([Turn(result, ran.answers)], Broke(ran.failure.value))
  {
  }

  lemma BrokeIsBreak(w: World, n: nat, calls: seq<ToolCall>, ran: NativeLoop.Ran)
    requires RanAs(w, n, calls, ran) && ran.failure.Some? && ran.failure.value.ToolFailed?
    ensures BreaksAt(w, n, calls, Outputs(ran.answers), ran.failure.value.code)
    ensures |Outputs(ran.answers)| <= |calls|
  {
  }

  lemma StopCloses(w: World, request: seq<Message>, limit: nat, turns: seq<Turn>, rounds: seq<Round>)
    returns (c: Conversation)
    requires |turns| <= limit && Matches(w, request, turns, rounds) && MoveAfter(w, request, limit, turns).Stop?
    ensures c.rounds == rounds && c.messages == Generated(w, turns) && c.results == NativeLoop.Answers(turns)
    ensures Closes(w, request, limit, turns, c)
  {
    var source := SourceAfter(w, request, turns);
    var messages, results, answer := Generated(w, turns), NativeLoop.Answers(turns), Answer(source);
    var said := CallAnswers(source);
    TextIsSaid(said);
    hide Closes, Gated, CallBreaks, Streamed, Generated, NativeLoop.Answers, Answer, SourceAfter, Canonical, RanAs;
    if answer.Err? {
      var finale := BrokenCall(source, said);
      c := Conversation(rounds, messages, results, finale);
      SaidOfBreak(source, said, answer.error, finale);
      ClosesBroken(w, request, limit, turns, c);
    } else if !Canonical(answer.value) {
      c := Conversation(rounds, messages, results, Malformed(said, answer.value));
      ClosesUnanswered(w, request, limit, turns, c);
    } else if answer.value.toolCalls == [] {
      c := Conversation(rounds, messages, results, Replied(said, answer.value));
      ClosesReplied(w, request, limit, turns, c);
    } else if |turns| == limit {
      c := Conversation(rounds, messages, results, OutOfRounds(said, answer.value));
      ClosesUnanswered(w, request, limit, turns, c);
    } else {
      var ran := RunTools(w, |results|, answer.value.toolCalls);
      ToolsRunAs(w, |results|, answer.value.toolCalls);
      FailedWithCode(w, |results|, answer.value.toolCalls, ran);
      c := Conversation(rounds, messages, results,
                        ToolBroke(said, answer.value, Outputs(ran.answers), ran.failure.value.code));
      ClosesToolBroke(w, request, limit, turns, c, ran);
    }
  }

  lemma SaidOfBreak(source: Source<ModelEvent, Problem>, said: seq<string>, failure: Failure, finale: Finale)
    requires CallBreaks(source, said, failure, finale)
    ensures finale.said == said
  {
  }

  lemma FailedWithCode(w: World, n: nat, calls: seq<ToolCall>, ran: NativeLoop.Ran)
    requires RanAs(w, n, calls, ran)
    ensures ran.failure.Some? ==> ran.failure.value.ToolFailed?
  {
  }

  lemma ToldSnoc(rounds: seq<Round>, round: Round)
    requires forall k | 0 <= k < |rounds| :: |rounds[k].outputs| <= |rounds[k].result.toolCalls|
    requires |round.outputs| <= |round.result.toolCalls|
    ensures forall k | 0 <= k < |rounds + [round]| ::
              |(rounds + [round])[k].outputs| <= |(rounds + [round])[k].result.toolCalls|
    ensures Told(rounds + [round])
         == Told(rounds) + Said(round.said) + Announced(round.result.toolCalls, round.outputs)
  {
    assert (rounds + [round])[..|rounds|] == rounds;
  }

  /** What is played after some turns is told after their rounds. */
  lemma {:induction false} PlayIsTold(w: World, request: seq<Message>, limit: nat, turns: seq<Turn>, rounds: seq<Round>)
    returns (c: Conversation)
    requires |turns| <= limit && Matches(w, request, turns, rounds)
    ensures TookPlace(w, request, limit, c)
    ensures OutcomeOf(w, Play(w, request, limit, turns)) == OutcomeIs(c)
    ensures Told(rounds) + Events(w, request, limit, turns) == EventsOf(c)
    decreases limit - |turns|
  {
    var move := MoveAfter(w, request, limit, turns);
    NativeLaws.PlayUnfolds(w, request, limit, turns);
    EventsStep(w, request, limit, turns);
    hide Play, Events, MoveAfter, OutcomeOf, Told, EventsOf, OutcomeIs, Streamed, RanAs, TookPlace, Gated;
    if move.Stop? {
      c := StopCloses(w, request, limit, turns, rounds);
      ClosedTookPlace(w, request, limit, turns, c);
    } else {
      var said := GoMeans(w, request, limit, turns);
      GoRound(w, request, turns, rounds, said, move.turn);
      var round := Round(said, move.turn.result, Outputs(move.turn.answers));
      GoAnnounces(w, |NativeLoop.Answers(turns)|, move.turn);
      ToldSnoc(rounds, round);
      c := PlayIsTold(w, request, limit, turns + [move.turn], rounds + [round]);
      Regroup(Told(rounds), Said(said), ToolEvents(move.turn.answers), Events(w, request, limit, turns + [move.turn]));
    }
  }

  lemma GoAnnounces(w: World, n: nat, turn: Turn)
    requires RanAs(w, n, turn.result.toolCalls, NativeLoop.Ran(turn.answers, None))
    ensures |Outputs(turn.answers)| <= |turn.result.toolCalls|
    ensures ToolEvents(turn.answers) == Announced(turn.result.toolCalls, Outputs(turn.answers))
  {
    AnnouncedIs(turn.result.toolCalls, n, w, NativeLoop.Ran(turn.answers, None));
  }

  lemma ClosedTookPlace(w: World, request: seq<Message>, limit: nat, turns: seq<Turn>, c: Conversation)
    requires |turns| <= limit && Matches(w, request, turns, c.rounds)
    requires c.messages == Generated(w, turns) && c.results == NativeLoop.Answers(turns)
    requires Closes(w, request, limit, turns, c)
    ensures TookPlace(w, request, limit, c)
    ensures forall text, own :: text == Said(c.finale.said) && own == Closing(c) ==>
              Told(c.rounds) + (text + own) == EventsOf(c)
  {
    hide Conversed, IsLast, Generated, NativeLoop.Answers, Told, Said;
    assert Told(c.rounds) + (Said(c.finale.said) + Closing(c)) == Told(c.rounds) + Said(c.finale.said) + Closing(c);
  }

  /** Every invocation is some conversation: it took place with the request, the world and the limit
      given, both forms end as it ends, and the stream yields its events. */
  lemma InvocationIsConversation(w: World, request: seq<Message>, limit: nat)
    ensures exists c :: && TookPlace(w, request, limit, c)
                        && OutcomeOf(w, Play(w, request, limit, [])) == OutcomeIs(c)
                        && Events(w, request, limit, []) == EventsOf(c)
  {
    hide Play, Events, OutcomeOf, EventsOf, OutcomeIs, TookPlace;
    assert Matches(w, request, [], []);
    var c := PlayIsTold(w, request, limit, [], []);
    assert Told([]) + Events(w, request, limit, []) == Events(w, request, limit, []);
  }
}
