/** What the bounded loop promises, in both of its forms. */
module NativeLaws {
  import opened Messages
  import opened Streams
  import opened NativeLoop

  // ----- bounds -----

  predicate AsksForTools(turn: Turn) { turn.result.toolCalls != [] }

  /** Every turn but the last asked for tools and had every call answered. */
  ghost predicate Played(trail: Trail, limit: nat) {
    && (forall k | 0 <= k < |trail.turns| :: Canonical(trail.turns[k].result))
    && (forall k | 0 <= k < |trail.turns| - 1 ::
          AsksForTools(trail.turns[k]) && Answered(trail.turns[k]))
    && (if trail.ending.Finished?
        then 0 < |trail.turns| <= limit + 1 && !AsksForTools(Last(trail.turns)) && Last(trail.turns).answers == []
        else if trail.ending.LimitReached?
        then |trail.turns| == limit + 1 && AsksForTools(Last(trail.turns))
        else |trail.turns| <= limit)
  }

  function Last(turns: seq<Turn>): Turn
    requires turns != []
  {
    turns[|turns| - 1]
  }

  /** Each call of the turn is answered once, in order, under its own id and name. */
  ghost predicate Answered(turn: Turn) {
    && |turn.answers| == |turn.result.toolCalls|
    && forall k | 0 <= k < |turn.answers| ::
         turn.answers[k].callId == turn.result.toolCalls[k].id && turn.answers[k].name == turn.result.toolCalls[k].name
  }

  lemma {:induction false} ToolsAnswer(w: World, n: nat, calls: seq<ToolCall>)
    ensures var ran := RunTools(w, n, calls);
            && |ran.answers| <= |calls|
            && (ran.failure.None? ==> |ran.answers| == |calls|)
            && forall k | 0 <= k < |ran.answers| ::
                 ran.answers[k].callId == calls[k].id && ran.answers[k].name == calls[k].name
  {
    if |calls| > 0 { ToolsAnswer(w, n, calls[..|calls| - 1]); }
  }

  lemma {:induction false} PlayIsPlayed(w: World, request: seq<Message>, limit: nat, turns: seq<Turn>)
    requires |turns| <= limit
    requires forall k | 0 <= k < |turns| ::
               Canonical(turns[k].result) && AsksForTools(turns[k]) && Answered(turns[k])
    ensures Played(Play(w, request, limit, turns), limit)
    decreases limit - |turns|
  {
    MovePlayed(w, request, limit, turns);
    PlayUnfolds(w, request, limit, turns);
    hide Play, MoveAfter, Canonical, Answered, MayStop, Played;
    var move := MoveAfter(w, request, limit, turns);
    if move.Go? {
      PlayIsPlayed(w, request, limit, turns + [move.turn]);
    } else {
      StopPlayed(turns, move.last, move.ending, limit);
    }
  }

  /** Where a trail may stop. */
  ghost predicate MayStop(turns: seq<Turn>, last: seq<Turn>, ending: Ending, limit: nat) {
    && |last| <= 1 && (last != [] ==> Canonical(last[0].result))
    && (if ending.Finished? then last != [] && !AsksForTools(last[0]) && last[0].answers == []
        else if ending.LimitReached? then |turns| == limit && last != [] && AsksForTools(last[0])
        else |turns| + |last| <= limit)
  }

  lemma StopPlayed(turns: seq<Turn>, last: seq<Turn>, ending: Ending, limit: nat)
    requires |turns| <= limit && MayStop(turns, last, ending, limit)
    requires forall k | 0 <= k < |turns| ::
               Canonical(turns[k].result) && AsksForTools(turns[k]) && Answered(turns[k])
    ensures Played(Trail(turns + last, ending), limit)
  {
    hide Canonical, AsksForTools, Answered;
    var all := turns + last;
    assert forall k | 0 <= k < |turns| :: all[k] == turns[k];
    if last == [] { assert all == turns; } else { assert all[|turns|] == last[0]; }
  }

  lemma PlayUnfolds(w: World, request: seq<Message>, limit: nat, turns: seq<Turn>)
    requires |turns| <= limit
    ensures var move := MoveAfter(w, request, limit, turns);
            Play(w, request, limit, turns)
            == if move.Stop? then Trail(turns + move.last, move.ending)
               else if |turns| < limit then Play(w, request, limit, turns + [move.turn])
               else Trail(turns, LimitReached)
  {
  }

  /** A round ends the trail as it may end, or goes on with a turn answered in full. */
  lemma MovePlayed(w: World, request: seq<Message>, limit: nat, turns: seq<Turn>)
    requires |turns| <= limit
    ensures var move := MoveAfter(w, request, limit, turns);
            if move.Go? then
              |turns| < limit && Canonical(move.turn.result) && AsksForTools(move.turn) && Answered(move.turn)
            else MayStop(turns, move.last, move.ending, limit)
  {
    var answer := Answer(SourceAfter(w, request, turns));
    if answer.Ok? { ToolsAnswer(w, |Answers(turns)|, answer.value.toolCalls); }
    hide Answers, Gated, SourceAfter;
  }

  /** At most limit + 1 model calls give results, a call that fails comes after at most limit of them, and
      at most limit of them have their tools run; the invocation fails for the limit exactly when limit + 1
      results all asked for tools. */
  lemma CallsAreBounded(w: World, request: seq<Message>, limit: nat)
    ensures var trail := Play(w, request, limit, []);
            && |trail.turns| <= limit + 1
            && (trail.ending.Broke? ==> |trail.turns| <= limit)
            && (trail.ending.LimitReached? <==>
                  |trail.turns| == limit + 1 && forall k | 0 <= k < |trail.turns| :: AsksForTools(trail.turns[k]))
            && (forall k | 0 <= k < |trail.turns| && trail.turns[k].answers != [] :: k < limit)
  {
    hide Play, Answered, Canonical;
    PlayIsPlayed(w, request, limit, []);
    LimitRunsNoTools(w, request, limit, []);
  }

  lemma {:induction false} LimitRunsNoTools(w: World, request: seq<Message>, limit: nat, turns: seq<Turn>)
    requires |turns| <= limit
    ensures var trail := Play(w, request, limit, turns);
            |trail.turns| == limit + 1 ==> Last(trail.turns).answers == []
    decreases limit - |turns|
  {
    match MoveAfter(w, request, limit, turns)
    case Stop(last, ending) =>
    case Go(turn) => if |turns| < limit { LimitRunsNoTools(w, request, limit, turns + [turn]); }
  }

  // ----- usage -----

  function InputTokens(turns: seq<Turn>): nat {
    if |turns| == 0 then 0
    else
      InputTokens(turns[..|turns| - 1])
        + (if turns[|turns| - 1].result.usage.Some? then turns[|turns| - 1].result.usage.value.inputTokens else 0)
  }

  function OutputTokens(turns: seq<Turn>): nat {
    if |turns| == 0 then 0
    else
      OutputTokens(turns[..|turns| - 1])
        + (if turns[|turns| - 1].result.usage.Some? then turns[|turns| - 1].result.usage.value.outputTokens else 0)
  }

  /** Usage is the sum over the model calls, or unknown exactly when some call's usage is. */
  lemma {:induction false} UsageIsSum(turns: seq<Turn>)
    ensures UsageOf(turns).None? <==> exists k | 0 <= k < |turns| :: turns[k].result.usage.None?
    ensures UsageOf(turns).Some? ==> UsageOf(turns).value == Usage(InputTokens(turns), OutputTokens(turns))
  {
    if |turns| > 0 { UsageIsSum(turns[..|turns| - 1]); }
  }

  // ----- events -----

  function ToolsIn(events: seq<AgentEvent>): seq<ToolResult> {
    if |events| == 0 then []
    else
      ToolsIn(events[..|events| - 1])
        + (match events[|events| - 1] case AgentTool(result) => [result] case _ => [])
  }

  predicate Quiet(events: seq<AgentEvent>) { forall k | 0 <= k < |events| :: !events[k].AgentCompleted? }

  lemma {:induction false} ToolsConcat(a: seq<AgentEvent>, b: seq<AgentEvent>)
    ensures ToolsIn(a + b) == ToolsIn(a) + ToolsIn(b)
  {
    if b == [] {
      assert a + b == a;
    } else {
      assert (a + b)[..|a + b| - 1] == a + b[..|b| - 1];
      ToolsConcat(a, b[..|b| - 1]);
    }
  }

  lemma {:induction false} TextIsText(events: seq<ModelEvent>)
    ensures Quiet(TextEvents(events)) && ToolsIn(TextEvents(events)) == []
  {
    if |events| > 0 {
      var init := TextEvents(events[..|events| - 1]);
      TextIsText(events[..|events| - 1]);
      var last := if events[|events| - 1].TextDelta? then [AgentText(events[|events| - 1].delta)] else [];
      assert TextEvents(events) == init + last;
      hide TextEvents;
      ToolsConcat(init, last);
      assert last != [] ==> last[..0] == [];
    }
  }

  lemma {:induction false} ToolsAreTools(answers: seq<ToolResult>)
    ensures Quiet(ToolEvents(answers)) && ToolsIn(ToolEvents(answers)) == answers
  {
    if |answers| > 0 {
      assert ToolEvents(answers)[..|answers| - 1] == ToolEvents(answers[..|answers| - 1]);
      ToolsAreTools(answers[..|answers| - 1]);
    }
  }

  /** What a round adds to the tool results, whether or not it is the last. */
  lemma RoundTools(w: World, turns: seq<Turn>, move: Move)
    requires move.Stop? && move.ending.Finished? ==> |move.last| == 1 && move.last[0].answers == []
    ensures ToolsIn(MoveEvents(w, turns, move)) == Answers(if move.Go? then [move.turn] else move.last)
    ensures !(move.Stop? && move.ending.Finished?) ==> Quiet(MoveEvents(w, turns, move))
  {
    match move
    case Stop(last, Finished) =>
      var output := OutputOf(w, turns + last);
      assert [AgentCompleted(output)][..0] == [];
      assert last == [last[0]] && last[..0] == [];
    case Stop(last, _) => ToolsAreTools(Answers(last));
    case Go(turn) =>
      ToolsAreTools(turn.answers);
      assert [turn][..0] == [];
  }

  lemma {:induction false} AnswersConcat(a: seq<Turn>, b: seq<Turn>)
    ensures Answers(a + b) == Answers(a) + Answers(b)
  {
    if b == [] {
      assert a + b == a;
    } else {
      assert (a + b)[..|a + b| - 1] == a + b[..|b| - 1];
      AnswersConcat(a, b[..|b| - 1]);
    }
  }

  lemma PlayStep(w: World, request: seq<Message>, limit: nat, turns: seq<Turn>)
    requires |turns| <= limit
    ensures var move := MoveAfter(w, request, limit, turns);
            if move.Go? && |turns| < limit
            then Play(w, request, limit, turns) == Play(w, request, limit, turns + [move.turn])
            else move.Stop? ==> Play(w, request, limit, turns).turns == turns + move.last
  {
  }

  lemma Associate(a: seq<ToolResult>, b: seq<ToolResult>, c: seq<ToolResult>)
    ensures a + ([] + b + c) == a + b + c && a + ([] + b) == a + b
  {
  }

  /** The streamed tool results are the trail's, in order. */
  lemma {:induction false} StreamedTools(w: World, request: seq<Message>, limit: nat, turns: seq<Turn>)
    requires |turns| <= limit
    ensures Answers(turns) + ToolsIn(Events(w, request, limit, turns))
         == Answers(Play(w, request, limit, turns).turns)
    decreases limit - |turns|
  {
    hide MoveOf, Answer, Gated, TextEvents, ToolEvents, Events, ToolsIn, OutputOf, Answers, Play, MoveAfter;
    var move, source := MoveAfter(w, request, limit, turns), SourceAfter(w, request, turns);
    var text, own := TextEvents(Gated(source, IsCompletion).passed), MoveEvents(w, turns, move);
    TextIsText(Gated(source, IsCompletion).passed);
    MoveIsShaped(w, request, limit, turns);
    RoundTools(w, turns, move);
    EventsStep(w, request, limit, turns);
    PlayStep(w, request, limit, turns);
    ToolsConcat(text, own);
    AnswersConcat(turns, if move.Go? then [move.turn] else move.last);
    if move.Go? {
      var rest := Events(w, request, limit, turns + [move.turn]);
      StreamedTools(w, request, limit, turns + [move.turn]);
      ToolsConcat(text + own, rest);
      Associate(Answers(turns), Answers([move.turn]), ToolsIn(rest));
    } else {
      Associate(Answers(turns), Answers(move.last), []);
    }
  }

  lemma MoveIsShaped(w: World, request: seq<Message>, limit: nat, turns: seq<Turn>)
    ensures var move := MoveAfter(w, request, limit, turns);
            && (move.Stop? && move.ending.Finished? ==> |move.last| == 1 && move.last[0].answers == [])
            && (move.Go? ==> |turns| != limit)
  {
    MoveShape(w, Answer(SourceAfter(w, request, turns)), |Answers(turns)|, |turns| == limit);
  }

  lemma QuietThen(a: seq<AgentEvent>, b: seq<AgentEvent>)
    requires Quiet(a)
    ensures Quiet(b) ==> Quiet(a + b)
    ensures b != [] ==> (a + b)[..|a + b| - 1] == a + b[..|b| - 1] && (a + b)[|a + b| - 1] == b[|b| - 1]
    ensures b != [] && Quiet(b[..|b| - 1]) ==> Quiet((a + b)[..|a + b| - 1])
  {
  }

  /** A stream completes only by its very last event, only on success, with exactly what the other form
      returns. */
  lemma {:induction false} StreamCompletes(w: World, request: seq<Message>, limit: nat, turns: seq<Turn>)
    requires |turns| <= limit
    ensures var trail, events := Play(w, request, limit, turns), Events(w, request, limit, turns);
            if trail.ending.Finished?
            then events != [] && Quiet(events[..|events| - 1])
                 && events[|events| - 1] == AgentCompleted(OutputOf(w, trail.turns))
            else Quiet(events)
    decreases limit - |turns|
  {
    hide MoveOf, Answer, Gated, TextEvents, ToolEvents, Events, ToolsIn, OutputOf;
    var move, source := MoveAfter(w, request, limit, turns), SourceAfter(w, request, turns);
    var text := TextEvents(Gated(source, IsCompletion).passed);
    TextIsText(Gated(source, IsCompletion).passed);
    MoveShape(w, Answer(source), |Answers(turns)|, |turns| == limit);
    RoundTools(w, turns, move);
    EventsStep(w, request, limit, turns);
    QuietThen(text, MoveEvents(w, turns, move));
    if move.Go? {
      StreamCompletes(w, request, limit, turns + [move.turn]);
      QuietThen(text + ToolEvents(move.turn.answers), Events(w, request, limit, turns + [move.turn]));
    }
  }

  /** With the same model results, tool outputs and fresh ids, the stream's events are the returned
      output's tool results and, last, that output itself. */
  lemma FormsAgree(w: World, request: seq<Message>, limit: nat)
    ensures var outcome, events := OutcomeOf(w, Play(w, request, limit, [])), Events(w, request, limit, []);
            match outcome
            case Completed(output) =>
              && ToolsIn(events) == output.toolResults
              && events != [] && events[|events| - 1] == AgentCompleted(output)
              && Quiet(events[..|events| - 1])
            case Failed(_) => Quiet(events)
  {
    hide Play, Events, ToolsIn, Generated, UsageOf, Quiet;
    assert Answers([]) == [];
    StreamedTools(w, request, limit, []);
    StreamCompletes(w, request, limit, []);
    hide Answers;
    assert [] + ToolsIn(Events(w, request, limit, [])) == ToolsIn(Events(w, request, limit, []));
  }

  // ----- streamed text -----

  function TextIn(events: seq<AgentEvent>): seq<string> {
    if |events| == 0 then []
    else
      TextIn(events[..|events| - 1]) + (match events[|events| - 1] case AgentText(delta) => [delta] case _ => [])
  }

  function DeltasIn(events: seq<ModelEvent>): seq<string> {
    if |events| == 0 then []
    else
      DeltasIn(events[..|events| - 1]) + (match events[|events| - 1] case TextDelta(delta) => [delta] case _ => [])
  }

  /** The text of an invocation's first `n` model calls, call by call. */
  function ModelText(w: World, request: seq<Message>, turns: seq<Turn>, n: nat): seq<string>
    requires n <= |turns|
  {
    if n == 0 then []
    else
      ModelText(w, request, turns, n - 1)
        + DeltasIn(Gated(SourceAfter(w, request, turns[..n - 1]), IsCompletion).passed)
  }

  lemma {:induction false} TextConcat(a: seq<AgentEvent>, b: seq<AgentEvent>)
    ensures TextIn(a + b) == TextIn(a) + TextIn(b)
  {
    if b == [] {
      assert a + b == a;
    } else {
      assert (a + b)[..|a + b| - 1] == a + b[..|b| - 1];
      TextConcat(a, b[..|b| - 1]);
    }
  }

  lemma {:induction false} TextIsDeltas(events: seq<ModelEvent>)
    ensures TextIn(TextEvents(events)) == DeltasIn(events)
  {
    if |events| > 0 {
      var init := TextEvents(events[..|events| - 1]);
      TextIsDeltas(events[..|events| - 1]);
      match events[|events| - 1]
      case TextDelta(delta) => assert (init + [AgentText(delta)])[..|init|] == init;
      case ModelCompleted(_) => assert init + [] == init;
    }
  }

  lemma {:induction false} ToolsSayNothing(answers: seq<ToolResult>)
    ensures TextIn(ToolEvents(answers)) == []
  {
    if |answers| > 0 {
      assert ToolEvents(answers)[..|answers| - 1] == ToolEvents(answers[..|answers| - 1]);
      ToolsSayNothing(answers[..|answers| - 1]);
    }
  }

  lemma {:induction false} PlayExtends(w: World, request: seq<Message>, limit: nat, turns: seq<Turn>)
    requires |turns| <= limit
    ensures turns <= Play(w, request, limit, turns).turns
    decreases limit - |turns|
  {
    var move := MoveAfter(w, request, limit, turns);
    if move.Go? && |turns| < limit { PlayExtends(w, request, limit, turns + [move.turn]); }
  }

  lemma RoundText(w: World, request: seq<Message>, limit: nat, turns: seq<Turn>)
    requires |turns| <= limit
    ensures var move := MoveAfter(w, request, limit, turns);
            var text := DeltasIn(Gated(SourceAfter(w, request, turns), IsCompletion).passed);
            TextIn(Events(w, request, limit, turns))
            == text + (if move.Go? && |turns| < limit
                       then TextIn(Events(w, request, limit, turns + [move.turn])) else [])
  {
    hide MoveOf, Answer, Gated, Events, MoveAfter, OutputOf;
    var move := MoveAfter(w, request, limit, turns);
    var passed, own := Gated(SourceAfter(w, request, turns), IsCompletion).passed, MoveEvents(w, turns, move);
    EventsStep(w, request, limit, turns);
    TextIsDeltas(passed);
    TextConcat(TextEvents(passed), own);
    match move {
      case Go(turn) => ToolsSayNothing(turn.answers);
      case Stop(last, Finished) => assert own[..0] == [];
      case Stop(last, _) => ToolsSayNothing(Answers(last));
    }
    if move.Go? && |turns| < limit {
      TextConcat(TextEvents(passed) + own, Events(w, request, limit, turns + [move.turn]));
    }
  }

  lemma NextText(w: World, request: seq<Message>, all: seq<Turn>, turns: seq<Turn>)
    requires turns < all
    ensures ModelText(w, request, all, |turns| + 1)
         == ModelText(w, request, all, |turns|) + DeltasIn(Gated(SourceAfter(w, request, turns), IsCompletion).passed)
  {
    assert all[..|turns|] == turns;
  }

  lemma ShiftText(a: seq<string>, b: seq<string>, c: seq<string>)
    ensures a + (b + c) == a + b + c && a + (b + []) == a + b
  {
  }

  /** The text a completed stream yields is every model call's text, in order. */
  lemma {:induction false} StreamedText(w: World, request: seq<Message>, limit: nat, turns: seq<Turn>)
    requires |turns| <= limit && Play(w, request, limit, turns).ending.Finished?
    ensures turns <= Play(w, request, limit, turns).turns
    ensures var all := Play(w, request, limit, turns).turns;
            ModelText(w, request, all, |turns|) + TextIn(Events(w, request, limit, turns))
            == ModelText(w, request, all, |all|)
    decreases limit - |turns|
  {
    hide MoveOf, Answer, Gated, Events, MoveAfter, TextIn, DeltasIn, ModelText;
    var all, move := Play(w, request, limit, turns).turns, MoveAfter(w, request, limit, turns);
    PlayExtends(w, request, limit, turns);
    RoundText(w, request, limit, turns);
    MoveIsShaped(w, request, limit, turns);
    var text := DeltasIn(Gated(SourceAfter(w, request, turns), IsCompletion).passed);
    if move.Go? {
      StreamedText(w, request, limit, turns + [move.turn]);
      assert turns < all;
      NextText(w, request, all, turns);
      ShiftText(ModelText(w, request, all, |turns|), text, TextIn(Events(w, request, limit, turns + [move.turn])));
    } else {
      assert |all| == |turns| + 1;
      NextText(w, request, all, turns);
      ShiftText(ModelText(w, request, all, |turns|), text, []);
    }
  }
}
