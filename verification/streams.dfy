/** The gate that holds a stream's terminal event back until the stream has really ended. */
module Streams {
  import opened Wrappers

  /** Events in order, and how their source stops: normally, or by raising. */
  datatype Source<E, F> = Source(events: seq<E>, failure: Option<F>)

  datatype Broken<F> = NoCompletion | LateEvent | Interrupted(failure: F)

  /** What the gate lets through, and how it ends. */
  datatype Checked<E, F> = Checked(passed: seq<E>, outcome: Result<E, Broken<F>>)

  /** The position of the first terminal event, or the number of events if there is none. */
  function FirstTerminal<E>(events: seq<E>, isTerminal: E -> bool): (k: nat)
    ensures k <= |events|
    ensures k < |events| ==> isTerminal(events[k])
    ensures forall j | 0 <= j < k :: !isTerminal(events[j])
  {
    if events == [] || isTerminal(events[0]) then 0 else 1 + FirstTerminal(events[1..], isTerminal)
  }

  /** Everything before the first terminal event passes; that event follows only if it is the last one
      and its source then ends without raising. */
  function Gated<E, F>(source: Source<E, F>, isTerminal: E -> bool): Checked<E, F> {
    var k := FirstTerminal(source.events, isTerminal);
    Checked(source.events[..k],
            if k + 1 < |source.events| then Err(LateEvent)
            else match source.failure
              case Some(failure) => Err(Interrupted(failure))
              case None => if k < |source.events| then Ok(source.events[k]) else Err(NoCompletion))
  }

  lemma {:induction false} FirstTerminalIs<E>(events: seq<E>, isTerminal: E -> bool, k: nat)
    requires k <= |events|
    requires forall j | 0 <= j < k :: !isTerminal(events[j])
    requires k < |events| ==> isTerminal(events[k])
    ensures FirstTerminal(events, isTerminal) == k
  {
    if k > 0 { FirstTerminalIs(events[1..], isTerminal, k - 1); }
  }

  method CheckedStream<E, F>(source: Source<E, F>, isTerminal: E -> bool) returns (checked: Checked<E, F>)
    ensures checked == Gated(source, isTerminal)
  {
    var passed: seq<E> := [];
    var terminal: Option<E> := None;
    var completed := false;
    for k := 0 to |source.events|
      invariant |passed| == (if completed then k - 1 else k) && passed == source.events[..|passed|]
      invariant forall j | 0 <= j < |passed| :: !isTerminal(source.events[j])
      invariant completed ==> terminal == Some(source.events[k - 1]) && isTerminal(source.events[k - 1])
    {
      var event := source.events[k];
      if completed {
        FirstTerminalIs(source.events, isTerminal, k - 1);
        return Checked(passed, Err(LateEvent));
      }
      if isTerminal(event) {
        completed := true;
        terminal := Some(event);
      } else {
        passed := passed + [event];
      }
    }
    FirstTerminalIs(source.events, isTerminal, |passed|);
    if source.failure.Some? { return Checked(passed, Err(Interrupted(source.failure.value))); }
    if !completed { return Checked(passed, Err(NoCompletion)); }
    checked := Checked(passed, Ok(terminal.value));
  }

  /** A consumer of the gate sees at most one terminal event, only at the very end, and exactly when the
      source had one terminal event, last, and ended normally. */
  lemma GateIsExact<E, F>(source: Source<E, F>, isTerminal: E -> bool)
    ensures var checked := Gated(source, isTerminal);
            && (forall k | 0 <= k < |checked.passed| :: !isTerminal(checked.passed[k]))
            && checked.passed <= source.events
            && (checked.outcome.Ok? ==> isTerminal(checked.outcome.value))
            && (checked.outcome.Ok? <==>
                  && source.failure.None?
                  && exists k | 0 <= k < |source.events| :: OnlyTerminal(source.events, isTerminal, k))
            && (checked.outcome.Ok? ==> checked.passed + [checked.outcome.value] == source.events)
  {
    var k := FirstTerminal(source.events, isTerminal);
    if j :| 0 <= j < |source.events| && OnlyTerminal(source.events, isTerminal, j) {
      FirstTerminalIs(source.events, isTerminal, j);
    }
    if Gated(source, isTerminal).outcome.Ok? {
      assert OnlyTerminal(source.events, isTerminal, k);
    }
  }

  predicate OnlyTerminal<E>(events: seq<E>, isTerminal: E -> bool, k: nat) {
    k == |events| - 1 && isTerminal(events[k]) && forall j | 0 <= j < k :: !isTerminal(events[j])
  }

  /** Some event follows a terminal one. */
  predicate HasLate<E>(events: seq<E>, isTerminal: E -> bool) {
    exists k | 0 <= k < |events| - 1 :: isTerminal(events[k])
  }

  /** What passes is everything up to the first terminal event; and a stream is broken for a late event
      first, then for what its source raised, and last for want of a terminal event. */
  lemma GateBreaks<E, F(!new)>(source: Source<E, F>, isTerminal: E -> bool)
    ensures var checked, events := Gated(source, isTerminal), source.events;
            && checked.passed <= events
            && (|checked.passed| < |events| ==> isTerminal(events[|checked.passed|]))
            && (checked.outcome == Err(LateEvent) <==> HasLate(events, isTerminal))
            && (forall f :: checked.outcome == Err(Interrupted(f)) <==>
                              !HasLate(events, isTerminal) && source.failure == Some(f))
            && (checked.outcome == Err(NoCompletion) <==>
                  source.failure == None && forall k | 0 <= k < |events| :: !isTerminal(events[k]))
  {
    var k := FirstTerminal(source.events, isTerminal);
    assert k + 1 < |source.events| ==> isTerminal(source.events[k]);
  }
}
