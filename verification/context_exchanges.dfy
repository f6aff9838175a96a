/** Tool exchanges read off the messages alone: which calls are open after a list of messages, and
    which part is the first that no exchange allows. */
module ContextExchanges {
  import opened Messages
  import opened ContextSpec
  import opened ContextFacts

  /** The calls left open after the non-system messages of a list. */
  function Exchanged(ms: seq<Message>): Exchange {
    if |ms| == 0 then Pending({})
    else match Exchanged(ms[..|ms| - 1])
      case Broken(error) => Broken(error)
      case Pending(calls) =>
        if ms[|ms| - 1].role.System? then Pending(calls) else Consume(calls, ms[|ms| - 1].content)
  }

  /** Every call is answered once, by a later message, and nothing is answered that was not called. */
  predicate Balanced(ms: seq<Message>) { Exchanged(ms) == Pending({}) }

  lemma ExchangedSnoc(ms: seq<Message>, m: Message)
    ensures Exchanged(ms + [m]) == match Exchanged(ms)
                                   case Broken(e) => Broken(e)
                                   case Pending(p) => if m.role.System? then Pending(p) else Consume(p, m.content)
  {
    assert (ms + [m])[..|ms|] == ms;
  }

  lemma {:induction false} BrokenStays(ms: seq<Message>, n: nat)
    requires n <= |ms| && Exchanged(ms[..n]).Broken?
    ensures Exchanged(ms) == Exchanged(ms[..n])
  {
    if n == |ms| {
      assert ms[..n] == ms;
    } else {
      assert ms[..|ms| - 1][..n] == ms[..n];
      BrokenStays(ms[..|ms| - 1], n);
    }
  }

  lemma {:induction false} BalancedConcat(a: seq<Message>, b: seq<Message>)
    requires Balanced(a)
    ensures Exchanged(a + b) == Exchanged(b)
  {
    if b == [] {
      assert a + b == a;
    } else {
      assert (a + b)[..|a + b| - 1] == a + b[..|b| - 1];
      BalancedConcat(a, b[..|b| - 1]);
    }
  }

  // ----- exchanges without a running set of calls -----

  /** The content parts of the non-system messages, end to end. */
  function PartsOf(ms: seq<Message>): seq<Part> {
    if |ms| == 0 then []
    else PartsOf(ms[..|ms| - 1]) + (if ms[|ms| - 1].role.System? then [] else ms[|ms| - 1].content)
  }

  predicate Calls(p: Part, id: string) { p.ToolCallPart? && p.call.id == id }

  predicate Answers(p: Part, id: string) { p.ToolResultPart? && p.callId == id }

  /** Among the first `n` parts, `id` was called, and not answered since. */
  predicate OpenAt(parts: seq<Part>, n: nat, id: string)
    requires n <= |parts|
  {
    exists k | 0 <= k < n :: Calls(parts[k], id) && forall j | k < j < n :: !Answers(parts[j], id)
  }

  /** A call under an id that is still open. */
  predicate CallsAgain(parts: seq<Part>, k: nat)
    requires k < |parts|
  {
    parts[k].ToolCallPart? && OpenAt(parts, k, parts[k].call.id)
  }

  /** A result for an id that is not open. */
  predicate AnswersNothing(parts: seq<Part>, k: nat)
    requires k < |parts|
  {
    parts[k].ToolResultPart? && !OpenAt(parts, k, parts[k].callId)
  }

  lemma OpenSnoc(parts: seq<Part>, p: Part, id: string)
    ensures OpenAt(parts + [p], |parts| + 1, id)
       <==> Calls(p, id) || (OpenAt(parts, |parts|, id) && !Answers(p, id))
  {
    var all, n := parts + [p], |parts|;
    if OpenAt(all, n + 1, id) {
      var k :| 0 <= k < n + 1 && Calls(all[k], id) && forall j | k < j < n + 1 :: !Answers(all[j], id);
      if k < n {
        assert Calls(parts[k], id) && !Answers(all[n], id);
        assert forall j | k < j < n :: parts[j] == all[j];
      }
    }
    if Calls(p, id) {
      assert Calls(all[n], id);
    } else if OpenAt(parts, n, id) && !Answers(p, id) {
      var k :| 0 <= k < n && Calls(parts[k], id) && forall j | k < j < n :: !Answers(parts[j], id);
      assert Calls(all[k], id);
    }
  }

  lemma OpenEarlier(parts: seq<Part>, more: seq<Part>, n: nat, id: string)
    requires n <= |parts|
    ensures OpenAt(parts + more, n, id) == OpenAt(parts, n, id)
  {
    var all := parts + more;
    assert forall k | 0 <= k < n :: all[k] == parts[k];
    if OpenAt(all, n, id) {
      var k :| 0 <= k < n && Calls(all[k], id) && forall j | k < j < n :: !Answers(all[j], id);
      assert Calls(parts[k], id);
    }
    if OpenAt(parts, n, id) {
      var k :| 0 <= k < n && Calls(parts[k], id) && forall j | k < j < n :: !Answers(parts[j], id);
      assert Calls(all[k], id);
    }
  }

  /** No part that breaks an exchange. */
  predicate Allowed(parts: seq<Part>, k: nat)
    requires k < |parts|
  {
    !CallsAgain(parts, k) && !AnswersNothing(parts, k)
  }

  lemma AllowedEarlier(parts: seq<Part>, p: Part, k: nat)
    requires k < |parts|
    ensures CallsAgain(parts + [p], k) == CallsAgain(parts, k)
    ensures AnswersNothing(parts + [p], k) == AnswersNothing(parts, k)
    ensures Allowed(parts + [p], k) == Allowed(parts, k)
  {
    hide OpenAt;
    assert (parts + [p])[k] == parts[k];
    if parts[k].ToolCallPart? { OpenEarlier(parts, [p], k, parts[k].call.id); }
    if parts[k].ToolResultPart? { OpenEarlier(parts, [p], k, parts[k].callId); }
  }

  /** What `Consume` says of parts taken from nothing open, told without its running set. */
  ghost predicate Tells(parts: seq<Part>, x: Exchange) {
    match x
    case Pending(calls) =>
      && (forall k | 0 <= k < |parts| :: Allowed(parts, k))
      && (forall id :: id in calls <==> OpenAt(parts, |parts|, id))
    case Broken(error) =>
      exists k | 0 <= k < |parts| ::
        && (forall j | 0 <= j < k :: Allowed(parts, j))
        && ((CallsAgain(parts, k) && error == AmbiguousExchange)
            || (AnswersNothing(parts, k) && error == UnmatchedResult))
  }

  lemma TellsNext(parts: seq<Part>, p: Part, calls: set<string>)
    requires Tells(parts, Pending(calls))
    ensures Tells(parts + [p], Consume(calls, [p]))
  {
    hide OpenAt;
    var all, n := parts + [p], |parts|;
    forall k | 0 <= k < n ensures Allowed(all, k) { AllowedEarlier(parts, p, k); }
    forall id ensures OpenAt(all, n, id) == OpenAt(parts, n, id) { OpenEarlier(parts, [p], n, id); }
    forall id
      ensures OpenAt(all, n + 1, id) <==> Calls(p, id) || (OpenAt(parts, n, id) && !Answers(p, id))
    {
      OpenSnoc(parts, p, id);
    }
    assert all[n] == p && [p][1..] == [];
    if p.ToolCallPart? {
      assert CallsAgain(all, n) == (p.call.id in calls);
    } else if p.ToolResultPart? {
      assert AnswersNothing(all, n) == (p.callId !in calls);
    }
  }

  lemma {:induction false} ConsumeTells(parts: seq<Part>)
    ensures Tells(parts, Consume({}, parts))
  {
    if parts != [] {
      var n := |parts| - 1;
      var init := parts[..n];
      assert parts == init + [parts[n]];
      ConsumeConcat({}, init, [parts[n]]);
      ConsumeTells(init);
      if Consume({}, init).Pending? {
        TellsNext(init, parts[n], Consume({}, init).calls);
      } else {
        var k :| 0 <= k < |init| && (forall j | 0 <= j < k :: Allowed(init, j))
              && ((CallsAgain(init, k) && Consume({}, init).error == AmbiguousExchange)
                  || (AnswersNothing(init, k) && Consume({}, init).error == UnmatchedResult));
        AllowedEarlier(init, parts[n], k);
        forall j | 0 <= j < k ensures Allowed(parts, j) { AllowedEarlier(init, parts[n], j); }
      }
    }
  }

  lemma {:induction false} ExchangedIsConsumed(ms: seq<Message>)
    ensures Exchanged(ms) == Consume({}, PartsOf(ms))
  {
    if |ms| > 0 {
      var init, last := ms[..|ms| - 1], ms[|ms| - 1];
      ExchangedIsConsumed(init);
      ConsumeConcat({}, PartsOf(init), if last.role.System? then [] else last.content);
    }
  }

  /** The calls open after a list of messages are those made and not answered since; a list is broken
      exactly when some part calls an open id again or answers one that is not open, and the error
      is that of the first such part. */
  lemma ExchangeIsOpenCalls(ms: seq<Message>)
    ensures var parts, x := PartsOf(ms), Exchanged(ms);
            && (x.Pending? ==> forall id :: id in x.calls <==> OpenAt(parts, |parts|, id))
            && (x.Pending? ==> forall k | 0 <= k < |parts| :: Allowed(parts, k))
            && (x.Broken? ==> exists k | 0 <= k < |parts| ::
                  && (forall j | 0 <= j < k :: Allowed(parts, j))
                  && ((CallsAgain(parts, k) && x.error == AmbiguousExchange)
                      || (AnswersNothing(parts, k) && x.error == UnmatchedResult)))
  {
    ExchangedIsConsumed(ms);
    ConsumeTells(PartsOf(ms));
  }

  // ----- the scan sees the same exchanges -----

  /** The first message that cannot be encoded, or after which the exchanges are broken. */
  predicate Halts(ms: seq<Message>, k: nat)
    requires k < |ms|
  {
    ms[k].encoding.Unencodable? || Exchanged(ms[..k + 1]).Broken?
  }

  function ErrorAt(ms: seq<Message>, k: nat): Error
    requires k < |ms| && Halts(ms, k)
  {
    if ms[k].encoding.Unencodable? then EncodingFailed(ms[k].encoding.reason) else Exchanged(ms[..k + 1]).error
  }

  /** A scan stops at the first message that cannot be encoded or breaks an exchange, with its error;
      one that does not stop has the open calls of the messages. */
  lemma {:induction false} ScanExchanges(ms: seq<Message>, requestStart: nat)
    ensures var sc := ScanOf(ms, requestStart);
            && (sc.Scan? ==> (forall k | 0 <= k < |ms| :: !Halts(ms, k)) && Exchanged(ms) == Pending(sc.pending))
            && (sc.Stopped? ==> exists k | 0 <= k < |ms| ::
                  && (forall j | 0 <= j < k :: !Halts(ms, j))
                  && Halts(ms, k) && sc.error == ErrorAt(ms, k))
  {
    if |ms| > 0 {
      var n := |ms| - 1;
      var init := ms[..n];
      ScanExchanges(init, requestStart);
      assert ms[..n + 1] == ms;
      assert forall k | 0 <= k < n :: init[..k + 1] == ms[..k + 1] && init[k] == ms[k];
      assert forall k | 0 <= k < n :: Halts(init, k) == Halts(ms, k);
      if ScanOf(init, requestStart).Stopped? {
        var k :| 0 <= k < n && (forall j | 0 <= j < k :: !Halts(init, j)) && Halts(init, k)
              && ScanOf(init, requestStart).error == ErrorAt(init, k);
        assert Halts(ms, k) && ErrorAt(ms, k) == ErrorAt(init, k);
      } else {
        if ScanOf(ms, requestStart).Stopped? { assert Halts(ms, n); }
      }
    }
  }

  /** Once every message is encoded, only a broken exchange can stop the scan. */
  lemma EncodedHalts(ms: seq<Message>, k: nat)
    requires k < |ms| && Halts(ms, k) && ms[k].encoding.Encoded?
    ensures Exchanged(ms).Broken?
  {
    BrokenStays(ms, k + 1);
  }
}
