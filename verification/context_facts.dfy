/** Facts about scans, groups and costs that both selectors and the selection laws build on. */
module ContextFacts {
  import opened Messages
  import opened ContextSpec

  // ----- tool exchanges -----

  lemma {:induction false} ConsumeConcat(pending: set<string>, a: seq<Part>, b: seq<Part>)
    ensures Consume(pending, a + b)
         == match Consume(pending, a) case Broken(e) => Broken(e) case Pending(p) => Consume(p, b)
    decreases |a|
  {
    if a == [] {
      assert a + b == b;
    } else {
      assert (a + b)[0] == a[0] && (a + b)[1..] == a[1..] + b;
      match a[0]
      case TextPart(_) => ConsumeConcat(pending, a[1..], b);
      case ToolCallPart(call) => ConsumeConcat(pending + {call.id}, a[1..], b);
      case ToolResultPart(id, _) => ConsumeConcat(pending - {id}, a[1..], b);
    }
  }

  /** A part that calls under an id still open, or answers an id that is not open. */
  predicate Offends(pending: set<string>, parts: seq<Part>, k: nat) {
    && k < |parts| && Consume(pending, parts[..k]).Pending?
    && match parts[k]
       case TextPart(_) => false
       case ToolCallPart(call) => call.id in Consume(pending, parts[..k]).calls
       case ToolResultPart(id, _) => id !in Consume(pending, parts[..k]).calls
  }

  lemma OffenceBreaks(pending: set<string>, parts: seq<Part>, k: nat)
    requires Offends(pending, parts, k)
    ensures Consume(pending, parts)
         == Broken(if parts[k].ToolCallPart? then AmbiguousExchange else UnmatchedResult)
  {
    var open := Consume(pending, parts[..k]).calls;
    assert parts == parts[..k] + parts[k..] && parts[k..] == [parts[k]] + parts[k + 1..];
    ConsumeConcat(pending, parts[..k], parts[k..]);
    ConsumeConcat(open, [parts[k]], parts[k + 1..]);
  }

  /** An exchange breaks exactly at an offending part: as ambiguous at a call, as unmatched at a result. */
  lemma {:induction false} BreaksAtOffence(pending: set<string>, parts: seq<Part>)
    ensures Consume(pending, parts).Broken? <==> exists k | 0 <= k < |parts| :: Offends(pending, parts, k)
    ensures forall k | 0 <= k < |parts| && Offends(pending, parts, k) ::
              Consume(pending, parts) == Broken(if parts[k].ToolCallPart? then AmbiguousExchange else UnmatchedResult)
  {
    forall k | 0 <= k < |parts| && Offends(pending, parts, k)
      ensures Consume(pending, parts) == Broken(if parts[k].ToolCallPart? then AmbiguousExchange else UnmatchedResult)
    {
      OffenceBreaks(pending, parts, k);
    }
    if parts != [] && Consume(pending, parts).Broken? {
      var n := |parts| - 1;
      var init := parts[..n];
      assert parts == init + [parts[n]];
      ConsumeConcat(pending, init, [parts[n]]);
      BreaksAtOffence(pending, init);
      if Consume(pending, init).Broken? {
        var k :| 0 <= k < |init| && Offends(pending, init, k);
        assert init[..k] == parts[..k];
        assert Offends(pending, parts, k);
      } else {
        assert Offends(pending, parts, n);
      }
    }
  }

  // ----- costs and flattening are additive -----

  lemma {:induction false} CostConcat(a: seq<Entry>, b: seq<Entry>)
    ensures Cost(a + b) == Cost(a) + Cost(b)
  {
    if b == [] {
      assert a + b == a;
    } else {
      var init, last := b[..|b| - 1], b[|b| - 1];
      assert (a + b)[..|a + b| - 1] == a + init;
      CostConcat(a, init);
    }
  }

  lemma {:induction false} FlattenConcat(a: seq<Group>, b: seq<Group>)
    ensures Flatten(a + b) == Flatten(a) + Flatten(b)
  {
    if b == [] {
      assert a + b == a;
    } else {
      var init, last := b[..|b| - 1], b[|b| - 1];
      assert (a + b)[..|a + b| - 1] == a + init;
      FlattenConcat(a, init);
      assert (Flatten(a) + Flatten(init)) + last == Flatten(a) + (Flatten(init) + last);
    }
  }

  lemma FlattenOne(g: Group)
    ensures Flatten([g]) == g
  {
    assert Flatten([g][..0]) == [];
  }

  lemma FlattenSnoc(gs: seq<Group>, g: Group)
    ensures Flatten(gs + [g]) == Flatten(gs) + g
  {
    FlattenConcat(gs, [g]);
    FlattenOne(g);
  }

  lemma CostSnoc(es: seq<Entry>, e: Entry)
    ensures Cost(es + [e]) == Cost(es) + 1 + Size(e.message)
  {
    assert (es + [e])[..|es|] == es;
  }

  lemma {:induction false} CostZero(es: seq<Entry>)
    ensures Cost(es) >= |es|
    ensures Cost(es) == 0 <==> es == []
  {
    if es != [] { CostZero(es[..|es| - 1]); }
  }

  lemma {:induction false} InFlatten(gs: seq<Group>, i: nat, e: Entry)
    requires i < |gs| && e in gs[i]
    ensures e in Flatten(gs)
  {
    if i < |gs| - 1 { InFlatten(gs[..|gs| - 1], i, e); }
  }

  lemma {:induction false} FromFlatten(gs: seq<Group>, e: Entry) returns (i: nat)
    requires e in Flatten(gs)
    ensures i < |gs| && e in gs[i]
  {
    if e in gs[|gs| - 1] { i := |gs| - 1; } else { i := FromFlatten(gs[..|gs| - 1], e); }
  }

  // ----- a scan partitions the messages -----

  /** The system messages, or the other ones, as indexed entries in order. */
  function EntriesWhere(ms: seq<Message>, system: bool): seq<Entry> {
    if |ms| == 0 then []
    else
      var m := ms[|ms| - 1];
      EntriesWhere(ms[..|ms| - 1], system)
        + (if m.role.System? == system then [Entry(|ms| - 1, m)] else [])
  }

  ghost predicate Increasing(es: seq<Entry>) {
    forall i, j | 0 <= i < j < |es| :: es[i].index < es[j].index
  }

  ghost predicate From(es: seq<Entry>, ms: seq<Message>) {
    forall k | 0 <= k < |es| :: es[k].index < |ms| && ms[es[k].index] == es[k].message
  }

  lemma {:induction false} EntriesWhereFacts(ms: seq<Message>, system: bool)
    ensures Increasing(EntriesWhere(ms, system))
    ensures From(EntriesWhere(ms, system), ms)
    ensures forall e | e in EntriesWhere(ms, system) :: e.message.role.System? == system
    ensures forall i | 0 <= i < |ms| && ms[i].role.System? == system ::
              Entry(i, ms[i]) in EntriesWhere(ms, system)
  {
    if |ms| > 0 { EntriesWhereFacts(ms[..|ms| - 1], system); }
  }

  ghost predicate NonEmpty(gs: seq<Group>) { forall k | 0 <= k < |gs| :: gs[k] != [] }

  ghost predicate Partitions(sc: Scan, ms: seq<Message>)
    requires sc.Scan?
  {
    && sc.systems == EntriesWhere(ms, true)
    && Flatten(sc.closed) + sc.open == EntriesWhere(ms, false)
    && NonEmpty(sc.closed)
    && (sc.pending != {} ==> sc.open != [])
  }

  lemma ClosePartitions(sc: Scan, ms: seq<Message>, closing: bool)
    requires sc.Scan? && Partitions(sc, ms)
    ensures Partitions(CloseIf(sc, closing), ms)
  {
    FlattenSnoc(sc.closed, sc.open);
    assert Flatten(sc.closed + [sc.open]) + [] == Flatten(sc.closed) + sc.open;
  }

  lemma PlacePartitions(sc: Scan, ms: seq<Message>, m: Message)
    requires sc.Scan? && Partitions(sc, ms)
    requires Place(sc, Entry(|ms|, m)).Scan?
    ensures Partitions(Place(sc, Entry(|ms|, m)), ms + [m])
  {
    assert (ms + [m])[..|ms|] == ms;
    assert EntriesWhere(ms, false) + [] == EntriesWhere(ms, false);
    assert EntriesWhere(ms, true) + [] == EntriesWhere(ms, true);
    assert Flatten(sc.closed) + (sc.open + [Entry(|ms|, m)])
        == (Flatten(sc.closed) + sc.open) + [Entry(|ms|, m)];
  }

  lemma GroupsPartition(sc: Scan, ms: seq<Message>)
    requires sc.Scan? && Partitions(sc, ms)
    ensures Flatten(Groups(sc)) == EntriesWhere(ms, false) && NonEmpty(Groups(sc))
  {
    hide EntriesWhere;
    FlattenSnoc(sc.closed, sc.open);
    assert Flatten(sc.closed) + [] == Flatten(sc.closed);
  }

  lemma ScanLast(ms: seq<Message>, requestStart: nat)
    requires |ms| > 0 && ScanOf(ms, requestStart).Scan?
    ensures var n := |ms| - 1;
            var before := ScanOf(ms[..n], requestStart);
            && before.Scan?
            && ScanOf(ms, requestStart) == Place(CloseIf(before, Starts(ms[n], n, requestStart)), Entry(n, ms[n]))
  {
    hide Place, CloseIf, Starts;
  }

  lemma NothingPartitions(ms: seq<Message>, requestStart: nat)
    requires ms == []
    ensures ScanOf(ms, requestStart).Scan? && Partitions(ScanOf(ms, requestStart), ms)
  {
  }

  lemma OnePartitions(before: Scan, ms: seq<Message>, m: Message, closing: bool)
    requires before.Scan? && Partitions(before, ms)
    requires Place(CloseIf(before, closing), Entry(|ms|, m)).Scan?
    ensures Partitions(Place(CloseIf(before, closing), Entry(|ms|, m)), ms + [m])
  {
    hide Partitions, Place;
    ClosePartitions(before, ms, closing);
    PlacePartitions(CloseIf(before, closing), ms, m);
  }

  /** Every message is either a system entry or in exactly one group, and the groups, laid end to
      end, are the non-system messages in their original order. */
  lemma {:induction false} ScanPartitions(ms: seq<Message>, requestStart: nat)
    requires ScanOf(ms, requestStart).Scan?
    ensures Partitions(ScanOf(ms, requestStart), ms)
    ensures Flatten(Groups(ScanOf(ms, requestStart))) == EntriesWhere(ms, false)
    ensures NonEmpty(Groups(ScanOf(ms, requestStart)))
  {
    hide ScanOf, Partitions, CloseIf, Place, Starts, NonEmpty, Groups, EntriesWhere, Flatten;
    if ms == [] {
      NothingPartitions(ms, requestStart);
    } else {
      var n := |ms| - 1;
      ScanLast(ms, requestStart);
      ScanPartitions(ms[..n], requestStart);
      assert ms[..n] + [ms[n]] == ms;
      OnePartitions(ScanOf(ms[..n], requestStart), ms[..n], ms[n], Starts(ms[n], n, requestStart));
    }
    GroupsPartition(ScanOf(ms, requestStart), ms);
  }

  /** Whatever was scanned before a message that did not stop the scan, had not stopped it either. */
  lemma {:induction false} PrefixScans(ms: seq<Message>, n: nat, requestStart: nat)
    requires n <= |ms|
    requires ScanOf(ms, requestStart).Scan?
    ensures ScanOf(ms[..n], requestStart).Scan?
    ensures forall m | m in ms :: m.encoding.Encoded?
  {
    if n == |ms| { assert ms[..n] == ms; }
    if |ms| > 0 {
      var k := |ms| - 1;
      if n < |ms| { assert ms[..k][..n] == ms[..n]; }
      PrefixScans(ms[..k], if n <= k then n else k, requestStart);
    }
  }

  // ----- the mandatory groups are the newest ones -----

  lemma {:induction false} MandatoryAreNewest(gs: seq<Group>, requestStart: nat)
    requires NonEmpty(gs) && Increasing(Flatten(gs))
    ensures OptionalOf(gs, requestStart) + MandatoryOf(gs, requestStart) == gs
  {
    if |gs| > 0 {
      var init, last := gs[..|gs| - 1], gs[|gs| - 1];
      assert init + [last] == gs;
      assert forall i | 0 <= i < |Flatten(init)| :: Flatten(init)[i] == Flatten(gs)[i];
      MandatoryAreNewest(init, requestStart);
      if MandatoryOf(init, requestStart) != [] {
        LateEntry(init, requestStart);
        var j :| 0 <= j < |Flatten(init)| && Flatten(init)[j].index >= requestStart;
        assert Flatten(gs)[|Flatten(init)|] == last[0];
        assert Flatten(gs)[j] == Flatten(init)[j];
        assert last[0].index >= requestStart;
      }
    }
  }

  lemma {:induction false} LateEntry(gs: seq<Group>, requestStart: nat)
    requires MandatoryOf(gs, requestStart) != []
    ensures exists j | 0 <= j < |Flatten(gs)| :: Flatten(gs)[j].index >= requestStart
  {
    var init, last := gs[..|gs| - 1], gs[|gs| - 1];
    if Mandatory(last, requestStart) {
      var k :| 0 <= k < |last| && last[k].index >= requestStart;
      assert Flatten(gs)[|Flatten(init)| + k] == last[k];
    } else {
      LateEntry(init, requestStart);
      var j :| 0 <= j < |Flatten(init)| && Flatten(init)[j].index >= requestStart;
      assert Flatten(gs)[j] == Flatten(init)[j];
    }
  }

  lemma {:induction false} OptionalEntriesEarly(gs: seq<Group>, requestStart: nat)
    ensures forall e | e in Flatten(OptionalOf(gs, requestStart)) :: e.index < requestStart
  {
    if |gs| > 0 {
      OptionalEntriesEarly(gs[..|gs| - 1], requestStart);
      var last := gs[|gs| - 1];
      FlattenSnoc(OptionalOf(gs[..|gs| - 1], requestStart), last);
    }
  }

  lemma {:induction false} FilterSnoc(gs: seq<Group>, g: Group, requestStart: nat)
    ensures MandatoryOf(gs + [g], requestStart)
         == MandatoryOf(gs, requestStart) + (if Mandatory(g, requestStart) then [g] else [])
    ensures OptionalOf(gs + [g], requestStart)
         == OptionalOf(gs, requestStart) + (if Mandatory(g, requestStart) then [] else [g])
  {
    assert (gs + [g])[..|gs|] == gs;
  }

  // ----- DropCount is the least count that fits -----

  lemma {:induction false} TailAppend(gs: seq<Group>, g: Group, d: nat)
    requires d <= |gs|
    ensures TailCost(gs + [g], d) == TailCost(gs, d) + Cost(g)
    decreases |gs| - d
  {
    if d < |gs| { TailAppend(gs, g, d + 1); }
  }

  lemma {:induction false} TailIsFlat(gs: seq<Group>, d: nat)
    requires d <= |gs|
    ensures TailCost(gs, d) == Cost(Flatten(gs[d..]))
    decreases |gs| - d
  {
    if d < |gs| {
      FlattenTail(gs, d);
      CostConcat(gs[d], Flatten(gs[d + 1..]));
      TailIsFlat(gs, d + 1);
    }
  }

  lemma FlattenTail(gs: seq<Group>, d: nat)
    requires d < |gs|
    ensures Flatten(gs[d..]) == gs[d] + Flatten(gs[d + 1..])
  {
    assert gs[d..] == [gs[d]] + gs[d + 1..];
    FlattenConcat([gs[d]], gs[d + 1..]);
    FlattenOne(gs[d]);
  }

  lemma {:induction false} TailMonotone(gs: seq<Group>, i: nat, j: nat)
    requires i <= j
    ensures TailCost(gs, j) <= TailCost(gs, i)
    decreases j - i
  {
    if i < j { TailMonotone(gs, i + 1, j); }
  }

  lemma {:induction false} DropFromLeast(optional: seq<Group>, d: nat, base: nat, budget: Budget)
    requires d <= |optional|
    ensures var k := DropFrom(optional, d, base, budget);
            && (k < |optional| ==> Fits(base + TailCost(optional, k), budget))
            && (forall j | d <= j < k :: !Fits(base + TailCost(optional, j), budget))
    decreases |optional| - d
  {
    if d < |optional| && !Fits(base + TailCost(optional, d), budget) {
      DropFromLeast(optional, d + 1, base, budget);
    }
  }

  /** `d` is the drop count as soon as dropping `d` fits and dropping one fewer does not. */
  lemma DropCountIs(optional: seq<Group>, base: nat, budget: Budget, d: nat)
    requires d <= |optional|
    requires d < |optional| ==> Fits(base + TailCost(optional, d), budget)
    requires d > 0 ==> !Fits(base + TailCost(optional, d - 1), budget)
    ensures DropCount(optional, base, budget) == d
  {
    var k := DropCount(optional, base, budget);
    DropFromLeast(optional, 0, base, budget);
    if k < d {
      TailMonotone(optional, k, d - 1);
    }
  }

  // ----- picking by index -----

  lemma {:induction false} PickSame(ms: seq<Message>, a: set<nat>, b: set<nat>)
    requires forall i | 0 <= i < |ms| :: i in a <==> i in b
    ensures Pick(ms, a) == Pick(ms, b)
  {
    if |ms| > 0 { PickSame(ms[..|ms| - 1], a, b); }
  }

  function MessagesOf(es: seq<Entry>): seq<Message> {
    if |es| == 0 then [] else MessagesOf(es[..|es| - 1]) + [es[|es| - 1].message]
  }

  /** Entries that end at the last message are its own and those before it. */
  lemma EndsAtLast(ms: seq<Message>, es: seq<Entry>)
    requires Increasing(es) && From(es, ms) && es != [] && es[|es| - 1].index == |ms| - 1
    ensures var n, init := |ms| - 1, es[..|es| - 1];
            && Increasing(init) && From(init, ms[..n])
            && n in Indices(es) && es[|es| - 1].message == ms[n]
            && forall i | 0 <= i < n :: i in Indices(es) <==> i in Indices(init)
  {
    var n, init := |ms| - 1, es[..|es| - 1];
    assert forall k | 0 <= k < |init| :: init[k] == es[k];
    assert es[|es| - 1] in es;
    forall i | 0 <= i < n ensures i in Indices(es) <==> i in Indices(init) {
      if i in Indices(es) {
        var e :| e in es && e.index == i;
        assert e in init;
      }
      if i in Indices(init) {
        var e :| e in init && e.index == i;
        assert e in es;
      }
    }
  }

  lemma EndsEarlier(ms: seq<Message>, es: seq<Entry>)
    requires Increasing(es) && From(es, ms) && |ms| > 0 && (es == [] || es[|es| - 1].index != |ms| - 1)
    ensures From(es, ms[..|ms| - 1]) && |ms| - 1 !in Indices(es)
  {
    forall e | e in es ensures e.index < |ms| - 1 {
      var k :| 0 <= k < |es| && es[k] == e;
      assert es[k].index <= es[|es| - 1].index < |ms|;
    }
    assert forall k | 0 <= k < |es| :: es[k] in es;
  }

  /** Entries in increasing order of index are exactly what their indices pick. */
  lemma {:induction false} PickIncreasing(ms: seq<Message>, es: seq<Entry>)
    requires Increasing(es) && From(es, ms)
    ensures Pick(ms, Indices(es)) == MessagesOf(es)
  {
    if |ms| == 0 {
      assert es == [];
    } else {
      hide Increasing, From, Indices;
      var n := |ms| - 1;
      if es != [] && es[|es| - 1].index == n {
        EndsAtLast(ms, es);
        PickIncreasing(ms[..n], es[..|es| - 1]);
        PickSame(ms[..n], Indices(es), Indices(es[..|es| - 1]));
      } else {
        EndsEarlier(ms, es);
        PickIncreasing(ms[..n], es);
      }
    }
  }
}
