/** The materialized selector: one pass over the whole list, then a greedy walk from the newest
    group, working on indices. */
module ContextSelect {
  import opened Messages
  import opened ContextSpec
  import opened ContextFacts

  /** Follow a message's parts, opening and closing tool exchanges. */
  method TrackParts(before: set<string>, parts: seq<Part>) returns (exchange: Exchange)
    ensures exchange == Consume(before, parts)
  {
    var pending := before;
    for i := 0 to |parts|
      invariant Consume(before, parts) == Consume(pending, parts[i..])
    {
      match parts[i]
      case TextPart(_) =>
      case ToolCallPart(call) =>
        if call.id in pending { return Broken(AmbiguousExchange); }
        pending := pending + {call.id};
      case ToolResultPart(callId, _) =>
        if callId !in pending { return Broken(UnmatchedResult); }
        pending := pending - {callId};
    }
    exchange := Pending(pending);
  }

  // ----- index views of a scan -----

  ghost function IndexGroup(g: Group): seq<nat> { seq(|g|, i requires 0 <= i < |g| => g[i].index) }

  ghost function IndexGroups(gs: seq<Group>): seq<seq<nat>> {
    seq(|gs|, k requires 0 <= k < |gs| => IndexGroup(gs[k]))
  }

  ghost function SizesOf(ms: seq<Message>): seq<nat> {
    seq(|ms|, i requires 0 <= i < |ms| => Size(ms[i]))
  }

  lemma IndexGroupSnoc(g: Group, e: Entry)
    ensures IndexGroup(g + [e]) == IndexGroup(g) + [e.index]
  {
  }

  lemma IndexGroupsSnoc(gs: seq<Group>, g: Group)
    ensures IndexGroups(gs + [g]) == IndexGroups(gs) + [IndexGroup(g)]
  {
  }

  lemma SizesSnoc(ms: seq<Message>, n: nat)
    requires n < |ms|
    ensures SizesOf(ms[..n + 1]) == SizesOf(ms[..n]) + [Size(ms[n])]
  {
  }

  lemma IndicesSnoc(es: seq<Entry>, e: Entry)
    ensures Indices(es + [e]) == Indices(es) + {e.index}
  {
    assert forall x :: x in es + [e] <==> x in es || x == e;
  }

  datatype Scanned =
    | Grouped(groups: seq<seq<nat>>, protected: set<nat>, sizes: seq<nat>)
    | Malformed(error: Error)

  ghost predicate Reflects(r: Scanned, ms: seq<Message>, requestStart: nat) {
    var sc := ScanOf(ms, requestStart);
    match r
    case Malformed(error) =>
      if sc.Stopped? then error == sc.error else sc.pending != {} && error == IncompleteExchange
    case Grouped(groups, protected, sizes) =>
      && sc.Scan? && sc.pending == {}
      && groups == IndexGroups(Groups(sc))
      && protected == Indices(sc.systems)
      && sizes == SizesOf(ms)
  }

  lemma {:induction false} StoppedStays(ms: seq<Message>, n: nat, requestStart: nat)
    requires n <= |ms| && ScanOf(ms[..n], requestStart).Stopped?
    ensures ScanOf(ms, requestStart) == ScanOf(ms[..n], requestStart)
  {
    if n < |ms| {
      var init := ms[..|ms| - 1];
      assert init[..n] == ms[..n];
      StoppedStays(init, n, requestStart);
    } else {
      assert ms[..n] == ms;
    }
  }

  lemma ScanNext(ms: seq<Message>, n: nat, requestStart: nat)
    requires n < |ms|
    ensures ScanOf(ms[..n + 1], requestStart)
         == Step(ScanOf(ms[..n], requestStart), ms[n], n, requestStart)
  {
    assert ms[..n + 1][..n] == ms[..n];
  }

  /** The grouping pass: sizes, protected system messages and complete groups, or the first error. */
  method ScanMessages(messages: seq<Message>, requestStart: nat) returns (r: Scanned)
    requires requestStart <= |messages|
    ensures Reflects(r, messages, requestStart)
  {
    var groups: seq<seq<nat>> := [];
    var group: seq<nat> := [];
    var pending: set<string> := {};
    var protected: set<nat> := {};
    var sizes: seq<nat> := [];
    ghost var sc := ScanOf([], requestStart);
    for index := 0 to |messages|
      invariant sc == ScanOf(messages[..index], requestStart) && sc.Scan?
      invariant groups == IndexGroups(sc.closed) && group == IndexGroup(sc.open)
      invariant pending == sc.pending && protected == Indices(sc.systems)
      invariant sizes == SizesOf(messages[..index])
    {
      var message := messages[index];
      ScanNext(messages, index, requestStart);
      if message.encoding.Unencodable? {
        StoppedStays(messages, index + 1, requestStart);
        return Malformed(EncodingFailed(message.encoding.reason));
      }
      SizesSnoc(messages, index);
      IndexGroupsSnoc(sc.closed, sc.open);
      sizes := sizes + [|message.encoding.bytes|];
      if (message.role.User? || index == requestStart) && pending == {} && group != [] {
        groups := groups + [group];
        group := [];
      }
      sc := CloseIf(sc, Starts(message, index, requestStart));
      if message.role.System? {
        IndicesSnoc(sc.systems, Entry(index, message));
        protected := protected + {index};
        sc := Place(sc, Entry(index, message));
        continue;
      }
      IndexGroupSnoc(sc.open, Entry(index, message));
      group := group + [index];
      var exchange := TrackParts(pending, message.content);
      sc := Place(sc, Entry(index, message));
      if exchange.Broken? {
        StoppedStays(messages, index + 1, requestStart);
        return Malformed(exchange.error);
      }
      pending := exchange.calls;
    }
    assert messages[..|messages|] == messages;
    if pending != {} { return Malformed(IncompleteExchange); }
    IndexGroupsSnoc(sc.closed, sc.open);
    if group != [] { groups := groups + [group]; }
    r := Grouped(groups, protected, sizes);
  }

  function Range(lo: nat, hi: nat): (r: set<nat>)
    ensures forall i :: i in r <==> lo <= i < hi
    decreases hi - lo
  {
    if lo >= hi then {} else {lo} + Range(lo + 1, hi)
  }

  // ----- counting bytes over a set of indices -----

  ghost predicate Within(chosen: set<nat>, n: nat) { forall i | i in chosen :: i < n }

  lemma {:induction false} PickSize(ms: seq<Message>, chosen: set<nat>)
    requires Within(chosen, |ms|)
    ensures |Pick(ms, chosen)| == |chosen|
  {
    if |ms| == 0 {
      assert chosen == {};
    } else {
      var n := |ms| - 1;
      PickSize(ms[..n], chosen - {n});
      PickSame(ms[..n], chosen, chosen - {n});
    }
  }

  lemma {:induction false} PickOneMore(ms: seq<Message>, chosen: set<nat>, i: nat)
    requires i < |ms| && i !in chosen
    ensures MessageCost(Pick(ms, chosen + {i})) == MessageCost(Pick(ms, chosen)) + 1 + Size(ms[i])
  {
    var n := |ms| - 1;
    PickCostStep(ms, chosen);
    PickCostStep(ms, chosen + {i});
    if i == n {
      PickSame(ms[..n], chosen, chosen + {i});
    } else {
      PickOneMore(ms[..n], chosen, i);
    }
  }

  lemma PickCostStep(ms: seq<Message>, chosen: set<nat>)
    requires |ms| > 0
    ensures MessageCost(Pick(ms, chosen)) == MessageCost(Pick(ms[..|ms| - 1], chosen))
              + (if |ms| - 1 in chosen then 1 + Size(ms[|ms| - 1]) else 0)
  {
    var p := Pick(ms[..|ms| - 1], chosen);
    assert (p + [ms[|ms| - 1]])[..|p|] == p;
    assert p + [] == p;
  }

  ghost predicate Distinct(es: seq<Entry>) {
    forall i, j | 0 <= i < j < |es| :: es[i].index != es[j].index
  }

  /** Entries with distinct indices cost what their indices pick. */
  lemma {:induction false} CostOfIndices(ms: seq<Message>, es: seq<Entry>)
    requires From(es, ms) && Distinct(es)
    ensures MessageCost(Pick(ms, Indices(es))) == Cost(es)
  {
    if es == [] {
      PickSize(ms, {});
      assert Indices(es) == {};
    } else {
      hide Cost, Pick, MessageCost, From, Distinct, Indices;
      var init, last := es[..|es| - 1], es[|es| - 1];
      LastIsApart(ms, es);
      CostOfIndices(ms, init);
      assert init + [last] == es;
      CostSnoc(init, last);
      PickOneMore(ms, Indices(init), last.index);
    }
  }

  lemma LastIsApart(ms: seq<Message>, es: seq<Entry>)
    requires From(es, ms) && Distinct(es) && es != []
    ensures var init, last := es[..|es| - 1], es[|es| - 1];
            && From(init, ms) && Distinct(init)
            && last.index < |ms| && ms[last.index] == last.message
            && last.index !in Indices(init) && Indices(es) == Indices(init) + {last.index}
  {
    var init, last := es[..|es| - 1], es[|es| - 1];
    assert forall k | 0 <= k < |init| :: init[k] == es[k];
    IndicesSnoc(init, last);
    assert init + [last] == es;
  }

  lemma IndicesConcat(a: seq<Entry>, b: seq<Entry>)
    ensures Indices(a + b) == Indices(a) + Indices(b)
  {
    assert forall x :: x in a + b <==> x in a || x in b;
  }

  method ByteCount(sizes: seq<nat>, indices: set<nat>, ghost ms: seq<Message>) returns (bytes: nat)
    requires sizes == SizesOf(ms) && Within(indices, |ms|)
    ensures bytes == ArrayBytes(MessageCost(Pick(ms, indices)))
  {
    var sum := 0;
    for i := 0 to |sizes|
      invariant sum + |Pick(ms[..i], indices)| == MessageCost(Pick(ms[..i], indices))
    {
      assert ms[..i + 1][..i] == ms[..i];
      PickCostStep(ms[..i + 1], indices);
      if i in indices { sum := sum + sizes[i]; }
    }
    assert ms[..|sizes|] == ms;
    PickSize(ms, indices);
    var separators := if |indices| > 0 then |indices| - 1 else 0;
    bytes := 2 + sum + separators;
    CostAtLeastOne(Pick(ms, indices));
  }

  lemma CostAtLeastOne(ms: seq<Message>)
    ensures MessageCost(ms) == 0 <==> ms == []
  {
  }

  // ----- what a finished scan says about its index groups -----

  /** The scan of a complete, well-formed list, and the facts the greedy walk needs about it. */
  ghost predicate Complete(sc: Scan, ms: seq<Message>, requestStart: nat) {
    && requestStart <= |ms|
    && sc == ScanOf(ms, requestStart)
    && sc.Scan?
  }

  lemma GroupEntries(ms: seq<Message>, requestStart: nat, sc: Scan)
    requires Complete(sc, ms, requestStart)
    ensures Increasing(Flatten(Groups(sc))) && From(Flatten(Groups(sc)), ms)
    ensures forall e | e in Flatten(Groups(sc)) :: !e.message.role.System?
    ensures Increasing(sc.systems) && From(sc.systems, ms)
    ensures forall e | e in sc.systems :: e.message.role.System?
    ensures OptionalOf(Groups(sc), requestStart) + MandatoryOf(Groups(sc), requestStart) == Groups(sc)
    ensures Flatten(OptionalOf(Groups(sc), requestStart)) + Flatten(MandatoryOf(Groups(sc), requestStart))
         == Flatten(Groups(sc))
  {
    ScanPartitions(ms, requestStart);
    EntriesWhereFacts(ms, true);
    EntriesWhereFacts(ms, false);
    MandatoryAreNewest(Groups(sc), requestStart);
    FlattenConcat(OptionalOf(Groups(sc), requestStart), MandatoryOf(Groups(sc), requestStart));
  }

  lemma RotatedDistinct(dropped: seq<Entry>, kept: seq<Entry>, must: seq<Entry>)
    requires Increasing(dropped + kept + must)
    ensures Distinct(must + kept)
  {
    var all := dropped + kept + must;
    assert forall i | 0 <= i < |kept| :: kept[i] == all[|dropped| + i];
    assert forall i | 0 <= i < |must| :: must[i] == all[|dropped| + |kept| + i];
  }

  lemma ApartDistinct(a: seq<Entry>, b: seq<Entry>, ms: seq<Message>)
    requires Distinct(a) && Distinct(b) && From(a, ms) && From(b, ms)
    requires forall k | 0 <= k < |a| :: a[k].message.role.System?
    requires forall k | 0 <= k < |b| :: !b[k].message.role.System?
    ensures Distinct(a + b) && From(a + b, ms)
  {
    forall i, j | 0 <= i < j < |a + b| ensures (a + b)[i].index != (a + b)[j].index {
      if i < |a| <= j { assert a[i].message != b[j - |a|].message; }
    }
  }

  /** Any system entries, mandatory groups and newest optional groups have distinct indices. */
  lemma PartsDistinct(ms: seq<Message>, requestStart: nat, sc: Scan, d: nat)
    requires Complete(sc, ms, requestStart)
    requires d <= |OptionalOf(Groups(sc), requestStart)|
    ensures var es := Required(sc, requestStart) + Flatten(OptionalOf(Groups(sc), requestStart)[d..]);
            Distinct(es) && From(es, ms)
  {
    hide ScanOf, OptionalOf, MandatoryOf, Groups, Flatten, Increasing;
    GroupEntries(ms, requestStart, sc);
    var optional, mandatory := OptionalOf(Groups(sc), requestStart), MandatoryOf(Groups(sc), requestStart);
    assert optional == optional[..d] + optional[d..];
    FlattenConcat(optional[..d], optional[d..]);
    var dropped, kept, must := Flatten(optional[..d]), Flatten(optional[d..]), Flatten(mandatory);
    assert dropped + kept + must == Flatten(Groups(sc));
    RotatedDistinct(dropped, kept, must);
    forall k | 0 <= k < |must + kept|
      ensures (must + kept)[k] in Flatten(Groups(sc))
    {
      assert (must + kept)[k] in dropped + kept + must;
    }
    ApartDistinct(sc.systems, must + kept, ms);
    assert sc.systems + (must + kept) == Required(sc, requestStart) + kept;
  }

  /** The request and whatever it touches are already covered by the system entries and the
      mandatory groups. */
  lemma RequestCovered(ms: seq<Message>, requestStart: nat, sc: Scan, i: nat)
    requires Complete(sc, ms, requestStart)
    requires requestStart <= i < |ms|
    ensures i in Indices(Required(sc, requestStart))
  {
    var e := Entry(i, ms[i]);
    ScanPartitions(ms, requestStart);
    EntriesWhereFacts(ms, true);
    EntriesWhereFacts(ms, false);
    GroupEntries(ms, requestStart, sc);
    OptionalEntriesEarly(Groups(sc), requestStart);
    var gs := Groups(sc);
    var required := Required(sc, requestStart);
    assert e in EntriesWhere(ms, ms[i].role.System?);
    if !ms[i].role.System? {
      assert e in Flatten(OptionalOf(gs, requestStart)) + Flatten(MandatoryOf(gs, requestStart));
    }
    assert e in required;
  }

  lemma MandatoryTail(ms: seq<Message>, requestStart: nat, sc: Scan, k: nat)
    requires Complete(sc, ms, requestStart)
    requires k < |Groups(sc)|
    ensures Mandatory(Groups(sc)[k], requestStart) <==> k >= |OptionalOf(Groups(sc), requestStart)|
  {
    GroupEntries(ms, requestStart, sc);
    var gs := Groups(sc);
    OptionalAreOptional(gs, requestStart);
    var optional, mandatory := OptionalOf(gs, requestStart), MandatoryOf(gs, requestStart);
    if k < |optional| { assert gs[k] == optional[k]; } else { assert gs[k] == mandatory[k - |optional|]; }
  }

  lemma {:induction false} OptionalAreOptional(gs: seq<Group>, requestStart: nat)
    ensures forall k | 0 <= k < |OptionalOf(gs, requestStart)| ::
              !Mandatory(OptionalOf(gs, requestStart)[k], requestStart)
    ensures forall k | 0 <= k < |MandatoryOf(gs, requestStart)| ::
              Mandatory(MandatoryOf(gs, requestStart)[k], requestStart)
  {
    if |gs| > 0 { OptionalAreOptional(gs[..|gs| - 1], requestStart); }
  }

  // ----- protecting the mandatory groups -----

  /** Add every mandatory group to the protected messages and the request. */
  method Protect(groups: seq<seq<nat>>, mandatory: set<nat>, base: set<nat>) returns (selected: set<nat>)
    ensures forall i :: i in selected <==>
              i in base || exists k | 0 <= k < |groups| :: k in mandatory && i in groups[k]
  {
    selected := base;
    for index := 0 to |groups|
      invariant forall i :: i in selected <==>
                  i in base || exists k | 0 <= k < index :: k in mandatory && i in groups[k]
    {
      if index in mandatory {
        selected := selected + set i | i in groups[index];
      }
    }
  }

  lemma InIndices(es: seq<Entry>, e: Entry)
    requires e in es
    ensures e.index in Indices(es)
  {
  }

  /** A group touches the protected messages or the request exactly when it holds a request message. */
  lemma TouchesRequest(ms: seq<Message>, requestStart: nat, sc: Scan, k: nat, base: set<nat>)
    requires Complete(sc, ms, requestStart) && k < |Groups(sc)|
    requires base == Indices(sc.systems) + Range(requestStart, |ms|)
    ensures (exists i | i in IndexGroup(Groups(sc)[k]) :: i in base)
        <==> Mandatory(Groups(sc)[k], requestStart)
  {
    GroupEntries(ms, requestStart, sc);
    var g := Groups(sc)[k];
    forall j | 0 <= j < |g|
      ensures g[j].index < |ms| && g[j].index !in Indices(sc.systems)
    {
      InFlatten(Groups(sc), k, g[j]);
      var all := Flatten(Groups(sc));
      var p :| 0 <= p < |all| && all[p] == g[j];
    }
    if Mandatory(g, requestStart) {
      var j :| 0 <= j < |g| && g[j].index >= requestStart;
      assert IndexGroup(g)[j] in base;
    }
    if i :| i in IndexGroup(g) && i in base {
      var j :| 0 <= j < |g| && IndexGroup(g)[j] == i;
      assert g[j].index >= requestStart;
    }
  }

  lemma InMandatory(ms: seq<Message>, requestStart: nat, sc: Scan, k: nat, i: nat)
    requires Complete(sc, ms, requestStart) && k < |Groups(sc)|
    requires Mandatory(Groups(sc)[k], requestStart) && i in IndexGroup(Groups(sc)[k])
    ensures i in Indices(Flatten(MandatoryOf(Groups(sc), requestStart)))
  {
    GroupEntries(ms, requestStart, sc);
    MandatoryTail(ms, requestStart, sc, k);
    hide ScanOf, Groups, MandatoryOf, OptionalOf, Mandatory, Flatten, From, Increasing;
    var must, first := MandatoryOf(Groups(sc), requestStart), |OptionalOf(Groups(sc), requestStart)|;
    var g := Groups(sc)[k];
    var j :| 0 <= j < |g| && IndexGroup(g)[j] == i;
    assert g == must[k - first];
    InFlatten(must, k - first, g[j]);
  }

  lemma FromMandatory(ms: seq<Message>, requestStart: nat, sc: Scan, i: nat) returns (k: nat)
    requires Complete(sc, ms, requestStart) && i in Indices(Flatten(MandatoryOf(Groups(sc), requestStart)))
    ensures k < |Groups(sc)| && Mandatory(Groups(sc)[k], requestStart) && i in IndexGroup(Groups(sc)[k])
  {
    GroupEntries(ms, requestStart, sc);
    var must, first := MandatoryOf(Groups(sc), requestStart), |OptionalOf(Groups(sc), requestStart)|;
    var e :| e in Flatten(must) && e.index == i;
    hide ScanOf, Groups, MandatoryOf, OptionalOf, Mandatory, Flatten, From, Increasing;
    var m := FromFlatten(must, e);
    k := first + m;
    assert Groups(sc)[k] == must[m];
    MandatoryTail(ms, requestStart, sc, k);
    var j :| 0 <= j < |must[m]| && must[m][j] == e;
    assert IndexGroup(Groups(sc)[k])[j] == i;
  }

  lemma MandatoryIndices(ms: seq<Message>, requestStart: nat, sc: Scan, i: nat)
    requires Complete(sc, ms, requestStart)
    ensures i in Indices(Flatten(MandatoryOf(Groups(sc), requestStart))) <==>
              exists k | 0 <= k < |Groups(sc)| ::
                Mandatory(Groups(sc)[k], requestStart) && i in IndexGroup(Groups(sc)[k])
  {
    hide ScanOf, Groups, MandatoryOf, OptionalOf, Mandatory, Flatten, Indices, IndexGroup;
    if k :| 0 <= k < |Groups(sc)| && Mandatory(Groups(sc)[k], requestStart) && i in IndexGroup(Groups(sc)[k]) {
      InMandatory(ms, requestStart, sc, k, i);
    }
    if i in Indices(Flatten(MandatoryOf(Groups(sc), requestStart))) {
      var k := FromMandatory(ms, requestStart, sc, i);
    }
  }

  lemma ProtectedIsRequired(ms: seq<Message>, requestStart: nat, sc: Scan, mandatory: set<nat>,
                            base: set<nat>, selected: set<nat>)
    requires Complete(sc, ms, requestStart)
    requires base == Indices(sc.systems) + Range(requestStart, |ms|)
    requires forall k :: k in mandatory <==>
               0 <= k < |Groups(sc)| && Mandatory(Groups(sc)[k], requestStart)
    requires forall i :: i in selected <==>
               i in base || exists k | 0 <= k < |Groups(sc)| ::
                              k in mandatory && i in IndexGroups(Groups(sc))[k]
    ensures selected == Indices(Required(sc, requestStart))
  {
    var gs := Groups(sc);
    IndicesConcat(sc.systems, Flatten(MandatoryOf(gs, requestStart)));
    assert forall k | 0 <= k < |gs| :: IndexGroups(gs)[k] == IndexGroup(gs[k]);
    forall i: nat ensures i in selected <==> i in Indices(Required(sc, requestStart)) {
      MandatoryIndices(ms, requestStart, sc, i);
      if requestStart <= i < |ms| { RequestCovered(ms, requestStart, sc, i); }
    }
  }

  // ----- the greedy walk -----

  method GroupBytes(sizes: seq<nat>, group: seq<nat>, ghost ms: seq<Message>, ghost g: Group)
    returns (bytes: nat)
    requires sizes == SizesOf(ms) && group == IndexGroup(g) && From(g, ms)
    ensures bytes + |group| == Cost(g)
  {
    bytes := 0;
    for i := 0 to |group|
      invariant bytes + i == Cost(g[..i])
    {
      assert g[..i + 1] == g[..i] + [g[i]];
      CostSnoc(g[..i], g[i]);
      bytes := bytes + sizes[group[i]];
    }
    assert g[..|group|] == g;
  }

  /** The state of the walk once optional groups `d..` are in. */
  ghost predicate Walked(required: seq<Entry>, optional: seq<Group>, d: nat, selected: set<nat>,
                         bytes: int)
  {
    && d <= |optional|
    && selected == Indices(required + Flatten(optional[d..]))
    && bytes == ArrayBytes(Cost(required) + TailCost(optional, d))
  }

  lemma {:induction false} IndicesOfGroup(g: Group)
    ensures Indices(g) == set i | i in IndexGroup(g)
  {
    forall i | i in IndexGroup(g) ensures i in Indices(g) {
      var j :| 0 <= j < |g| && IndexGroup(g)[j] == i;
      InIndices(g, g[j]);
    }
    forall i | i in Indices(g) ensures i in IndexGroup(g) {
      var e :| e in g && e.index == i;
      var j :| 0 <= j < |g| && g[j] == e;
      assert IndexGroup(g)[j] == i;
    }
  }

  lemma JoinIndices(required: seq<Entry>, rest: seq<Entry>, g: Group)
    ensures Indices(required + (g + rest)) == Indices(required + rest) + set i | i in IndexGroup(g)
  {
    IndicesConcat(required, rest);
    IndicesConcat(g, rest);
    IndicesConcat(required, g + rest);
    IndicesOfGroup(g);
  }

  lemma EmptyIsFree(es: seq<Entry>)
    ensures Indices(es) == {} <==> Cost(es) == 0
  {
    CostZero(es);
    if es != [] { InIndices(es, es[0]); }
  }

  /** One more group: its indices join the selection, and its bytes and separators the total. */
  lemma WalkStarts(required: seq<Entry>, optional: seq<Group>)
    ensures Walked(required, optional, |optional|, Indices(required), ArrayBytes(Cost(required)))
  {
    assert required + Flatten(optional[|optional|..]) == required;
  }

  lemma WalkOn(required: seq<Entry>, optional: seq<Group>, d: nat, selected: set<nat>, bytes: nat)
    requires d < |optional| && optional[d] != []
    requires Walked(required, optional, d + 1, selected, bytes)
    ensures Walked(required, optional, d, selected + (set i | i in IndexGroup(optional[d])),
                   bytes + Cost(optional[d]) - (if selected != {} then 0 else 1))
  {
    var rest := Flatten(optional[d + 1..]);
    FlattenTail(optional, d);
    TailIsFlat(optional, d + 1);
    CostZero(optional[d]);
    JoinIndices(required, rest, optional[d]);
    EmptyIsFree(required + rest);
    CostConcat(required, rest);
  }

  /** From the newest group backwards, keep optional groups until one does not fit. */
  method Fill(groups: seq<seq<nat>>, sizes: seq<nat>, mandatory: set<nat>, protected: set<nat>,
              protectedBytes: nat, budget: Budget, ghost ms: seq<Message>,
              ghost required: seq<Entry>, ghost optional: seq<Group>)
    returns (selected: set<nat>, bytes: nat, chosen: set<nat>)
    requires sizes == SizesOf(ms) && |optional| <= |groups|
    requires forall k | 0 <= k < |groups| :: k in mandatory <==> k >= |optional|
    requires forall k | 0 <= k < |optional| ::
               groups[k] == IndexGroup(optional[k]) && From(optional[k], ms) && optional[k] != []
    requires protected == Indices(required)
    requires protectedBytes == ArrayBytes(Cost(required)) <= budget
    requires forall k | k in mandatory :: k >= |optional|
    ensures Walked(required, optional, DropCount(optional, Cost(required), budget), selected, bytes)
    ensures |chosen| == |mandatory| + |optional| - DropCount(optional, Cost(required), budget)
  {
    hide Cost, Flatten, DropCount, From, SizesOf, TailCost;
    selected, bytes, chosen := protected, protectedBytes, mandatory;
    ghost var d: nat := |optional|;
    WalkStarts(required, optional);
    var index := |groups|;
    while index > 0
      invariant 0 <= index <= |groups| && d == (if index < |optional| then index else |optional|)
      invariant Walked(required, optional, d, selected, bytes)
      invariant bytes <= budget
      invariant |chosen| == |mandatory| + |optional| - d
      invariant forall k | k in chosen :: k >= d
    {
      index := index - 1;
      if index in mandatory { continue; }
      assert d == index + 1;
      var groupBytes := GroupBytes(sizes, groups[index], ms, optional[index]);
      WalkOn(required, optional, index, selected, bytes);
      var candidate := bytes + groupBytes + |groups[index]| - (if selected != {} then 0 else 1);
      if candidate > budget {
        DropCountIs(optional, Cost(required), budget, d);
        return;
      }
      selected := selected + set i | i in groups[index];
      bytes := candidate;
      chosen := chosen + {index};
      d := index;
    }
    DropCountIs(optional, Cost(required), budget, d);
  }

  lemma GroupIsFrom(ms: seq<Message>, requestStart: nat, sc: Scan, k: nat)
    requires Complete(sc, ms, requestStart) && k < |OptionalOf(Groups(sc), requestStart)|
    ensures var g := OptionalOf(Groups(sc), requestStart)[k];
            From(g, ms) && g != [] && k < |Groups(sc)| && Groups(sc)[k] == g
  {
    GroupEntries(ms, requestStart, sc);
    ScanPartitions(ms, requestStart);
    var g := Groups(sc)[k];
    var all := Flatten(Groups(sc));
    forall j | 0 <= j < |g| ensures g[j].index < |ms| && ms[g[j].index] == g[j].message {
      InFlatten(Groups(sc), k, g[j]);
      var p :| 0 <= p < |all| && all[p] == g[j];
    }
  }

  // ----- the whole selection -----

  lemma {:induction false} MandatoryCount(gs: seq<Group>, requestStart: nat, mandatory: set<nat>)
    requires forall k :: k in mandatory <==> 0 <= k < |gs| && Mandatory(gs[k], requestStart)
    ensures |mandatory| + |OptionalOf(gs, requestStart)| == |gs|
  {
    if |gs| == 0 {
      assert mandatory == {};
    } else {
      var n := |gs| - 1;
      assert forall k | 0 <= k < n :: gs[..n][k] == gs[k];
      MandatoryCount(gs[..n], requestStart, mandatory - {n});
    }
  }

  method CountMissing(n: nat, selected: set<nat>) returns (count: nat)
    ensures count == Missing(n, selected)
  {
    count := 0;
    for index := 0 to n
      invariant count == Missing(index, selected)
    {
      if index !in selected { count := count + 1; }
    }
  }

  method Gather(messages: seq<Message>, selected: set<nat>) returns (picked: seq<Message>)
    ensures picked == Pick(messages, selected)
  {
    picked := [];
    for index := 0 to |messages|
      invariant picked == Pick(messages[..index], selected)
    {
      assert messages[..index + 1][..index] == messages[..index];
      if index in selected { picked := picked + [messages[index]]; }
    }
    assert messages[..|messages|] == messages;
  }

  lemma {:induction false} PickAll(ms: seq<Message>, chosen: set<nat>)
    requires forall i | 0 <= i < |ms| :: i in chosen
    ensures Pick(ms, chosen) == ms
  {
    if |ms| > 0 { PickAll(ms[..|ms| - 1], chosen); }
  }

  /** The optional groups come first, and their index groups say exactly what they hold. */
  lemma OptionalView(ms: seq<Message>, requestStart: nat, sc: Scan, mandatory: set<nat>)
    requires Complete(sc, ms, requestStart)
    requires forall k :: k in mandatory <==>
               0 <= k < |Groups(sc)| && Mandatory(Groups(sc)[k], requestStart)
    ensures var optional := OptionalOf(Groups(sc), requestStart);
            && |optional| + |mandatory| == |Groups(sc)|
            && (forall k | 0 <= k < |Groups(sc)| :: k in mandatory <==> k >= |optional|)
            && (forall k | 0 <= k < |optional| ::
                  Groups(sc)[k] == optional[k] && From(optional[k], ms) && optional[k] != [])
  {
    var optional := OptionalOf(Groups(sc), requestStart);
    MandatoryCount(Groups(sc), requestStart, mandatory);
    forall k | 0 <= k < |Groups(sc)| ensures k in mandatory <==> k >= |optional| {
      MandatoryTail(ms, requestStart, sc, k);
    }
    forall k | 0 <= k < |optional|
      ensures Groups(sc)[k] == optional[k] && From(optional[k], ms) && optional[k] != []
    {
      GroupIsFrom(ms, requestStart, sc, k);
    }
  }

  /** The mandatory groups, and everything the budget must hold whatever else it drops. */
  method ProtectRequest(messages: seq<Message>, requestStart: nat, groups: seq<seq<nat>>,
                        protected: set<nat>, ghost sc: Scan)
    returns (mandatory: set<nat>, selected: set<nat>)
    requires Complete(sc, messages, requestStart)
    requires groups == IndexGroups(Groups(sc)) && protected == Indices(sc.systems)
    ensures forall k :: k in mandatory <==>
              0 <= k < |Groups(sc)| && Mandatory(Groups(sc)[k], requestStart)
    ensures selected == Indices(Required(sc, requestStart))
  {
    var base := protected + Range(requestStart, |messages|);
    mandatory := set k | 0 <= k < |groups| && exists i | i in groups[k] :: i in base;
    forall k | 0 <= k < |groups| ensures k in mandatory <==> Mandatory(Groups(sc)[k], requestStart) {
      TouchesRequest(messages, requestStart, sc, k, base);
    }
    selected := Protect(groups, mandatory, base);
    ProtectedIsRequired(messages, requestStart, sc, mandatory, base, selected);
  }

  /** Everything selection does after grouping: protect, count, fill, and account. */
  method Arrange(messages: seq<Message>, requestStart: nat, groups: seq<seq<nat>>,
                 protected: set<nat>, sizes: seq<nat>, budget: Budget, ghost sc: Scan)
    returns (outcome: Outcome)
    requires Complete(sc, messages, requestStart)
    requires groups == IndexGroups(Groups(sc)) && protected == Indices(sc.systems)
    requires sizes == SizesOf(messages)
    ensures outcome == if !Fits(Cost(Required(sc, requestStart)), budget)
                       then Rejected(BudgetExceeded)
                       else Selected(Accounted(messages, requestStart, budget))
  {
    hide ScanOf, OptionalOf, MandatoryOf, Mandatory, Flatten, Cost, Pick, MessageCost, DropCount, Walked, From;
    hide Required, Kept, Chosen, Indices, Missing, Groups;
    var mandatory, selected := ProtectRequest(messages, requestStart, groups, protected, sc);
    ghost var required := Required(sc, requestStart);
    CostOfRequired(messages, requestStart, sc);
    var bytes := ByteCount(sizes, selected, messages);
    if bytes > budget { return Rejected(BudgetExceeded); }

    OptionalView(messages, requestStart, sc, mandatory);
    var chosen;
    ghost var optional := OptionalOf(Groups(sc), requestStart);
    selected, bytes, chosen := Fill(groups, sizes, mandatory, selected, bytes, budget, messages,
                                    required, optional);
    WalkedIsChosen(sc, requestStart, budget, DropCount(optional, Cost(required), budget), selected, bytes);
    outcome := Account(messages, requestStart, sizes, selected, bytes, |groups| - |chosen|);
  }

  lemma WalkedIsChosen(sc: Scan, requestStart: nat, budget: Budget, d: nat, selected: set<nat>,
                       bytes: nat)
    requires sc.Scan?
    requires d == DropCount(OptionalOf(Groups(sc), requestStart), Cost(Required(sc, requestStart)), budget)
    requires Walked(Required(sc, requestStart), OptionalOf(Groups(sc), requestStart), d, selected, bytes)
    ensures selected == Indices(Chosen(sc, requestStart, budget))
    ensures bytes == ArrayBytes(Cost(Chosen(sc, requestStart, budget)))
    ensures |Kept(sc, requestStart, budget)| == |OptionalOf(Groups(sc), requestStart)| - d
  {
    CostConcat(Required(sc, requestStart), Flatten(Kept(sc, requestStart, budget)));
    TailIsFlat(OptionalOf(Groups(sc), requestStart), d);
  }

  method Account(messages: seq<Message>, requestStart: nat, sizes: seq<nat>, selected: set<nat>,
                 bytes: nat, omittedGroups: nat)
    returns (outcome: Outcome)
    requires requestStart <= |messages| && sizes == SizesOf(messages)
    ensures outcome == Selected(Selection(
                         Pick(messages, selected), ArrayBytes(MessageCost(messages)), bytes,
                         requestStart, |messages| - requestStart,
                         Missing(requestStart, selected), omittedGroups))
  {
    var picked := Gather(messages, selected);
    var inputBytes := ByteCount(sizes, Range(0, |messages|), messages);
    PickAll(messages, Range(0, |messages|));
    var omitted := CountMissing(requestStart, selected);
    outcome := Selected(Selection(picked, inputBytes, bytes, requestStart,
                                  |messages| - requestStart, omitted, omittedGroups));
  }

  /** Select whole groups, rejecting malformed exchanges or mandatory overflow. */
  method Select(history: seq<Message>, current: seq<Message>, budget: Budget) returns (outcome: Outcome)
    ensures outcome == SelectionOf(history, current, budget)
  {
    var messages := history + current;
    var scanned := ScanMessages(messages, |history|);
    match scanned
    case Malformed(error) => outcome := Rejected(error);
    case Grouped(groups, protected, sizes) =>
      outcome := Arrange(messages, |history|, groups, protected, sizes, budget,
                         ScanOf(messages, |history|));
  }

  lemma {:induction false} CostOfRequired(ms: seq<Message>, requestStart: nat, sc: Scan)
    requires Complete(sc, ms, requestStart)
    ensures MessageCost(Pick(ms, Indices(Required(sc, requestStart)))) == Cost(Required(sc, requestStart))
    ensures Within(Indices(Required(sc, requestStart)), |ms|)
  {
    var optional := OptionalOf(Groups(sc), requestStart);
    PartsDistinct(ms, requestStart, sc, |optional|);
    assert Required(sc, requestStart) + Flatten(optional[|optional|..]) == Required(sc, requestStart);
    CostOfIndices(ms, Required(sc, requestStart));
    IndicesWithin(ms, Required(sc, requestStart));
  }

  lemma IndicesWithin(ms: seq<Message>, es: seq<Entry>)
    requires From(es, ms)
    ensures Within(Indices(es), |ms|)
  {
    forall i | i in Indices(es) ensures i < |ms| {
      var e :| e in es && e.index == i;
      var k :| 0 <= k < |es| && es[k] == e;
    }
  }

  lemma ChosenWithin(ms: seq<Message>, requestStart: nat, sc: Scan, budget: Budget)
    requires Complete(sc, ms, requestStart)
    ensures Distinct(Chosen(sc, requestStart, budget)) && From(Chosen(sc, requestStart, budget), ms)
    ensures Within(Indices(Chosen(sc, requestStart, budget)), |ms|)
  {
    var optional := OptionalOf(Groups(sc), requestStart);
    PartsDistinct(ms, requestStart, sc, DropCount(optional, Cost(Required(sc, requestStart)), budget));
    IndicesWithin(ms, Chosen(sc, requestStart, budget));
  }
}
