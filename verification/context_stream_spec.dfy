/** The incremental selector as a state machine on values: what each step of the stream does to its
    accounting, and why that accounting always describes the scan of everything seen so far. */
module ContextStreamSpec {
  import opened Wrappers

  import opened Messages
  import opened ContextSpec
  import opened ContextFacts

  // ----- the stream's state and its steps -----

  /** One turn group as the stream holds it: its accounting, and its payload while it could fit. */
  datatype Held = Held(entries: seq<Entry>, cost: nat, count: nat, historyCount: nat, mandatory: bool)

  const NEW_GROUP: Held := Held([], 0, 0, 0, false)

  /** The mandatory payloads, and the suffix of complete optional groups that fits beside them. */
  datatype Ledger = Ledger(
    budget: Budget,
    optional: seq<Held>,
    optionalCost: int,
    required: seq<Entry>,
    requiredCost: nat,
    requiredHistory: nat,
    requiredOverflow: bool)

  datatype Tally = Tally(historyCount: nat, currentCount: nat, totalCost: nat)

  datatype Stream = Stream(
    ledger: Ledger,
    group: Held,
    mandatoryGroups: nat,
    groups: nat,
    pending: set<string>,
    tally: Tally,
    failure: Option<Error>)

  function Fresh(budget: Budget): Stream {
    Stream(Ledger(budget, [], 0, [], 0, 0, false), NEW_GROUP, 0, 0, {}, Tally(0, 0, 0), None)
  }

  function Pop(l: Ledger): Ledger
    requires l.optional != []
  {
    l.(optional := l.optional[1..], optionalCost := l.optionalCost - l.optional[0].cost)
  }

  /** Drop the oldest optional groups until the rest fits. */
  function Trim(l: Ledger): Ledger
    decreases |l.optional|
  {
    if l.optional != [] && !Fits(l.requiredCost + l.optionalCost, l.budget) then Trim(Pop(l)) else l
  }

  /** Charge mandatory entries, and keep their payload only while the mandatory part fits. */
  function Charge(l: Ledger, payload: seq<Entry>, cost: nat, history: nat): Ledger {
    var charged := l.(requiredCost := l.requiredCost + cost,
                      requiredHistory := l.requiredHistory + history);
    if Fits(charged.requiredCost, l.budget)
    then charged.(required := l.required + payload)
    else charged.(requiredOverflow := true)
  }

  /** Charge mandatory entries, then make room for them among the optional groups. */
  function Demand(l: Ledger, payload: seq<Entry>, cost: nat, history: nat): Ledger {
    Trim(Charge(l, payload, cost, history))
  }

  /** Keep a closed optional group, unless it alone already does not fit: then it is a barrier that
      no older group may pass. */
  function Keep(l: Ledger, g: Held): Ledger {
    if !Fits(l.requiredCost + g.cost, l.budget)
    then l.(optional := [], optionalCost := 0)
    else Trim(l.(optional := l.optional + [g], optionalCost := l.optionalCost + g.cost))
  }

  function Close(s: Stream): Stream {
    if s.group.count == 0 then s
    else
      var g := s.group;
      var next := s.(groups := s.groups + 1, group := NEW_GROUP);
      if g.mandatory
      then next.(mandatoryGroups := s.mandatoryGroups + 1,
                 ledger := Demand(s.ledger, g.entries, g.cost, g.historyCount))
      else next.(ledger := Keep(s.ledger, g))
  }

  function Grow(g: Held, e: Entry, cost: nat, current: bool, budget: Budget): Held {
    Held(if Fits(g.cost + cost, budget) then g.entries + [e] else [],
         g.cost + cost, g.count + 1,
         g.historyCount + (if current then 0 else 1), g.mandatory || current)
  }

  function Follow(s: Stream, parts: seq<Part>): Stream {
    match Consume(s.pending, parts)
    case Broken(error) => s.(failure := Some(error))
    case Pending(calls) => s.(pending := calls)
  }

  function Count(t: Tally, cost: nat, current: bool): Tally {
    Tally(t.historyCount + (if current then 0 else 1), t.currentCount + (if current then 1 else 0),
          t.totalCost + cost)
  }

  function Take(s: Stream, e: Entry, cost: nat, current: bool): Stream {
    if e.message.role.System?
    then s.(ledger := Demand(s.ledger, [e], cost, if current then 0 else 1))
    else Follow(s.(group := Grow(s.group, e, cost, current, s.ledger.budget)), e.message.content)
  }

  /** The open group closes in front of a user message or the request, unless an exchange is open. */
  function CloseBefore(s: Stream, m: Message, current: bool): Stream {
    if (m.role.User? || (current && s.tally.currentCount == 0)) && s.pending == {} then Close(s) else s
  }

  /** Take one more message, from the stored history or from the current request. */
  function Add(s: Stream, m: Message, current: bool): Stream {
    if s.failure.Some? then s
    else match m.encoding
      case Unencodable(reason) => s.(failure := Some(EncodingFailed(reason)))
      case Encoded(bytes) =>
        var e := Entry(s.tally.historyCount + s.tally.currentCount, m);
        var closed := CloseBefore(s, m, current);
        Take(closed.(tally := Count(s.tally, 1 + |bytes|, current)), e, 1 + |bytes|, current)
  }

  /** How many entries lie before the current request. */
  function Before(es: seq<Entry>, requestStart: nat): nat {
    if |es| == 0 then 0
    else Before(es[..|es| - 1], requestStart) + (if es[|es| - 1].index < requestStart then 1 else 0)
  }

  lemma {:induction false} BeforeConcat(a: seq<Entry>, b: seq<Entry>, requestStart: nat)
    ensures Before(a + b, requestStart) == Before(a, requestStart) + Before(b, requestStart)
  {
    if b == [] {
      assert a + b == a;
    } else {
      assert (a + b)[..|a + b| - 1] == a + b[..|b| - 1];
      BeforeConcat(a, b[..|b| - 1], requestStart);
    }
  }

  lemma BeforeSnoc(es: seq<Entry>, e: Entry, requestStart: nat)
    ensures Before(es + [e], requestStart)
         == Before(es, requestStart) + (if e.index < requestStart then 1 else 0)
  {
    assert (es + [e])[..|es|] == es;
  }

  lemma {:induction false} BeforeAll(es: seq<Entry>, requestStart: nat)
    requires forall k | 0 <= k < |es| :: es[k].index < requestStart
    ensures Before(es, requestStart) == |es|
  {
    if es != [] { BeforeAll(es[..|es| - 1], requestStart); }
  }

  lemma MandatorySnoc(g: Group, e: Entry, requestStart: nat)
    ensures Mandatory(g + [e], requestStart) <==> Mandatory(g, requestStart) || e.index >= requestStart
  {
    var grown := g + [e];
    assert grown[|g|] == e;
    if k :| 0 <= k < |g| && g[k].index >= requestStart { assert grown[k] == g[k]; }
    if k :| 0 <= k < |grown| && grown[k].index >= requestStart {
      if k < |g| { assert grown[k] == g[k]; }
    }
  }

  // ----- the order in which mandatory entries are charged -----

  /** What scanning one more message charges: a mandatory group it closes, and itself if system. */
  function DemandStep(sc: Scan, m: Message, index: nat, requestStart: nat): seq<Entry> {
    if sc.Stopped? || m.encoding.Unencodable? then []
    else Closing(sc, m, index, requestStart) + (if m.role.System? then [Entry(index, m)] else [])
  }

  function Closing(sc: Scan, m: Message, index: nat, requestStart: nat): seq<Entry>
    requires sc.Scan?
  {
    if Starts(m, index, requestStart) && sc.pending == {} && Mandatory(sc.open, requestStart)
    then sc.open else []
  }

  function DemandedOf(ms: seq<Message>, requestStart: nat): seq<Entry> {
    if |ms| == 0 then []
    else
      var n := |ms| - 1;
      DemandedOf(ms[..n], requestStart) + DemandStep(ScanOf(ms[..n], requestStart), ms[n], n, requestStart)
  }

  ghost function MandatoryEntries(sc: Scan, requestStart: nat): multiset<Entry>
    requires sc.Scan?
  {
    multiset(sc.systems) + multiset(Flatten(MandatoryOf(sc.closed, requestStart)))
  }

  lemma CloseCharges(sc: Scan, closing: bool, requestStart: nat)
    requires sc.Scan?
    ensures MandatoryEntries(CloseIf(sc, closing), requestStart)
         == MandatoryEntries(sc, requestStart)
          + multiset(if closing && sc.pending == {} && Mandatory(sc.open, requestStart) then sc.open else [])
  {
    FilterSnoc(sc.closed, sc.open, requestStart);
    FlattenSnoc(MandatoryOf(sc.closed, requestStart), sc.open);
  }

  lemma PlaceCharges(sc: Scan, e: Entry, requestStart: nat)
    requires sc.Scan? && Place(sc, e).Scan?
    ensures MandatoryEntries(Place(sc, e), requestStart)
         == MandatoryEntries(sc, requestStart)
          + multiset(if e.message.role.System? then [e] else [])
  {
  }

  lemma {:induction false} StepCharges(sc: Scan, m: Message, index: nat, requestStart: nat)
    requires sc.Scan? && Step(sc, m, index, requestStart).Scan?
    ensures MandatoryEntries(Step(sc, m, index, requestStart), requestStart)
         == MandatoryEntries(sc, requestStart) + multiset(DemandStep(sc, m, index, requestStart))
  {
    hide MandatoryEntries, Consume, Mandatory;
    CloseCharges(sc, Starts(m, index, requestStart), requestStart);
    PlaceCharges(CloseIf(sc, Starts(m, index, requestStart)), Entry(index, m), requestStart);
  }

  /** The entries charged, in whatever order, are the system entries and the closed mandatory groups. */
  lemma {:induction false} DemandedAreMandatory(ms: seq<Message>, requestStart: nat)
    requires ScanOf(ms, requestStart).Scan?
    ensures multiset(DemandedOf(ms, requestStart)) == MandatoryEntries(ScanOf(ms, requestStart), requestStart)
  {
    if |ms| > 0 {
      var n := |ms| - 1;
      DemandedAreMandatory(ms[..n], requestStart);
      StepCharges(ScanOf(ms[..n], requestStart), ms[n], n, requestStart);
    }
  }

  // ----- what the accounting means -----

  /** `h` accounts for the group `g`, and holds its payload exactly when it could fit. */
  ghost predicate Accounts(h: Held, g: Group, requestStart: nat, budget: Budget) {
    h == Held(if Fits(Cost(g), budget) then g else [], Cost(g), |g|, Before(g, requestStart),
              Mandatory(g, requestStart))
  }

  /** The mandatory accounting, and its payload while it fits. */
  ghost predicate Charged(l: Ledger, demanded: seq<Entry>, requestStart: nat) {
    var cost := Cost(demanded);
    && l.requiredCost == cost
    && l.requiredHistory == Before(demanded, requestStart)
    && l.requiredOverflow == !Fits(cost, l.budget)
    && Fits(Cost(l.required), l.budget)
    && (!l.requiredOverflow ==> l.required == demanded)
  }

  /** The deque holds all but the oldest `dropped` of the optional groups `gs`, and dropping one
      fewer would not fit. */
  ghost predicate Retains(l: Ledger, gs: seq<Group>) {
    var dropped := |gs| - |l.optional|;
    && dropped >= 0
    && l.optionalCost == TailCost(gs, dropped)
    && (dropped > 0 ==> !Fits(l.requiredCost + TailCost(gs, dropped - 1), l.budget))
    && forall k | 0 <= k < |l.optional| ::
         l.optional[k] == Held(gs[dropped + k], Cost(gs[dropped + k]), |gs[dropped + k]|,
                               |gs[dropped + k]|, false)
  }

  ghost predicate Settled(l: Ledger, gs: seq<Group>, demanded: seq<Entry>, requestStart: nat) {
    var cost := l.requiredCost + l.optionalCost;
    && Charged(l, demanded, requestStart)
    && Retains(l, gs)
    && (l.optional == [] || Fits(cost, l.budget))
  }

  /** The stream is where the scan is: at the same first error, or holding what the scan holds. */
  ghost predicate Tracks(s: Stream, sc: Scan, demanded: seq<Entry>, requestStart: nat) {
    || (sc.Stopped? && s.failure == Some(sc.error))
    || (&& sc.Scan? && s.failure == None
        && Settled(s.ledger, OptionalOf(sc.closed, requestStart), demanded, requestStart)
        && s.groups == |sc.closed| == s.mandatoryGroups + |OptionalOf(sc.closed, requestStart)|
        && Accounts(s.group, sc.open, requestStart, s.ledger.budget)
        && s.pending == sc.pending)
  }

  // ----- the ledger stays settled -----

  lemma PopRetains(l: Ledger, gs: seq<Group>)
    requires Retains(l, gs)
    requires l.optional != [] && !Fits(l.requiredCost + l.optionalCost, l.budget)
    ensures Retains(Pop(l), gs)
  {
    assert forall k | 0 <= k < |l.optional| - 1 :: l.optional[1..][k] == l.optional[k + 1];
  }

  lemma {:induction false} TrimSettles(l: Ledger, gs: seq<Group>, demanded: seq<Entry>, requestStart: nat)
    requires Charged(l, demanded, requestStart) && Retains(l, gs)
    ensures Settled(Trim(l), gs, demanded, requestStart)
    decreases |l.optional|
  {
    if l.optional != [] && !Fits(l.requiredCost + l.optionalCost, l.budget) {
      PopRetains(l, gs);
      TrimSettles(Pop(l), gs, demanded, requestStart);
    }
  }

  lemma {:induction false} TrimBudget(l: Ledger)
    ensures Trim(l).budget == l.budget
    decreases |l.optional|
  {
    if l.optional != [] && !Fits(l.requiredCost + l.optionalCost, l.budget) { TrimBudget(Pop(l)); }
  }

  lemma ChargeCharges(l: Ledger, demanded: seq<Entry>, added: seq<Entry>, payload: seq<Entry>,
                      requestStart: nat)
    requires Charged(l, demanded, requestStart)
    requires Fits(Cost(added), l.budget) ==> payload == added
    ensures Charged(Charge(l, payload, Cost(added), Before(added, requestStart)),
                    demanded + added, requestStart)
  {
    CostConcat(demanded, added);
    BeforeConcat(demanded, added, requestStart);
  }

  lemma DemandSettles(l: Ledger, gs: seq<Group>, demanded: seq<Entry>, added: seq<Entry>,
                      payload: seq<Entry>, requestStart: nat)
    requires Settled(l, gs, demanded, requestStart)
    requires Fits(Cost(added), l.budget) ==> payload == added
    ensures Settled(Demand(l, payload, Cost(added), Before(added, requestStart)),
                    gs, demanded + added, requestStart)
    ensures Demand(l, payload, Cost(added), Before(added, requestStart)).budget == l.budget
  {
    hide Cost, Before, TailCost, Trim;
    var charged := Charge(l, payload, Cost(added), Before(added, requestStart));
    ChargeCharges(l, demanded, added, payload, requestStart);
    assert Retains(charged, gs);
    TrimSettles(charged, gs, demanded + added, requestStart);
    TrimBudget(charged);
  }

  lemma AppendRetains(l: Ledger, gs: seq<Group>, g: Group, h: Held, requestStart: nat)
    requires Retains(l, gs)
    requires Accounts(h, g, requestStart, l.budget) && !Mandatory(g, requestStart)
    requires Fits(l.requiredCost + h.cost, l.budget)
    ensures Retains(l.(optional := l.optional + [h], optionalCost := l.optionalCost + h.cost), gs + [g])
  {
    hide TailCost, Cost, Before, Mandatory, Accounts, Fits;
    var dropped := |gs| - |l.optional|;
    OptionalIsHeld(l, g, h, requestStart);
    TailAppend(gs, g, dropped);
    if dropped > 0 {
      TailAppend(gs, g, dropped - 1);
      FitsLess(l.requiredCost + TailCost(gs, dropped - 1), l.requiredCost + TailCost(gs + [g], dropped - 1), l.budget);
    }
    var all, held := gs + [g], l.optional + [h];
    forall k | 0 <= k < |held|
      ensures held[k] == Held(all[dropped + k], Cost(all[dropped + k]), |all[dropped + k]|, |all[dropped + k]|, false)
    {
      if k < |l.optional| { assert all[dropped + k] == gs[dropped + k]; }
    }
  }

  lemma OptionalIsHeld(l: Ledger, g: Group, h: Held, requestStart: nat)
    requires Accounts(h, g, requestStart, l.budget) && !Mandatory(g, requestStart)
    requires Fits(l.requiredCost + h.cost, l.budget)
    ensures h == Held(g, Cost(g), |g|, |g|, false)
  {
    BeforeAll(g, requestStart);
  }

  lemma FitsLess(a: int, b: int, budget: Budget)
    requires 0 <= a <= b && !Fits(a, budget)
    ensures !Fits(b, budget)
  {
  }

  lemma KeepSettles(l: Ledger, gs: seq<Group>, demanded: seq<Entry>, g: Group, h: Held, requestStart: nat)
    requires Settled(l, gs, demanded, requestStart)
    requires Accounts(h, g, requestStart, l.budget) && !Mandatory(g, requestStart)
    ensures Settled(Keep(l, h), gs + [g], demanded, requestStart)
    ensures Keep(l, h).budget == l.budget
  {
    assert Charged(l, demanded, requestStart) && Retains(l, gs);
    if Fits(l.requiredCost + h.cost, l.budget) {
      KeptSettles(l, gs, demanded, g, h, requestStart);
    } else {
      BarrierSettles(l, gs, demanded, g, h, requestStart);
    }
    hide Trim, Settled, Charged, Retains, Accounts, Mandatory;
  }

  lemma KeptSettles(l: Ledger, gs: seq<Group>, demanded: seq<Entry>, g: Group, h: Held, requestStart: nat)
    requires Charged(l, demanded, requestStart) && Retains(l, gs)
    requires Accounts(h, g, requestStart, l.budget) && !Mandatory(g, requestStart)
    requires Fits(l.requiredCost + h.cost, l.budget)
    ensures var kept := l.(optional := l.optional + [h], optionalCost := l.optionalCost + h.cost);
            Settled(Trim(kept), gs + [g], demanded, requestStart) && Trim(kept).budget == l.budget
  {
    var kept := l.(optional := l.optional + [h], optionalCost := l.optionalCost + h.cost);
    assert Charged(kept, demanded, requestStart);
    hide Settled, Charged, Retains, Accounts, Mandatory, Trim;
    AppendRetains(l, gs, g, h, requestStart);
    TrimSettles(kept, gs + [g], demanded, requestStart);
    TrimBudget(kept);
  }

  /** A group that does not fit by itself lets no older one pass. */
  lemma BarrierSettles(l: Ledger, gs: seq<Group>, demanded: seq<Entry>, g: Group, h: Held, requestStart: nat)
    requires Charged(l, demanded, requestStart)
    requires Accounts(h, g, requestStart, l.budget) && !Fits(l.requiredCost + h.cost, l.budget)
    ensures Settled(l.(optional := [], optionalCost := 0), gs + [g], demanded, requestStart)
  {
    TailAppend(gs, g, |gs|);
    assert TailCost(gs, |gs|) == 0 && TailCost(gs + [g], |gs| + 1) == 0;
    hide TailCost, Cost, Before, Mandatory;
  }

  // ----- one step of the stream is one step of the scan -----

  lemma CloseTracks(s: Stream, sc: Scan, demanded: seq<Entry>, requestStart: nat)
    requires sc.Scan? && sc.pending == {} && Tracks(s, sc, demanded, requestStart)
    ensures Tracks(Close(s), CloseIf(sc, true),
                   demanded + (if Mandatory(sc.open, requestStart) then sc.open else []), requestStart)
    ensures Close(s).tally == s.tally
  {
    hide Settled, Demand, Keep;
    assert demanded + [] == demanded;
    if sc.open != [] {
      FilterSnoc(sc.closed, sc.open, requestStart);
      var gs := OptionalOf(sc.closed, requestStart);
      if s.group.mandatory {
        DemandSettles(s.ledger, gs, demanded, sc.open, s.group.entries, requestStart);
      } else {
        KeepSettles(s.ledger, gs, demanded, sc.open, s.group, requestStart);
      }
    }
  }

  lemma GrowAccounts(h: Held, g: Group, e: Entry, requestStart: nat, budget: Budget)
    requires Accounts(h, g, requestStart, budget)
    ensures Accounts(Grow(h, e, 1 + Size(e.message), e.index >= requestStart, budget),
                     g + [e], requestStart, budget)
  {
    CostSnoc(g, e);
    BeforeSnoc(g, e, requestStart);
    MandatorySnoc(g, e, requestStart);
  }

  lemma OneEntry(e: Entry, requestStart: nat)
    ensures Cost([e]) == 1 + Size(e.message)
    ensures Before([e], requestStart) == if e.index >= requestStart then 0 else 1
  {
    CostSnoc([], e);
    BeforeSnoc([], e, requestStart);
    assert [] + [e] == [e];
  }

  lemma SystemTracks(s: Stream, sc: Scan, e: Entry, demanded: seq<Entry>, requestStart: nat)
    requires sc.Scan? && Tracks(s, sc, demanded, requestStart) && e.message.role.System?
    ensures Tracks(Take(s, e, 1 + Size(e.message), e.index >= requestStart), Place(sc, e),
                   demanded + [e], requestStart)
  {
    hide Settled, Cost, Before, Accounts, Demand, OptionalOf, MandatoryOf;
    OneEntry(e, requestStart);
    DemandSettles(s.ledger, OptionalOf(sc.closed, requestStart), demanded, [e], [e], requestStart);
    var ledger := Demand(s.ledger, [e], Cost([e]), Before([e], requestStart));
    assert Take(s, e, 1 + Size(e.message), e.index >= requestStart) == s.(ledger := ledger);
  }

  lemma TakeTracks(s: Stream, sc: Scan, e: Entry, demanded: seq<Entry>, requestStart: nat)
    requires sc.Scan? && Tracks(s, sc, demanded, requestStart)
    ensures Tracks(Take(s, e, 1 + Size(e.message), e.index >= requestStart), Place(sc, e),
                   demanded + (if e.message.role.System? then [e] else []), requestStart)
  {
    if e.message.role.System? {
      SystemTracks(s, sc, e, demanded, requestStart);
    } else {
      GrowAccounts(s.group, sc.open, e, requestStart, s.ledger.budget);
      assert demanded + [] == demanded;
    }
  }

  lemma CloseBeforeTracks(s: Stream, sc: Scan, m: Message, index: nat, current: bool,
                          demanded: seq<Entry>, requestStart: nat)
    requires sc.Scan? && Tracks(s, sc, demanded, requestStart)
    requires (current && s.tally.currentCount == 0) == (index == requestStart)
    ensures Tracks(CloseBefore(s, m, current), CloseIf(sc, Starts(m, index, requestStart)),
                   demanded + Closing(sc, m, index, requestStart), requestStart)
    ensures CloseBefore(s, m, current).tally == s.tally
  {
    if Starts(m, index, requestStart) && sc.pending == {} {
      CloseTracks(s, sc, demanded, requestStart);
    } else {
      assert demanded + [] == demanded;
    }
  }

  lemma TallyTracks(s: Stream, sc: Scan, demanded: seq<Entry>, requestStart: nat, tally: Tally)
    requires Tracks(s, sc, demanded, requestStart)
    ensures Tracks(s.(tally := tally), sc, demanded, requestStart)
  {
  }

  lemma StepOrder(sc: Scan, m: Message, index: nat, demanded: seq<Entry>, requestStart: nat)
    requires sc.Scan? && m.encoding.Encoded?
    ensures demanded + Closing(sc, m, index, requestStart)
              + (if m.role.System? then [Entry(index, m)] else [])
         == demanded + DemandStep(sc, m, index, requestStart)
  {
  }

  lemma EncodedTracks(s: Stream, sc: Scan, m: Message, index: nat, current: bool,
                      demanded: seq<Entry>, requestStart: nat)
    requires sc.Scan? && Tracks(s, sc, demanded, requestStart) && m.encoding.Encoded?
    requires current == (index >= requestStart)
    requires (current && s.tally.currentCount == 0) == (index == requestStart)
    ensures Tracks(Take(CloseBefore(s, m, current).(tally := Count(s.tally, 1 + Size(m), current)),
                        Entry(index, m), 1 + Size(m), current),
                   Place(CloseIf(sc, Starts(m, index, requestStart)), Entry(index, m)),
                   demanded + DemandStep(sc, m, index, requestStart), requestStart)
  {
    var charged := demanded + Closing(sc, m, index, requestStart);
    var closed, sc1 := CloseBefore(s, m, current), CloseIf(sc, Starts(m, index, requestStart));
    var tally := Count(s.tally, 1 + Size(m), current);
    CloseBeforeTracks(s, sc, m, index, current, demanded, requestStart);
    TallyTracks(closed, sc1, charged, requestStart, tally);
    TakeTracks(closed.(tally := tally), sc1, Entry(index, m), charged, requestStart);
    StepOrder(sc, m, index, demanded, requestStart);
  }

  /** One message: the stream follows the scan, up to its first error. */
  lemma {:induction false} AddTracks(s: Stream, sc: Scan, m: Message, index: nat, current: bool,
                  demanded: seq<Entry>, requestStart: nat)
    requires Tracks(s, sc, demanded, requestStart)
    requires s.failure == None ==>
               && index == s.tally.historyCount + s.tally.currentCount
               && current == (index >= requestStart)
               && (current && s.tally.currentCount == 0) == (index == requestStart)
    ensures Tracks(Add(s, m, current), Step(sc, m, index, requestStart),
                   demanded + DemandStep(sc, m, index, requestStart), requestStart)
  {
    hide Consume, Place, Take, Settled, Accounts, CloseBefore, CloseIf, DemandStep;
    if sc.Scan? && m.encoding.Encoded? {
      EncodedTracks(s, sc, m, index, current, demanded, requestStart);
    }
  }

  // ----- what a step leaves alone -----

  lemma CloseKeepsTally(s: Stream)
    ensures Close(s).tally == s.tally && Close(s).ledger.budget == s.ledger.budget
    ensures Close(s).failure == s.failure
  {
    var g, l := s.group, s.ledger;
    TrimBudget(Charge(l, g.entries, g.cost, g.historyCount));
    TrimBudget(l.(optional := l.optional + [g], optionalCost := l.optionalCost + g.cost));
  }

  lemma TakeKeepsTally(s: Stream, e: Entry, cost: nat, current: bool)
    ensures Take(s, e, cost, current).tally == s.tally
    ensures Take(s, e, cost, current).ledger.budget == s.ledger.budget
  {
    TrimBudget(Charge(s.ledger, [e], cost, if current then 0 else 1));
  }

  /** Whatever else a message does, it is counted once, on its own side. */
  lemma AddCounts(s: Stream, m: Message, current: bool)
    ensures s.failure == None && m.encoding.Encoded? ==>
              Add(s, m, current).tally == Count(s.tally, 1 + Size(m), current)
    ensures Add(s, m, current).ledger.budget == s.ledger.budget
  {
    CloseKeepsTally(s);
    var counted := CloseBefore(s, m, current).(tally := Count(s.tally, 1 + Size(m), current));
    TakeKeepsTally(counted, Entry(s.tally.historyCount + s.tally.currentCount, m), 1 + Size(m), current);
  }

  // ----- the whole stream -----

  /** Offer every stored message, then every message of the current request. */
  function Run(ms: seq<Message>, requestStart: nat, budget: Budget): Stream {
    if |ms| == 0 then Fresh(budget)
    else Add(Run(ms[..|ms| - 1], requestStart, budget), ms[|ms| - 1], |ms| - 1 >= requestStart)
  }

  /** Until an error, every message offered is counted, on its own side of the request boundary. */
  ghost predicate Tallied(s: Stream, ms: seq<Message>, requestStart: nat) {
    || s.failure.Some?
    || s.tally == (if |ms| < requestStart then Tally(|ms|, 0, MessageCost(ms))
                   else Tally(requestStart, |ms| - requestStart, MessageCost(ms)))
  }

  lemma AddTallies(s: Stream, ms: seq<Message>, requestStart: nat)
    requires |ms| > 0 && Tallied(s, ms[..|ms| - 1], requestStart)
    ensures Tallied(Add(s, ms[|ms| - 1], |ms| - 1 >= requestStart), ms, requestStart)
  {
    AddCounts(s, ms[|ms| - 1], |ms| - 1 >= requestStart);
  }

  lemma FreshTracks(budget: Budget, requestStart: nat)
    ensures Tracks(Fresh(budget), Scan([], [], [], {}), [], requestStart)
  {
  }

  /** After any messages the stream's accounting describes the scan of all of them. */
  lemma {:induction false} RunDescribes(ms: seq<Message>, requestStart: nat, budget: Budget)
    ensures Tracks(Run(ms, requestStart, budget), ScanOf(ms, requestStart),
                   DemandedOf(ms, requestStart), requestStart)
    ensures Tallied(Run(ms, requestStart, budget), ms, requestStart)
    ensures Run(ms, requestStart, budget).ledger.budget == budget
  {
    hide Tracks, Add, Step, DemandStep;
    if |ms| == 0 {
      FreshTracks(budget, requestStart);
    } else {
      var n := |ms| - 1;
      var m, sc, s := ms[n], ScanOf(ms[..n], requestStart), Run(ms[..n], requestStart, budget);
      RunDescribes(ms[..n], requestStart, budget);
      AddCounts(s, m, n >= requestStart);
      AddTallies(s, ms, requestStart);
      AddTracks(s, sc, m, n, n >= requestStart, DemandedOf(ms[..n], requestStart), requestStart);
    }
  }
}
