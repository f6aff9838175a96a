/** How much payload the incremental selector holds, however long the history is. */
module ContextRetention {
  import opened Wrappers

  import opened Messages
  import opened ContextSpec
  import opened ContextFacts
  import opened ContextStreamSpec
  import opened ContextRefinement

  /** What the messages the stream still holds cost: mandatory, retained and in the open group. */
  function Retained(s: Stream): nat {
    Cost(s.ledger.required) + Cost(Payloads(s.ledger.optional)) + Cost(s.group.entries)
  }

  /** A group holds all of its payload while it could fit, and none of it afterwards. */
  ghost predicate Light(h: Held, budget: Budget) {
    if Fits(h.cost, budget) then Cost(h.entries) == h.cost else h.entries == []
  }

  /** The mandatory payload is what was charged until it overflowed, and fits either way. */
  ghost predicate RequiredLight(l: Ledger) {
    && Fits(Cost(l.required), l.budget)
    && (if l.requiredOverflow then !Fits(l.requiredCost, l.budget) else l.requiredCost == Cost(l.required))
  }

  ghost predicate LedgerLight(l: Ledger) {
    && RequiredLight(l)
    && l.optionalCost == Cost(Payloads(l.optional))
    && AllLight(l.optional, l.budget)
  }

  /** Every retained group holds all of its payload. */
  ghost predicate AllLight(held: seq<Held>, budget: Budget) {
    forall k | 0 <= k < |held| :: Light(held[k], budget) && Fits(held[k].cost, budget)
  }

  ghost predicate Balanced(l: Ledger) {
    LedgerLight(l) && (l.optional == [] || Fits(l.requiredCost + l.optionalCost, l.budget))
  }

  ghost predicate StreamLight(s: Stream) {
    Balanced(s.ledger) && Light(s.group, s.ledger.budget)
  }

  lemma {:induction false} PayloadsFirst(held: seq<Held>)
    requires held != []
    ensures Payloads(held) == held[0].entries + Payloads(held[1..])
  {
    var n := |held| - 1;
    if n > 0 {
      PayloadsFirst(held[..n]);
      assert held[..n][1..] == held[1..][..n - 1];
      assert held[0].entries + (Payloads(held[1..][..n - 1]) + held[n].entries)
          == held[0].entries + Payloads(held[1..][..n - 1]) + held[n].entries;
    } else {
      assert held[..n] == [] == held[1..];
    }
  }

  lemma {:induction false} TrimLight(l: Ledger)
    requires LedgerLight(l)
    ensures Balanced(Trim(l))
    decreases |l.optional|
  {
    hide LedgerLight;
    if l.optional != [] && !Fits(l.requiredCost + l.optionalCost, l.budget) {
      PopLight(l);
      TrimLight(Pop(l));
    }
  }

  lemma PopLight(l: Ledger)
    requires LedgerLight(l) && l.optional != []
    ensures LedgerLight(Pop(l))
  {
    assert Light(l.optional[0], l.budget);
    PayloadsFirst(l.optional);
    CostConcat(l.optional[0].entries, Payloads(l.optional[1..]));
    assert RequiredLight(Pop(l));
    hide Payloads, Cost, RequiredLight, Light;
  }

  lemma {:induction false} DemandLight(l: Ledger, payload: seq<Entry>, cost: nat, history: nat)
    requires Balanced(l)
    requires Fits(cost, l.budget) ==> Cost(payload) == cost
    ensures Balanced(Demand(l, payload, cost, history))
    ensures Demand(l, payload, cost, history).budget == l.budget
  {
    var charged := Charge(l, payload, cost, history);
    CostConcat(l.required, payload);
    assert RequiredLight(charged);
    TrimLight(charged);
    TrimBudget(charged);
  }

  lemma {:induction false} AppendLight(l: Ledger, g: Held)
    requires LedgerLight(l) && Light(g, l.budget) && Fits(g.cost, l.budget)
    ensures LedgerLight(l.(optional := l.optional + [g], optionalCost := l.optionalCost + g.cost))
  {
    assert RequiredLight(l.(optional := l.optional + [g], optionalCost := l.optionalCost + g.cost));
    assert g.cost == Cost(g.entries);
    PayloadsSnoc(l.optional, g);
    CostConcat(Payloads(l.optional), g.entries);
    hide Cost, RequiredLight, Payloads, Light;
  }

  lemma PayloadsSnoc(held: seq<Held>, g: Held)
    ensures Payloads(held + [g]) == Payloads(held) + g.entries
  {
    assert (held + [g])[..|held|] == held;
  }

  lemma BarrierLight(l: Ledger)
    requires RequiredLight(l)
    ensures Balanced(l.(optional := [], optionalCost := 0))
  {
    assert Payloads([]) == [];
  }

  lemma KeptLight(l: Ledger, g: Held)
    requires LedgerLight(l) && Light(g, l.budget) && Fits(g.cost, l.budget)
    ensures var kept := l.(optional := l.optional + [g], optionalCost := l.optionalCost + g.cost);
            Balanced(Trim(kept)) && Trim(kept).budget == l.budget
  {
    hide LedgerLight, Balanced, Light, Trim;
    var kept := l.(optional := l.optional + [g], optionalCost := l.optionalCost + g.cost);
    AppendLight(l, g);
    TrimLight(kept);
    TrimBudget(kept);
  }

  lemma {:induction false} KeepLight(l: Ledger, g: Held)
    requires Balanced(l) && Light(g, l.budget)
    ensures Balanced(Keep(l, g)) && Keep(l, g).budget == l.budget
  {
    if Fits(l.requiredCost + g.cost, l.budget) {
      KeptLight(l, g);
    } else {
      BarrierLight(l);
    }
    hide LedgerLight, RequiredLight, Light, Trim;
  }

  lemma {:induction false} CloseLight(s: Stream)
    requires StreamLight(s)
    ensures StreamLight(Close(s)) && Close(s).ledger.budget == s.ledger.budget
  {
    var g := s.group;
    if g.mandatory {
      DemandLight(s.ledger, g.entries, g.cost, g.historyCount);
    } else {
      KeepLight(s.ledger, g);
    }
  }

  lemma TakeLight(s: Stream, e: Entry, cost: nat, current: bool)
    requires StreamLight(s) && cost == 1 + Size(e.message)
    ensures StreamLight(Take(s, e, cost, current))
    ensures Take(s, e, cost, current).ledger.budget == s.ledger.budget
  {
    if e.message.role.System? {
      CostSnoc([], e);
      assert [] + [e] == [e];
      hide Cost, Trim, LedgerLight;
      DemandLight(s.ledger, [e], cost, if current then 0 else 1);
    } else {
      GrowLight(s.group, e, cost, current, s.ledger.budget);
      hide Light, Grow, Consume, LedgerLight;
    }
  }

  lemma GrowLight(g: Held, e: Entry, cost: nat, current: bool, budget: Budget)
    requires Light(g, budget) && cost == 1 + Size(e.message)
    ensures Light(Grow(g, e, cost, current, budget), budget)
  {
    CostSnoc(g.entries, e);
  }

  lemma CloseBeforeLight(s: Stream, m: Message, current: bool, tally: Tally)
    requires StreamLight(s)
    ensures StreamLight(CloseBefore(s, m, current).(tally := tally))
    ensures CloseBefore(s, m, current).ledger.budget == s.ledger.budget
  {
    CloseLight(s);
  }

  lemma AddLight(s: Stream, m: Message, current: bool)
    requires StreamLight(s)
    ensures StreamLight(Add(s, m, current)) && Add(s, m, current).ledger.budget == s.ledger.budget
  {
    hide Balanced, Close, Light, Demand, Grow;
    if s.failure == None && m.encoding.Encoded? {
      var tally := Count(s.tally, 1 + Size(m), current);
      CloseBeforeLight(s, m, current, tally);
      TakeLight(CloseBefore(s, m, current).(tally := tally),
                Entry(s.tally.historyCount + s.tally.currentCount, m), 1 + Size(m), current);
    }
  }

  lemma {:induction false} RunLight(ms: seq<Message>, requestStart: nat, budget: Budget)
    ensures StreamLight(Run(ms, requestStart, budget))
    ensures Run(ms, requestStart, budget).ledger.budget == budget
  {
    if |ms| > 0 {
      var n := |ms| - 1;
      RunLight(ms[..n], requestStart, budget);
      AddLight(Run(ms[..n], requestStart, budget), ms[n], n >= requestStart);
    }
  }

  /** After any number of messages, in whatever state, the payload held costs at most twice what an
      array within the budget can hold. */
  lemma RetentionBound(ms: seq<Message>, requestStart: nat, budget: Budget)
    ensures Retained(Run(ms, requestStart, budget)) <= 2 * (budget - 1)
  {
    var s := Run(ms, requestStart, budget);
    RunLight(ms, requestStart, budget);
    if s.ledger.optional == [] { assert Payloads(s.ledger.optional) == []; }
  }

  // ----- what is dropped stays dropped -----

  /** The entries whose payload the stream still holds. */
  ghost function HeldEntries(s: Stream): set<Entry> {
    LedgerEntries(s.ledger) + SetOf(s.group.entries)
  }

  ghost function LedgerEntries(l: Ledger): set<Entry> { SetOf(l.required) + SetOf(Payloads(l.optional)) }

  ghost function SetOf(es: seq<Entry>): set<Entry> { set e | e in es }

  lemma {:induction false} TrimOnlyDrops(l: Ledger)
    ensures LedgerEntries(Trim(l)) <= LedgerEntries(l)
    decreases |l.optional|
  {
    if l.optional != [] && !Fits(l.requiredCost + l.optionalCost, l.budget) {
      PayloadsFirst(l.optional);
      TrimOnlyDrops(Pop(l));
    }
  }

  lemma DemandOnlyAdds(l: Ledger, payload: seq<Entry>, cost: nat, history: nat)
    ensures LedgerEntries(Demand(l, payload, cost, history)) <= LedgerEntries(l) + SetOf(payload)
  {
    TrimOnlyDrops(Charge(l, payload, cost, history));
  }

  lemma KeepOnlyAdds(l: Ledger, g: Held)
    ensures LedgerEntries(Keep(l, g)) <= LedgerEntries(l) + SetOf(g.entries)
  {
    var optional := l.optional + [g];
    assert optional[..|l.optional|] == l.optional;
    TrimOnlyDrops(l.(optional := optional, optionalCost := l.optionalCost + g.cost));
    assert Payloads([]) == [];
  }

  lemma CloseOnlyDrops(s: Stream)
    ensures HeldEntries(Close(s)) <= HeldEntries(s)
  {
    DemandOnlyAdds(s.ledger, s.group.entries, s.group.cost, s.group.historyCount);
    KeepOnlyAdds(s.ledger, s.group);
  }

  lemma TakeOnlyAdds(s: Stream, e: Entry, cost: nat, current: bool)
    ensures HeldEntries(Take(s, e, cost, current)) <= HeldEntries(s) + {e}
  {
    DemandOnlyAdds(s.ledger, [e], cost, if current then 0 else 1);
  }

  lemma AddOnlyAdds(s: Stream, m: Message, current: bool)
    ensures HeldEntries(Add(s, m, current))
         <= HeldEntries(s) + {Entry(s.tally.historyCount + s.tally.currentCount, m)}
  {
    if s.failure == None && m.encoding.Encoded? {
      var e := Entry(s.tally.historyCount + s.tally.currentCount, m);
      var closed := CloseBefore(s, m, current).(tally := Count(s.tally, 1 + Size(m), current));
      assert Add(s, m, current) == Take(closed, e, 1 + Size(m), current);
      CloseOnlyDrops(s);
      assert HeldEntries(closed) <= HeldEntries(s);
      hide Add, Take, CloseBefore, Close, HeldEntries;
      TakeOnlyAdds(closed, e, 1 + Size(m), current);
    }
  }

  /** The next entry is numbered as its message. */
  lemma NextIndex(ms: seq<Message>, requestStart: nat, budget: Budget)
    requires Run(ms, requestStart, budget).failure.None?
    ensures var t := Run(ms, requestStart, budget).tally; t.historyCount + t.currentCount == |ms|
  {
    RunDescribes(ms, requestStart, budget);
    hide Run, Tracks, ScanOf, DemandedOf;
  }

  /** One more message adds nothing but its own payload. */
  lemma RunOnlyAdds(ms: seq<Message>, requestStart: nat, budget: Budget, e: Entry)
    requires |ms| > 0 && e.index < |ms| - 1
    requires e !in HeldEntries(Run(ms[..|ms| - 1], requestStart, budget))
    ensures e !in HeldEntries(Run(ms, requestStart, budget))
  {
    var n := |ms| - 1;
    var s := Run(ms[..n], requestStart, budget);
    assert Run(ms, requestStart, budget) == Add(s, ms[n], n >= requestStart);
    assert s.failure.Some? ==> Add(s, ms[n], n >= requestStart) == s;
    hide Run, Add, HeldEntries;
    if s.failure.None? {
      NextIndex(ms[..n], requestStart, budget);
      AddOnlyAdds(s, ms[n], n >= requestStart);
    }
  }

  /** Once the payload of a message seen earlier is gone, it is gone for good, error or not. */
  lemma {:induction false} DroppedStaysDropped(ms: seq<Message>, requestStart: nat, budget: Budget, i: nat, e: Entry)
    requires e.index < i <= |ms| && e !in HeldEntries(Run(ms[..i], requestStart, budget))
    ensures e !in HeldEntries(Run(ms, requestStart, budget))
  {
    hide Run, HeldEntries;
    if i == |ms| {
      assert ms[..i] == ms;
    } else {
      assert ms[..|ms| - 1][..i] == ms[..i];
      DroppedStaysDropped(ms[..|ms| - 1], requestStart, budget, i, e);
      RunOnlyAdds(ms, requestStart, budget, e);
    }
  }

  /** Only messages whose payload was held to the end are selected, so a group dropped early is never
      part of a successful result. */
  lemma {:induction false} SelectedIsHeld(history: seq<Message>, current: seq<Message>, budget: Budget, e: Entry)
    requires SelectionOf(history, current, budget).Selected?
    requires e in Chosen(ScanOf(history + current, |history|), |history|, budget)
    ensures Run(history + current, |history|, budget).failure == None
    ensures e in HeldEntries(Run(history + current, |history|, budget))
  {
    hide Run, ScanOf, DemandedOf, Accounted, Settled, Answer;
    var ms, h := history + current, |history|;
    var s, sc, demanded := Run(ms, h, budget), ScanOf(ms, h), DemandedOf(ms, h);
    RunDescribes(ms, h, budget);
    StreamRefinesSelection(history, current, budget);
    FinalDemand(ms, h);
    CloseTracks(s, sc, demanded, h);
    CloseKeepsTally(s);
    assert CloseIf(sc, true).closed == Groups(sc);
    SettledChooses(Close(s).ledger, sc, demanded + LastDemand(sc, h), h);
    var held := Close(s).ledger.required + Payloads(Close(s).ledger.optional);
    assert e in multiset(Chosen(sc, h, budget)) && e in multiset(held);
    assert e in HeldEntries(Close(s));
    CloseOnlyDrops(s);
  }
}
