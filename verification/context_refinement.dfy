/** The stream's final answer, and the proof that it is the materialized selection. */
module ContextRefinement {
  import opened Messages
  import opened ContextSpec
  import opened ContextFacts
  import opened ContextSelect
  import opened ContextStreamSpec

  // ----- sorting entries by index -----

  function Insert(e: Entry, es: seq<Entry>): seq<Entry> {
    if es == [] || e.index < es[0].index then [e] + es else [es[0]] + Insert(e, es[1..])
  }

  /** A stable sort by index. */
  function SortByIndex(es: seq<Entry>): seq<Entry> {
    if |es| == 0 then [] else Insert(es[|es| - 1], SortByIndex(es[..|es| - 1]))
  }

  ghost predicate Ascending(es: seq<Entry>) {
    forall i, j | 0 <= i < j < |es| :: es[i].index <= es[j].index
  }

  lemma {:induction false} InsertSorts(e: Entry, es: seq<Entry>)
    requires Ascending(es)
    ensures Ascending(Insert(e, es))
  {
    if !(es == [] || e.index < es[0].index) {
      InsertSorts(e, es[1..]);
      InsertKeeps(e, es[1..]);
      PutFirst(es[0], Insert(e, es[1..]), es[1..], e);
    }
  }

  lemma {:induction false} InsertKeeps(e: Entry, es: seq<Entry>)
    ensures multiset(Insert(e, es)) == multiset(es) + multiset{e}
  {
    if !(es == [] || e.index < es[0].index) {
      InsertKeeps(e, es[1..]);
      assert es == [es[0]] + es[1..];
    }
  }

  /** An entry not above any of the others may stand before them. */
  lemma PutFirst(first: Entry, es: seq<Entry>, others: seq<Entry>, e: Entry)
    requires Ascending(es) && multiset(es) == multiset(others) + multiset{e}
    requires first.index <= e.index && forall k | 0 <= k < |others| :: first.index <= others[k].index
    ensures Ascending([first] + es)
  {
    forall x | x in es ensures first.index <= x.index {
      assert x in multiset(es);
      assert x == e || x in others;
    }
    assert forall k | 0 <= k < |es| :: es[k] in es;
  }

  lemma {:induction false} SortSorts(es: seq<Entry>)
    ensures Ascending(SortByIndex(es))
    ensures multiset(SortByIndex(es)) == multiset(es)
  {
    if |es| > 0 {
      SortSorts(es[..|es| - 1]);
      InsertSorts(es[|es| - 1], SortByIndex(es[..|es| - 1]));
      InsertKeeps(es[|es| - 1], SortByIndex(es[..|es| - 1]));
      assert es == es[..|es| - 1] + [es[|es| - 1]];
    }
  }

  // ----- rearranged entries -----

  /** Rearranging entries changes neither what they cost nor how many come from history. */
  lemma {:induction false} Rearranged(a: seq<Entry>, b: seq<Entry>, requestStart: nat)
    requires multiset(a) == multiset(b)
    ensures Cost(a) == Cost(b) && Before(a, requestStart) == Before(b, requestStart)
  {
    if |a| == 0 {
      assert |multiset(b)| == |b|;
    } else {
      var n, x := |a| - 1, a[|a| - 1];
      assert a == a[..n] + [x];
      assert x in multiset(a);
      var i :| 0 <= i < |b| && b[i] == x;
      var front, back := b[..i], b[i + 1..];
      assert b == front + [x] + back;
      RemoveSame(a[..n], x, front, back);
      Rearranged(a[..n], front + back, requestStart);
      RemoveOne(front, x, back, requestStart);
    }
  }

  lemma RemoveSame(init: seq<Entry>, x: Entry, front: seq<Entry>, back: seq<Entry>)
    requires multiset(init + [x]) == multiset(front + [x] + back)
    ensures multiset(init) == multiset(front + back)
  {
    assert multiset(init) + multiset{x} == multiset(front) + multiset{x} + multiset(back);
    assert multiset(init) == (multiset(init) + multiset{x}) - multiset{x};
    assert multiset(front + back) == (multiset(front) + multiset{x} + multiset(back)) - multiset{x};
  }

  lemma RemoveOne(front: seq<Entry>, x: Entry, back: seq<Entry>, requestStart: nat)
    ensures Cost(front + [x] + back) == Cost(front + back) + 1 + Size(x.message)
    ensures Before(front + [x] + back, requestStart)
         == Before(front + back, requestStart) + (if x.index < requestStart then 1 else 0)
  {
    CostConcat(front + [x], back);
    CostSnoc(front, x);
    CostConcat(front, back);
    BeforeConcat(front + [x], back, requestStart);
    BeforeSnoc(front, x, requestStart);
    BeforeConcat(front, back, requestStart);
  }

  /** Sorting entries with distinct indices picks exactly those indices, in order. */
  lemma SortedPick(ms: seq<Message>, es: seq<Entry>, chosen: seq<Entry>)
    requires multiset(es) == multiset(chosen) && Distinct(chosen) && From(chosen, ms)
    ensures MessagesOf(SortByIndex(es)) == Pick(ms, Indices(chosen))
  {
    var out := SortByIndex(es);
    SortSorts(es);
    SameMembers(out, chosen);
    forall k | 0 <= k < |out| ensures out[k].index < |ms| && ms[out[k].index] == out[k].message {
      assert out[k] in chosen;
    }
    StrictlySorted(out, chosen);
    PickIncreasing(ms, out);
    assert Indices(out) == Indices(chosen);
  }

  lemma SameMembers(a: seq<Entry>, b: seq<Entry>)
    requires multiset(a) == multiset(b)
    ensures forall e :: e in a <==> e in b
  {
    forall e ensures e in a <==> e in b {
      assert e in a <==> e in multiset(a);
      assert e in b <==> e in multiset(b);
    }
  }

  lemma StrictlySorted(out: seq<Entry>, chosen: seq<Entry>)
    requires Ascending(out) && multiset(out) == multiset(chosen) && Distinct(chosen)
    ensures Increasing(out)
  {
    forall i, j | 0 <= i < j < |out| ensures out[i].index < out[j].index {
      if out[i].index == out[j].index {
        SameMembers(out, chosen);
        assert out[i] in out && out[j] in out;
        var p :| 0 <= p < |chosen| && chosen[p] == out[i];
        var q :| 0 <= q < |chosen| && chosen[q] == out[j];
        assert p == q;
        TwiceCounts(out, i, j);
        OnceCounts(chosen, p);
      }
    }
  }

  lemma TwiceCounts(es: seq<Entry>, i: nat, j: nat)
    requires i < j < |es| && es[i] == es[j]
    ensures multiset(es)[es[i]] >= 2
  {
    assert es == es[..j] + es[j..];
    assert es[i] in es[..j] && es[j] == es[j..][0];
  }

  lemma {:induction false} OnceCounts(es: seq<Entry>, p: nat)
    requires Distinct(es) && p < |es|
    ensures multiset(es)[es[p]] == 1
  {
    var front, back := es[..p], es[p + 1..];
    assert es == front + [es[p]] + back;
    assert forall k | 0 <= k < |front| :: front[k] == es[k];
    assert forall k | 0 <= k < |back| :: back[k] == es[p + 1 + k];
    assert es[p] !in front && es[p] !in back;
  }

  lemma {:induction false} MissingCount(n: nat, es: seq<Entry>)
    requires Distinct(es)
    ensures Missing(n, Indices(es)) + Before(es, n) == n
  {
    if es == [] {
      MissingAll(n, Indices(es));
    } else {
      var init, last := es[..|es| - 1], es[|es| - 1];
      assert es == init + [last];
      IndicesSnoc(init, last);
      MissingCount(n, init);
      assert forall k | 0 <= k < |init| :: init[k] == es[k];
      assert last.index !in Indices(init);
      MissingOneLess(n, Indices(init), last.index);
    }
  }

  lemma {:induction false} MissingAll(n: nat, chosen: set<nat>)
    requires chosen == {}
    ensures Missing(n, chosen) == n
  {
    if n > 0 { MissingAll(n - 1, chosen); }
  }

  lemma {:induction false} MissingOneLess(n: nat, chosen: set<nat>, i: nat)
    requires i !in chosen
    ensures Missing(n, chosen + {i}) == Missing(n, chosen) - (if i < n then 1 else 0)
  {
    if n > 0 { MissingOneLess(n - 1, chosen, i); }
  }

  // ----- the stream's answer -----

  function Payloads(held: seq<Held>): seq<Entry> {
    if |held| == 0 then [] else Payloads(held[..|held| - 1]) + held[|held| - 1].entries
  }

  function HistoryIn(held: seq<Held>): nat {
    if |held| == 0 then 0 else HistoryIn(held[..|held| - 1]) + held[|held| - 1].historyCount
  }

  function Answer(s: Stream): Selection {
    var l := s.ledger;
    Selection(
      MessagesOf(SortByIndex(l.required + Payloads(l.optional))),
      ArrayBytes(s.tally.totalCost),
      ArrayBytes(l.requiredCost + l.optionalCost),
      s.tally.historyCount,
      s.tally.currentCount,
      s.tally.historyCount - l.requiredHistory - HistoryIn(l.optional),
      s.groups - s.mandatoryGroups - |l.optional|)
  }

  /** What finishing the stream reports: its first error, an open exchange, an overflow, or the
      selection. */
  function Finish(s: Stream): Outcome {
    if s.failure.Some? then Rejected(s.failure.value)
    else if s.pending != {} then Rejected(IncompleteExchange)
    else if Close(s).ledger.requiredOverflow then Rejected(BudgetExceeded)
    else Selected(Answer(Close(s)))
  }

  // ----- the refinement -----

  /** What closing the last group charges. */
  function LastDemand(sc: Scan, requestStart: nat): seq<Entry>
    requires sc.Scan?
  {
    if Mandatory(sc.open, requestStart) then sc.open else []
  }

  /** Once the last group is closed, the charged entries are the required ones. */
  lemma {:induction false} FinalDemand(ms: seq<Message>, requestStart: nat)
    requires ScanOf(ms, requestStart).Scan? && ScanOf(ms, requestStart).pending == {}
    ensures multiset(DemandedOf(ms, requestStart) + LastDemand(ScanOf(ms, requestStart), requestStart))
         == multiset(Required(ScanOf(ms, requestStart), requestStart))
  {
    var sc := ScanOf(ms, requestStart);
    DemandedAreMandatory(ms, requestStart);
    CloseCharges(sc, true, requestStart);
    assert CloseIf(sc, true).closed == Groups(sc);
  }

  lemma {:induction false} HeldPayloads(held: seq<Held>, gs: seq<Group>)
    requires |held| == |gs|
    requires forall k | 0 <= k < |held| :: held[k] == Held(gs[k], Cost(gs[k]), |gs[k]|, |gs[k]|, false)
    ensures Payloads(held) == Flatten(gs) && HistoryIn(held) == |Flatten(gs)|
  {
    if |held| > 0 { HeldPayloads(held[..|held| - 1], gs[..|gs| - 1]); }
  }

  lemma KeptEarly(sc: Scan, requestStart: nat, d: nat)
    requires sc.Scan? && d <= |OptionalOf(Groups(sc), requestStart)|
    ensures var kept := Flatten(OptionalOf(Groups(sc), requestStart)[d..]);
            Before(kept, requestStart) == |kept|
  {
    var optional := OptionalOf(Groups(sc), requestStart);
    OptionalEntriesEarly(Groups(sc), requestStart);
    assert optional == optional[..d] + optional[d..];
    FlattenConcat(optional[..d], optional[d..]);
    var kept := Flatten(optional[d..]);
    forall k | 0 <= k < |kept| ensures kept[k].index < requestStart {
      assert kept[k] in Flatten(optional);
    }
    BeforeAll(kept, requestStart);
  }

  /** A settled ledger holds exactly the suffix the budget leaves. */
  lemma SettledKeeps(l: Ledger, sc: Scan, demanded: seq<Entry>, requestStart: nat)
    requires sc.Scan?
    requires Settled(l, OptionalOf(Groups(sc), requestStart), demanded, requestStart)
    requires multiset(demanded) == multiset(Required(sc, requestStart))
    requires !l.requiredOverflow
    ensures var kept := Kept(sc, requestStart, l.budget);
            && |l.optional| == |kept|
            && Payloads(l.optional) == Flatten(kept)
            && HistoryIn(l.optional) == |Flatten(kept)|
            && l.optionalCost == Cost(Flatten(kept))
  {
    hide Groups, OptionalOf, MandatoryOf, Cost, Flatten, Before, Payloads, HistoryIn;
    var gs := OptionalOf(Groups(sc), requestStart);
    var d := |gs| - |l.optional|;
    Rearranged(demanded, Required(sc, requestStart), requestStart);
    DropCountIs(gs, Cost(Required(sc, requestStart)), l.budget, d);
    TailIsFlat(gs, d);
    HeldPayloads(l.optional, gs[d..]);
  }

  /** The entries a settled ledger holds are the chosen ones, so its totals are theirs. */
  lemma SettledChooses(l: Ledger, sc: Scan, demanded: seq<Entry>, requestStart: nat)
    requires sc.Scan?
    requires Settled(l, OptionalOf(Groups(sc), requestStart), demanded, requestStart)
    requires multiset(demanded) == multiset(Required(sc, requestStart))
    requires !l.requiredOverflow
    ensures var chosen := Chosen(sc, requestStart, l.budget);
            && multiset(l.required + Payloads(l.optional)) == multiset(chosen)
            && l.requiredCost + l.optionalCost == Cost(chosen)
            && l.requiredHistory + HistoryIn(l.optional) == Before(chosen, requestStart)
            && |l.optional| == |Kept(sc, requestStart, l.budget)|
  {
    var required, kept := Required(sc, requestStart), Flatten(Kept(sc, requestStart, l.budget));
    SettledKeeps(l, sc, demanded, requestStart);
    Rearranged(demanded, required, requestStart);
    CostConcat(required, kept);
    BeforeConcat(required, kept, requestStart);
    KeptEarly(sc, requestStart, DropCount(OptionalOf(Groups(sc), requestStart), Cost(required), l.budget));
  }

  lemma {:induction false} AnswerIsAccounted(s: Stream, ms: seq<Message>, requestStart: nat, demanded: seq<Entry>)
    requires requestStart <= |ms| && ScanOf(ms, requestStart).Scan?
    requires ScanOf(ms, requestStart).pending == {}
    requires Tracks(s, CloseIf(ScanOf(ms, requestStart), true), demanded, requestStart)
    requires multiset(demanded) == multiset(Required(ScanOf(ms, requestStart), requestStart))
    requires s.tally == Tally(requestStart, |ms| - requestStart, MessageCost(ms))
    requires !s.ledger.requiredOverflow
    ensures Answer(s) == Accounted(ms, requestStart, s.ledger.budget)
  {
    hide ScanOf, Settled, OptionalOf, MandatoryOf, Cost, Flatten, Pick, Missing, Indices, Payloads, HistoryIn;
    hide SortByIndex, MessageCost, Chosen, Required, Kept;
    var sc, l := ScanOf(ms, requestStart), s.ledger;
    var chosen := Chosen(sc, requestStart, l.budget);
    assert CloseIf(sc, true).closed == Groups(sc);
    SettledChooses(l, sc, demanded, requestStart);
    ChosenWithin(ms, requestStart, sc, l.budget);
    SortedPick(ms, l.required + Payloads(l.optional), chosen);
    MissingCount(requestStart, chosen);
  }

  /** For every history, request and budget, the stream reports exactly what the materialized
      selection reports: the same messages and accounting, or the same first error. */
  lemma {:induction false} StreamRefinesSelection(history: seq<Message>, current: seq<Message>, budget: Budget)
    ensures Finish(Run(history + current, |history|, budget)) == SelectionOf(history, current, budget)
  {
    var ms, h := history + current, |history|;
    var s, sc, demanded := Run(ms, h, budget), ScanOf(ms, h), DemandedOf(ms, h);
    RunDescribes(ms, h, budget);
    if sc.Scan? && sc.pending == {} {
      var all := demanded + LastDemand(sc, h);
      FinalDemand(ms, h);
      CloseTracks(s, sc, demanded, h);
      CloseKeepsTally(s);
      Rearranged(all, Required(sc, h), h);
      if !Close(s).ledger.requiredOverflow { AnswerIsAccounted(Close(s), ms, h, all); }
    }
  }
}
