/** What a context selection promises, for every history, request and budget. */
module ContextLaws {
  import opened Messages
  import opened ContextSpec
  import opened ContextFacts
  import opened ContextSelect

  function SystemMessages(ms: seq<Message>): seq<Message> {
    if |ms| == 0 then []
    else SystemMessages(ms[..|ms| - 1]) + (if ms[|ms| - 1].role.System? then [ms[|ms| - 1]] else [])
  }

  /** The groups that survive: the optional suffix that fits, then the mandatory ones. */
  function Surviving(sc: Scan, requestStart: nat, budget: Budget): seq<Group>
    requires sc.Scan?
  {
    Kept(sc, requestStart, budget) + MandatoryOf(Groups(sc), requestStart)
  }

  function Dropped(sc: Scan, requestStart: nat, budget: Budget): seq<Group>
    requires sc.Scan?
  {
    var optional := OptionalOf(Groups(sc), requestStart);
    optional[..DropCount(optional, Cost(Required(sc, requestStart)), budget)]
  }

  /** Where the surviving groups begin: everything from here on is selected. */
  function Cut(sc: Scan, requestStart: nat, budget: Budget, n: nat): nat
    requires sc.Scan?
  {
    FirstOf(Surviving(sc, requestStart, budget), n)
  }

  lemma SplitGroups(gs: seq<Group>, optional: seq<Group>, mandatory: seq<Group>, d: nat)
    requires gs == optional + mandatory && d <= |optional|
    ensures gs[..d] == optional[..d] && gs[d..] == optional[d..] + mandatory
    ensures Flatten(gs) == Flatten(gs[..d]) + Flatten(gs[d..])
    ensures Flatten(gs[d..]) == Flatten(optional[d..]) + Flatten(mandatory)
  {
    hide Flatten;
    assert gs == gs[..d] + gs[d..];
    FlattenConcat(gs[..d], gs[d..]);
    FlattenConcat(optional[d..], mandatory);
  }

  /** The groups from any point in the optional ones on are the tail of all groups. */
  lemma SplitAt(ms: seq<Message>, requestStart: nat, sc: Scan, d: nat)
    requires Complete(sc, ms, requestStart) && d <= |OptionalOf(Groups(sc), requestStart)|
    ensures var gs, optional, mandatory := Groups(sc), OptionalOf(Groups(sc), requestStart),
                                           MandatoryOf(Groups(sc), requestStart);
            && d <= |gs| && gs[..d] == optional[..d] && gs[d..] == optional[d..] + mandatory
            && EntriesWhere(ms, false) == Flatten(gs[..d]) + Flatten(gs[d..])
            && Flatten(gs[d..]) == Flatten(optional[d..]) + Flatten(mandatory)
  {
    var gs, optional, mandatory := Groups(sc), OptionalOf(Groups(sc), requestStart),
                                   MandatoryOf(Groups(sc), requestStart);
    GroupEntries(ms, requestStart, sc);
    ScanPartitions(ms, requestStart);
    hide ScanOf, Groups, OptionalOf, MandatoryOf, EntriesWhere, Flatten;
    SplitGroups(gs, optional, mandatory, d);
  }

  lemma SplitAtCut(ms: seq<Message>, requestStart: nat, sc: Scan, budget: Budget)
    requires Complete(sc, ms, requestStart)
    ensures Groups(sc) == Dropped(sc, requestStart, budget) + Surviving(sc, requestStart, budget)
    ensures EntriesWhere(ms, false)
         == Flatten(Dropped(sc, requestStart, budget)) + Flatten(Surviving(sc, requestStart, budget))
    ensures Flatten(Surviving(sc, requestStart, budget))
         == Flatten(Kept(sc, requestStart, budget)) + Flatten(MandatoryOf(Groups(sc), requestStart))
  {
    var optional := OptionalOf(Groups(sc), requestStart);
    SplitAt(ms, requestStart, sc, DropCount(optional, Cost(Required(sc, requestStart)), budget));
  }

  /** Of entries in increasing order, the ones in a tail are those at or past its first index. */
  lemma TailIndices(dropped: seq<Entry>, tail: seq<Entry>, e: Entry, n: nat)
    requires Increasing(dropped + tail) && e in dropped + tail && e.index < n
    ensures e in tail <==> e.index >= (if tail == [] then n else tail[0].index)
  {
    var all := dropped + tail;
    var k :| 0 <= k < |all| && all[k] == e;
    assert forall q | 0 <= q < |tail| :: all[|dropped| + q] == tail[q];
    if k >= |dropped| { assert tail[k - |dropped|] == e; }
    if e in tail {
      var q :| 0 <= q < |tail| && tail[q] == e;
      assert all[|dropped|].index <= all[|dropped| + q].index;
    }
  }

  lemma IndexIsEntry(ms: seq<Message>, es: seq<Entry>, i: nat)
    requires From(es, ms) && i < |ms|
    ensures i in Indices(es) <==> Entry(i, ms[i]) in es
  {
    if i in Indices(es) {
      var x :| x in es && x.index == i;
      var k :| 0 <= k < |es| && es[k] == x;
    }
  }

  /** Where the tail of the groups begins: `n` if it is empty. */
  function FirstOf(tail: seq<Group>, n: nat): nat {
    if Flatten(tail) == [] then n else Flatten(tail)[0].index
  }

  /** What is left when the oldest `d` optional groups go. */
  function Remaining(sc: Scan, requestStart: nat, d: nat): seq<Entry>
    requires sc.Scan? && d <= |OptionalOf(Groups(sc), requestStart)|
  {
    Required(sc, requestStart) + Flatten(OptionalOf(Groups(sc), requestStart)[d..])
  }

  /** An index is left exactly when it holds a system message or lies at or past the first group left. */
  lemma RemainingAtCut(ms: seq<Message>, requestStart: nat, sc: Scan, d: nat, i: nat)
    requires Complete(sc, ms, requestStart) && d <= |OptionalOf(Groups(sc), requestStart)| && i < |ms|
    ensures d <= |Groups(sc)|
    ensures i in Indices(Remaining(sc, requestStart, d)) <==>
              ms[i].role.System? || i >= FirstOf(Groups(sc)[d..], |ms|)
  {
    var left, e := Remaining(sc, requestStart, d), Entry(i, ms[i]);
    SplitAt(ms, requestStart, sc, d);
    ScanPartitions(ms, requestStart);
    PartsDistinct(ms, requestStart, sc, d);
    hide ScanOf, Groups, OptionalOf, MandatoryOf, EntriesWhere, Flatten;
    var tail := Flatten(Groups(sc)[d..]);
    IndexIsEntry(ms, left, i);
    assert e in left <==> e in sc.systems || e in tail;
    EntriesWhereFacts(ms, true);
    if ms[i].role.System? {
      assert e in sc.systems;
    } else {
      EntriesWhereFacts(ms, false);
      TailIndices(Flatten(Groups(sc)[..d]), tail, e, |ms|);
      assert e !in sc.systems;
    }
  }

  /** An index is selected exactly when it holds a system message or lies at or past the cut. */
  lemma ChosenAtCut(ms: seq<Message>, requestStart: nat, sc: Scan, budget: Budget, i: nat)
    requires Complete(sc, ms, requestStart) && i < |ms|
    ensures i in Indices(Chosen(sc, requestStart, budget)) <==>
              ms[i].role.System? || i >= Cut(sc, requestStart, budget, |ms|)
  {
    var optional := OptionalOf(Groups(sc), requestStart);
    var d := DropCount(optional, Cost(Required(sc, requestStart)), budget);
    RemainingAtCut(ms, requestStart, sc, d, i);
    SplitAt(ms, requestStart, sc, d);
  }

  lemma CutWithin(ms: seq<Message>, requestStart: nat, sc: Scan, budget: Budget)
    requires Complete(sc, ms, requestStart)
    ensures Cut(sc, requestStart, budget, |ms|) <= |ms|
  {
    var dropped, tail := Flatten(Dropped(sc, requestStart, budget)), Flatten(Surviving(sc, requestStart, budget));
    SplitAtCut(ms, requestStart, sc, budget);
    EntriesWhereFacts(ms, false);
    if tail != [] { assert (dropped + tail)[|dropped|] == tail[0]; }
  }

  lemma {:induction false} PickCut(ms: seq<Message>, chosen: set<nat>, cut: nat)
    requires cut <= |ms|
    requires forall i | 0 <= i < |ms| :: i in chosen <==> ms[i].role.System? || i >= cut
    ensures Pick(ms, chosen) == SystemMessages(ms[..cut]) + ms[cut..]
  {
    if |ms| > 0 {
      var n := |ms| - 1;
      assert forall i | 0 <= i < n :: ms[..n][i] == ms[i];
      assert n in chosen <==> ms[n].role.System? || n >= cut;
      if cut == |ms| {
        PickCut(ms[..n], chosen, n);
        PickSystems(ms, chosen);
      } else {
        PickCut(ms[..n], chosen, cut);
        PickLast(ms, chosen, cut);
      }
    }
  }

  lemma PickSystems(ms: seq<Message>, chosen: set<nat>)
    requires |ms| > 0 && (|ms| - 1 in chosen <==> ms[|ms| - 1].role.System?)
    requires var n := |ms| - 1; Pick(ms[..n], chosen) == SystemMessages(ms[..n][..n]) + ms[..n][n..]
    ensures Pick(ms, chosen) == SystemMessages(ms[..|ms|]) + ms[|ms|..]
  {
    assert ms[..|ms|] == ms && ms[..|ms| - 1][..|ms| - 1] == ms[..|ms| - 1];
  }

  lemma PickLast(ms: seq<Message>, chosen: set<nat>, cut: nat)
    requires cut < |ms| && |ms| - 1 in chosen
    requires Pick(ms[..|ms| - 1], chosen) == SystemMessages(ms[..|ms| - 1][..cut]) + ms[..|ms| - 1][cut..]
    ensures Pick(ms, chosen) == SystemMessages(ms[..cut]) + ms[cut..]
  {
    hide SystemMessages;
    var n := |ms| - 1;
    assert ms[..n][..cut] == ms[..cut];
    assert ms[cut..] == ms[..n][cut..] + [ms[n]];
  }

  /** The shape of every selection: the system messages before one cut, and everything after it. */
  lemma {:induction false} SelectionShape(history: seq<Message>, current: seq<Message>, budget: Budget)
    requires SelectionOf(history, current, budget).Selected?
    ensures var ms := history + current;
            var cut := Cut(ScanOf(ms, |history|), |history|, budget, |ms|);
            && cut <= |ms|
            && (forall i | cut > i >= |history| :: ms[i].role.System?)
            && SelectionOf(history, current, budget).selection.messages
               == SystemMessages(ms[..cut]) + ms[cut..]
  {
    var ms := history + current;
    var sc := ScanOf(ms, |history|);
    var chosen := Indices(Chosen(sc, |history|, budget));
    var cut := Cut(sc, |history|, budget, |ms|);
    forall i | 0 <= i < |ms| ensures i in chosen <==> ms[i].role.System? || i >= cut {
      ChosenAtCut(ms, |history|, sc, budget, i);
    }
    CutWithin(ms, |history|, sc, budget);
    forall i | cut > i >= |history| ensures ms[i].role.System? {
      RequestCovered(ms, |history|, sc, i);
      RequiredChosen(sc, |history|, budget, i);
    }
    PickCut(ms, chosen, cut);
  }

  lemma RequiredChosen(sc: Scan, requestStart: nat, budget: Budget, i: nat)
    requires sc.Scan? && i in Indices(Required(sc, requestStart))
    ensures i in Indices(Chosen(sc, requestStart, budget))
  {
    IndicesConcat(Required(sc, requestStart), Flatten(Kept(sc, requestStart, budget)));
  }

  // ----- byte accounting -----

  lemma {:induction false} PickIsFrom(ms: seq<Message>, chosen: set<nat>)
    ensures forall m | m in Pick(ms, chosen) :: m in ms
  {
    if |ms| > 0 { PickIsFrom(ms[..|ms| - 1], chosen); }
  }

  /** The reported bytes are the lengths of the JSON arrays, and the selected array fits. */
  lemma BytesAreExact(history: seq<Message>, current: seq<Message>, budget: Budget)
    requires SelectionOf(history, current, budget).Selected?
    ensures var sel := SelectionOf(history, current, budget).selection;
            && (forall m | m in history + current + sel.messages :: m.encoding.Encoded?)
            && sel.selectedBytes == |EncodeArray(sel.messages)| <= budget
            && sel.inputBytes == |EncodeArray(history + current)|
  {
    var ms := history + current;
    var sc := ScanOf(ms, |history|);
    var chosen := Chosen(sc, |history|, budget);
    var sel := SelectionOf(history, current, budget).selection;
    PrefixScans(ms, |ms|, |history|);
    PickIsFrom(ms, Indices(chosen));
    ChosenWithin(ms, |history|, sc, budget);
    CostOfIndices(ms, chosen);
    EncodedArrayLength(sel.messages);
    EncodedArrayLength(ms);
    CostAtLeastOne(sel.messages);
    CostAtLeastOne(ms);
    ChosenFits(sc, |history|, budget);
  }

  lemma {:induction false} ChosenFits(sc: Scan, requestStart: nat, budget: Budget)
    requires sc.Scan? && Fits(Cost(Required(sc, requestStart)), budget)
    ensures Fits(Cost(Chosen(sc, requestStart, budget)), budget)
  {
    var optional, base := OptionalOf(Groups(sc), requestStart), Cost(Required(sc, requestStart));
    var d := DropCount(optional, base, budget);
    DropFromLeast(optional, 0, base, budget);
    TailIsFlat(optional, d);
    CostConcat(Required(sc, requestStart), Flatten(optional[d..]));
  }

  // ----- maximality and monotonicity -----

  /** No longer suffix of the optional groups would have fitted. */
  lemma SuffixIsLongest(sc: Scan, requestStart: nat, budget: Budget, j: nat)
    requires sc.Scan? && j < |Dropped(sc, requestStart, budget)|
    ensures var optional := OptionalOf(Groups(sc), requestStart);
            !Fits(Cost(Required(sc, requestStart) + Flatten(optional[j..])), budget)
  {
    hide Cost, Flatten, Groups, OptionalOf, MandatoryOf, Required;
    var optional, base := OptionalOf(Groups(sc), requestStart), Cost(Required(sc, requestStart));
    DropFromLeast(optional, 0, base, budget);
    TailIsFlat(optional, j);
    CostConcat(Required(sc, requestStart), Flatten(optional[j..]));
  }

  lemma FewerDropped(optional: seq<Group>, base: nat, small: Budget, large: Budget)
    requires small <= large
    ensures DropCount(optional, base, large) <= DropCount(optional, base, small)
  {
    DropFromLeast(optional, 0, base, small);
    DropFromLeast(optional, 0, base, large);
  }

  /** A larger budget never selects less: it succeeds wherever the smaller one does, on at least
      the same messages. */
  lemma {:induction false} LargerBudgetSelectsMore(history: seq<Message>, current: seq<Message>, small: Budget,
                                                   large: Budget)
    requires small <= large
    requires SelectionOf(history, current, small).Selected?
    ensures SelectionOf(history, current, large).Selected?
    ensures var sc := ScanOf(history + current, |history|);
            Indices(Chosen(sc, |history|, small)) <= Indices(Chosen(sc, |history|, large))
  {
    var h := |history|;
    var sc := ScanOf(history + current, h);
    var optional, required := OptionalOf(Groups(sc), h), Required(sc, h);
    var a, b := DropCount(optional, Cost(required), small), DropCount(optional, Cost(required), large);
    hide Cost, Flatten, Groups, OptionalOf, MandatoryOf, DropCount, Indices, Pick, Missing;
    FewerDropped(optional, Cost(required), small, large);
    KeepsMore(required, optional, a, b);
  }

  lemma KeepsMore(required: seq<Entry>, optional: seq<Group>, a: nat, b: nat)
    requires b <= a <= |optional|
    ensures Indices(required + Flatten(optional[a..])) <= Indices(required + Flatten(optional[b..]))
  {
    hide Flatten, Indices;
    assert optional[b..] == optional[b..a] + optional[a..];
    FlattenConcat(optional[b..a], optional[a..]);
    IndicesConcat(required, Flatten(optional[b..]));
    IndicesConcat(Flatten(optional[b..a]), Flatten(optional[a..]));
    IndicesConcat(required, Flatten(optional[a..]));
  }
}
