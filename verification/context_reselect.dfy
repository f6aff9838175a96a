/** Selecting again from what a selection returned changes nothing. */
module ContextReselect {
  import opened Messages
  import opened ContextSpec
  import opened ContextFacts
  import opened ContextSelect
  import opened ContextLaws

  // ----- a group really starts where it says -----

  /** Nothing before index `cut` is open across it: a scan stopped there holds exactly the groups
      `before`, with no exchange pending, and the message at `cut` opens a new group. */
  ghost predicate OpensAt(ms: seq<Message>, cut: nat, requestStart: nat, before: seq<Group>) {
    && cut < |ms|
    && ScanOf(ms[..cut], requestStart).Scan?
    && var sc := ScanOf(ms[..cut], requestStart);
    && Groups(sc) == before && sc.pending == {}
    && (sc.open == [] || Starts(ms[cut], cut, requestStart))
  }

  lemma OpensAtLonger(ms: seq<Message>, n: nat, cut: nat, requestStart: nat, before: seq<Group>)
    requires n <= |ms| && OpensAt(ms[..n], cut, requestStart, before)
    ensures OpensAt(ms, cut, requestStart, before)
  {
    assert ms[..n][..cut] == ms[..cut];
  }

  /** What one more message does to the list of groups. */
  lemma GroupsStep(ms: seq<Message>, requestStart: nat)
    requires |ms| > 0 && ScanOf(ms, requestStart).Scan?
    ensures ScanOf(ms[..|ms| - 1], requestStart).Scan?
    ensures var n := |ms| - 1;
            var was, now := ScanOf(ms[..n], requestStart), ScanOf(ms, requestStart);
            var e := Entry(n, ms[n]);
            || (ms[n].role.System? && Groups(now) == Groups(was))
            || (Groups(now) == Groups(was) + [[e]] && was.pending == {}
                && (was.open == [] || Starts(ms[n], n, requestStart)))
            || (was.open != [] && Groups(now) == was.closed + [was.open + [e]])
  {
    var n := |ms| - 1;
    ScanPartitions(ms[..n], requestStart);
    var sc := ScanOf(ms[..n], requestStart);
    var closed := CloseIf(sc, Starts(ms[n], n, requestStart));
    assert Groups(closed) == Groups(sc);
    assert [] + [Entry(n, ms[n])] == [Entry(n, ms[n])];
  }

  lemma NewOpens(ms: seq<Message>, requestStart: nat, before: seq<Group>)
    requires |ms| > 0
    requires var was := ScanOf(ms[..|ms| - 1], requestStart);
             && was.Scan? && Groups(was) == before && was.pending == {}
             && (was.open == [] || Starts(ms[|ms| - 1], |ms| - 1, requestStart))
    ensures OpensAt(ms, |ms| - 1, requestStart, before)
  {
  }

  lemma SomeMessage(ms: seq<Message>, requestStart: nat)
    requires ScanOf(ms, requestStart).Scan? && Groups(ScanOf(ms, requestStart)) != []
    ensures |ms| > 0
  {
  }

  lemma Unsnoc(a: seq<Group>, x: Group, b: seq<Group>, c: seq<Group>)
    requires a + [x] == b + c && c != []
    ensures a == b + c[..|c| - 1] && x == c[|c| - 1]
  {
    assert (a + [x])[..|a|] == a;
    assert (b + c)[..|b + c| - 1] == b + c[..|c| - 1];
    assert (a + [x])[|a|] == (b + c)[|b + c| - 1];
  }

  /** The groups after `before`, one message earlier: none, if that message opened the first of them. */
  lemma {:induction false} GroupsBack(ms: seq<Message>, requestStart: nat, before: seq<Group>, after: seq<Group>)
    returns (rest: seq<Group>)
    requires ScanOf(ms, requestStart).Scan? && after != []
    requires Groups(ScanOf(ms, requestStart)) == before + after && NonEmpty(before + after)
    ensures |ms| > 0 && ScanOf(ms[..|ms| - 1], requestStart).Scan?
    ensures var was := ScanOf(ms[..|ms| - 1], requestStart);
            && Groups(was) == before + rest
            && after[0] != []
            && (rest != [] ==> rest[0] != [] && rest[0][0] == after[0][0])
            && (rest == [] ==>
                  && after[0][0].index == |ms| - 1 && was.pending == {}
                  && (was.open == [] || Starts(ms[|ms| - 1], |ms| - 1, requestStart)))
  {
    SomeMessage(ms, requestStart);
    GroupsStep(ms, requestStart);
    var n, last := |ms| - 1, |after| - 1;
    var was := ScanOf(ms[..n], requestStart);
    hide ScanOf, Starts;
    assert (before + after)[|before|] == after[0];
    if Groups(was) == before + after {
      rest := after;
    } else if Groups(was) + [[Entry(n, ms[n])]] == before + after {
      Unsnoc(Groups(was), [Entry(n, ms[n])], before, after);
      rest := after[..last];
    } else {
      Unsnoc(was.closed, was.open + [Entry(n, ms[n])], before, after);
      rest := after[..last] + [was.open];
      assert was.closed + [was.open] == before + rest;
    }
  }

  lemma {:induction false} GroupOpens(ms: seq<Message>, requestStart: nat, before: seq<Group>, after: seq<Group>)
    requires ScanOf(ms, requestStart).Scan?
    requires Groups(ScanOf(ms, requestStart)) == before + after
    requires after != []
    ensures after[0] != [] && OpensAt(ms, after[0][0].index, requestStart, before)
  {
    hide Partitions, ScanOf, EntriesWhere, OpensAt, Groups, NonEmpty;
    ScanPartitions(ms, requestStart);
    var rest := GroupsBack(ms, requestStart, before, after);
    if rest == [] {
      assert before + rest == before;
      NewOpens(ms, requestStart, before);
    } else {
      GroupOpens(ms[..|ms| - 1], requestStart, before, rest);
      OpensAtLonger(ms, |ms| - 1, rest[0][0].index, requestStart, before);
    }
  }

  // ----- the same scan, a constant number of indices lower -----

  function Shifted(es: seq<Entry>, delta: nat): seq<Entry> {
    seq(|es|, k requires 0 <= k < |es| => Entry(es[k].index + delta, es[k].message))
  }

  function ShiftedGroups(gs: seq<Group>, delta: nat): seq<Group> {
    seq(|gs|, k requires 0 <= k < |gs| => Shifted(gs[k], delta))
  }

  lemma ShiftConcat(a: seq<Entry>, b: seq<Entry>, delta: nat)
    ensures Shifted(a + b, delta) == Shifted(a, delta) + Shifted(b, delta)
  {
  }

  lemma ShiftSnoc(es: seq<Entry>, e: Entry, delta: nat)
    ensures Shifted(es + [e], delta) == Shifted(es, delta) + [Entry(e.index + delta, e.message)]
  {
  }

  lemma {:induction false} ShiftCost(es: seq<Entry>, delta: nat)
    ensures Cost(Shifted(es, delta)) == Cost(es)
  {
    if |es| > 0 {
      assert es == es[..|es| - 1] + [es[|es| - 1]];
      ShiftSnoc(es[..|es| - 1], es[|es| - 1], delta);
      CostSnoc(Shifted(es[..|es| - 1], delta), Shifted(es, delta)[|es| - 1]);
      ShiftCost(es[..|es| - 1], delta);
    }
  }

  lemma ShiftGroupsSnoc(gs: seq<Group>, g: Group, delta: nat)
    ensures ShiftedGroups(gs + [g], delta) == ShiftedGroups(gs, delta) + [Shifted(g, delta)]
  {
  }

  lemma {:induction false} ShiftFlatten(gs: seq<Group>, delta: nat)
    ensures Flatten(ShiftedGroups(gs, delta)) == Shifted(Flatten(gs), delta)
  {
    if |gs| > 0 {
      var init, last := gs[..|gs| - 1], gs[|gs| - 1];
      assert gs == init + [last];
      ShiftGroupsSnoc(init, last, delta);
      ShiftFlatten(init, delta);
      ShiftConcat(Flatten(init), last, delta);
      FlattenSnoc(ShiftedGroups(init, delta), Shifted(last, delta));
    }
  }

  /** `low` is the scan `high` without the groups `before`, `delta` indices lower. */
  ghost predicate Mirrors(high: Scan, low: Scan, before: seq<Group>, delta: nat) {
    || (high.Stopped? && low == high)
    || (&& high.Scan? && low.Scan?
        && high.pending == low.pending
        && high.open == Shifted(low.open, delta)
        && high.closed == before + ShiftedGroups(low.closed, delta))
  }

  lemma MirrorClose(high: Scan, low: Scan, before: seq<Group>, delta: nat, closing: bool)
    requires high.Scan? && Mirrors(high, low, before, delta)
    ensures Mirrors(CloseIf(high, closing), CloseIf(low, closing), before, delta)
  {
    ShiftGroupsSnoc(low.closed, low.open, delta);
    assert before + (ShiftedGroups(low.closed, delta) + [high.open])
        == before + ShiftedGroups(low.closed, delta) + [high.open];
  }

  lemma MirrorStep(high: Scan, low: Scan, before: seq<Group>, delta: nat, m: Message, index: nat,
                   requestStart: nat, lowStart: nat)
    requires Mirrors(high, low, before, delta)
    requires (index + delta == requestStart) == (index == lowStart)
    ensures Mirrors(Step(high, m, index + delta, requestStart), Step(low, m, index, lowStart), before, delta)
  {
    if high.Scan? && m.encoding.Encoded? {
      var closing := Starts(m, index, lowStart);
      MirrorClose(high, low, before, delta, closing);
      ShiftSnoc(CloseIf(low, closing).open, Entry(index, m), delta);
    }
  }

  // ----- selecting again -----

  /** The messages a cut leaves, and how far down it moves the ones after it. */
  ghost predicate Reduced(ms: seq<Message>, cut: nat, requestStart: nat, less: seq<Message>,
                          delta: nat, lowStart: nat)
  {
    && cut <= |ms|
    && less == SystemMessages(ms[..cut]) + ms[cut..]
    && cut == |SystemMessages(ms[..cut])| + delta
    && lowStart + delta == requestStart
  }

  lemma {:induction false} SystemsAreSystems(ms: seq<Message>)
    ensures forall m | m in SystemMessages(ms) :: m.role.System? && m in ms
    ensures |SystemMessages(ms)| <= |ms|
  {
    if |ms| > 0 { SystemsAreSystems(ms[..|ms| - 1]); }
  }

  /** System messages alone never open a group. */
  lemma {:induction false} SystemsScan(ms: seq<Message>, requestStart: nat)
    requires forall m | m in ms :: m.role.System? && m.encoding.Encoded?
    ensures var sc := ScanOf(ms, requestStart);
            sc.Scan? && sc.closed == [] && sc.open == [] && sc.pending == {}
  {
    if |ms| > 0 { SystemsScan(ms[..|ms| - 1], requestStart); }
  }

  lemma ReducedPrefix(ms: seq<Message>, cut: nat, requestStart: nat, less: seq<Message>, delta: nat,
                      lowStart: nat, j: nat)
    requires Reduced(ms, cut, requestStart, less, delta, lowStart) && cut <= j < |ms|
    ensures delta <= j && j - delta < |less| && less[j - delta] == ms[j]
    ensures less[..j - delta + 1][..j - delta] == less[..j - delta]
    ensures ms[..j + 1][..j] == ms[..j]
    ensures (j == requestStart) == (j - delta == lowStart)
  {
  }

  lemma MirrorFirst(ms: seq<Message>, cut: nat, requestStart: nat, less: seq<Message>,
                    delta: nat, lowStart: nat, before: seq<Group>)
    requires Reduced(ms, cut, requestStart, less, delta, lowStart)
    requires OpensAt(ms, cut, requestStart, before) && !ms[cut].role.System?
    requires forall m | m in ms :: m.encoding.Encoded?
    ensures cut + 1 - delta <= |less|
    ensures Mirrors(ScanOf(ms[..cut + 1], requestStart), ScanOf(less[..cut + 1 - delta], lowStart), before, delta)
  {
    ReducedPrefix(ms, cut, requestStart, less, delta, lowStart, cut);
    ScanNext(ms, cut, requestStart);
    ScanNext(less, cut - delta, lowStart);
    HeadScans(ms, cut, requestStart, less, delta, lowStart);
    StartMirrors(ScanOf(ms[..cut], requestStart), ScanOf(less[..cut - delta], lowStart), ms[cut], cut,
                 requestStart, delta, lowStart, before);
  }

  lemma MirrorNext(ms: seq<Message>, cut: nat, requestStart: nat, less: seq<Message>,
                   delta: nat, lowStart: nat, before: seq<Group>, j: nat)
    requires Reduced(ms, cut, requestStart, less, delta, lowStart)
    requires cut < j < |ms| && j - delta <= |less|
    requires Mirrors(ScanOf(ms[..j], requestStart), ScanOf(less[..j - delta], lowStart), before, delta)
    ensures j + 1 - delta <= |less|
    ensures Mirrors(ScanOf(ms[..j + 1], requestStart), ScanOf(less[..j + 1 - delta], lowStart), before, delta)
  {
    hide ScanOf, Mirrors, Reduced;
    ReducedPrefix(ms, cut, requestStart, less, delta, lowStart, j);
    ScanNext(ms, j, requestStart);
    ScanNext(less, j - delta, lowStart);
    MirrorStep(ScanOf(ms[..j], requestStart), ScanOf(less[..j - delta], lowStart), before, delta,
               ms[j], j - delta, requestStart, lowStart);
  }

  /** From the cut on, scanning the reduced list mirrors scanning the whole one. */
  lemma {:induction false} ScanMirrors(ms: seq<Message>, cut: nat, requestStart: nat, less: seq<Message>,
                                       delta: nat, lowStart: nat, before: seq<Group>, j: nat)
    requires Reduced(ms, cut, requestStart, less, delta, lowStart)
    requires OpensAt(ms, cut, requestStart, before) && !ms[cut].role.System?
    requires forall m | m in ms :: m.encoding.Encoded?
    requires cut < j <= |ms|
    ensures delta <= j && j - delta <= |less|
    ensures Mirrors(ScanOf(ms[..j], requestStart), ScanOf(less[..j - delta], lowStart), before, delta)
  {
    if j == cut + 1 {
      MirrorFirst(ms, cut, requestStart, less, delta, lowStart, before);
    } else {
      ScanMirrors(ms, cut, requestStart, less, delta, lowStart, before, j - 1);
      MirrorNext(ms, cut, requestStart, less, delta, lowStart, before, j - 1);
    }
  }

  lemma HeadScans(ms: seq<Message>, cut: nat, requestStart: nat, less: seq<Message>, delta: nat, lowStart: nat)
    requires Reduced(ms, cut, requestStart, less, delta, lowStart)
    requires forall m | m in ms :: m.encoding.Encoded?
    ensures var low := ScanOf(less[..cut - delta], lowStart);
            low.Scan? && low.closed == [] && low.open == [] && low.pending == {}
  {
    var head := SystemMessages(ms[..cut]);
    SystemsAreSystems(ms[..cut]);
    assert less[..cut - delta] == head;
    forall m | m in head ensures m.encoding.Encoded? { assert m in ms[..cut]; }
    SystemsScan(head, lowStart);
  }

  lemma StartMirrors(high: Scan, low: Scan, m: Message, cut: nat, requestStart: nat, delta: nat,
                     lowStart: nat, before: seq<Group>)
    requires high.Scan? && Groups(high) == before && high.pending == {}
    requires high.open == [] || Starts(m, cut, requestStart)
    requires low.Scan? && low.closed == [] && low.open == [] && low.pending == {}
    requires delta <= cut && m.encoding.Encoded? && !m.role.System?
    ensures Mirrors(Step(high, m, cut, requestStart), Step(low, m, cut - delta, lowStart), before, delta)
  {
    var closing := Starts(m, cut, requestStart);
    assert CloseIf(high, closing).closed == before && CloseIf(high, closing).open == [];
    ShiftSnoc([], Entry(cut - delta, m), delta);
    assert before + ShiftedGroups([], delta) == before;
    assert [] + [Entry(cut, m)] == [Entry(cut, m)];
  }

  // ----- a selection with nothing to drop -----

  /** When nothing is dropped, the selection is the whole input. */
  lemma {:induction false} NothingDropped(ms: seq<Message>, requestStart: nat, sc: Scan, budget: Budget)
    requires Complete(sc, ms, requestStart) && Dropped(sc, requestStart, budget) == []
    ensures Accounted(ms, requestStart, budget)
         == Selection(ms, ArrayBytes(MessageCost(ms)), ArrayBytes(MessageCost(ms)), requestStart,
                      |ms| - requestStart, 0, 0)
  {
    var chosen := Chosen(sc, requestStart, budget);
    forall i | 0 <= i < |ms| ensures i in Indices(chosen) {
      NoneMissed(ms, requestStart, sc, budget, i);
    }
    PickAll(ms, Indices(chosen));
    ChosenWithin(ms, requestStart, sc, budget);
    CostOfIndices(ms, chosen);
    NoneMissing(requestStart, Indices(chosen));
  }

  lemma NoneMissed(ms: seq<Message>, requestStart: nat, sc: Scan, budget: Budget, i: nat)
    requires Complete(sc, ms, requestStart) && Dropped(sc, requestStart, budget) == []
    requires i < |ms|
    ensures i in Indices(Chosen(sc, requestStart, budget))
  {
    var e := Entry(i, ms[i]);
    SplitAtCut(ms, requestStart, sc, budget);
    ScanPartitions(ms, requestStart);
    EntriesWhereFacts(ms, ms[i].role.System?);
    assert e in EntriesWhere(ms, ms[i].role.System?);
    assert e in Chosen(sc, requestStart, budget);
  }

  lemma {:induction false} NoneMissing(n: nat, chosen: set<nat>)
    requires forall i | 0 <= i < n :: i in chosen
    ensures Missing(n, chosen) == 0
  {
    if n > 0 { NoneMissing(n - 1, chosen); }
  }

  // ----- the groups of the reduced list -----

  lemma {:induction false} FilterConcat(a: seq<Group>, b: seq<Group>, requestStart: nat)
    ensures OptionalOf(a + b, requestStart) == OptionalOf(a, requestStart) + OptionalOf(b, requestStart)
    ensures MandatoryOf(a + b, requestStart) == MandatoryOf(a, requestStart) + MandatoryOf(b, requestStart)
  {
    if b == [] {
      assert a + b == a;
    } else {
      assert (a + b)[..|a + b| - 1] == a + b[..|b| - 1];
      FilterConcat(a, b[..|b| - 1], requestStart);
    }
  }

  /** Shifting groups below a matching boundary keeps them optional or mandatory. */
  lemma {:induction false} FilterShift(gs: seq<Group>, delta: nat, requestStart: nat, lowStart: nat)
    requires forall g, e | g in gs && e in g :: (e.index + delta >= requestStart) == (e.index >= lowStart)
    ensures OptionalOf(ShiftedGroups(gs, delta), requestStart) == ShiftedGroups(OptionalOf(gs, lowStart), delta)
    ensures MandatoryOf(ShiftedGroups(gs, delta), requestStart) == ShiftedGroups(MandatoryOf(gs, lowStart), delta)
  {
    if |gs| > 0 {
      var init, last := gs[..|gs| - 1], gs[|gs| - 1];
      assert gs == init + [last];
      FilterShift(init, delta, requestStart, lowStart);
      ShiftGroupsSnoc(init, last, delta);
      MandatoryShift(last, delta, requestStart, lowStart);
      FilterSnoc(ShiftedGroups(init, delta), Shifted(last, delta), requestStart);
      ShiftGroupsSnoc(OptionalOf(init, lowStart), last, delta);
      ShiftGroupsSnoc(MandatoryOf(init, lowStart), last, delta);
    }
  }

  lemma MandatoryShift(g: Group, delta: nat, requestStart: nat, lowStart: nat)
    requires forall e | e in g :: (e.index + delta >= requestStart) == (e.index >= lowStart)
    ensures Mandatory(Shifted(g, delta), requestStart) == Mandatory(g, lowStart)
  {
    assert forall k | 0 <= k < |g| :: g[k] in g;
    if k :| 0 <= k < |g| && g[k].index >= lowStart {
      assert Shifted(g, delta)[k].index >= requestStart;
    }
  }

  lemma {:induction false} FilterPure(gs: seq<Group>, requestStart: nat, mandatory: bool)
    requires forall k | 0 <= k < |gs| :: Mandatory(gs[k], requestStart) == mandatory
    ensures OptionalOf(gs, requestStart) == (if mandatory then [] else gs)
    ensures MandatoryOf(gs, requestStart) == (if mandatory then gs else [])
  {
    hide Mandatory;
    if |gs| > 0 {
      var init, last := gs[..|gs| - 1], gs[|gs| - 1];
      assert forall k | 0 <= k < |init| :: init[k] == gs[k];
      FilterPure(init, requestStart, mandatory);
      assert Mandatory(last, requestStart) == mandatory && init + [last] == gs;
    }
  }

  lemma {:induction false} SystemTail(ms: seq<Message>, a: nat, b: nat)
    requires a <= b <= |ms|
    requires forall i | a <= i < b :: ms[i].role.System?
    ensures SystemMessages(ms[..b]) == SystemMessages(ms[..a]) + ms[a..b]
  {
    if a < b {
      assert ms[..b][..b - 1] == ms[..b - 1];
      SystemTail(ms, a, b - 1);
    }
  }

  lemma {:induction false} SystemsConcat(a: seq<Message>, b: seq<Message>)
    ensures SystemMessages(a + b) == SystemMessages(a) + SystemMessages(b)
  {
    if b == [] {
      assert a + b == a;
    } else {
      assert (a + b)[..|a + b| - 1] == a + b[..|b| - 1];
      SystemsConcat(a, b[..|b| - 1]);
    }
  }

  lemma {:induction false} SystemsCost(ms: seq<Message>)
    ensures Cost(EntriesWhere(ms, true)) == MessageCost(SystemMessages(ms))
  {
    if |ms| > 0 {
      var n := |ms| - 1;
      SystemsCost(ms[..n]);
      CostSnoc(EntriesWhere(ms[..n], true), Entry(n, ms[n]));
      assert (SystemMessages(ms[..n]) + [ms[n]])[..|SystemMessages(ms[..n])|] == SystemMessages(ms[..n]);
      assert SystemMessages(ms[..n]) + [] == SystemMessages(ms[..n]);
      assert EntriesWhere(ms[..n], true) + [] == EntriesWhere(ms[..n], true);
    }
  }

  lemma {:induction false} SystemsOnly(ms: seq<Message>)
    requires forall m | m in ms :: m.role.System?
    ensures SystemMessages(ms) == ms
  {
    if |ms| > 0 { SystemsOnly(ms[..|ms| - 1]); }
  }

  /** Reducing the front of a list to its system messages keeps the list's system messages. */
  lemma CutKeepsSystems(a: seq<Message>, b: seq<Message>)
    ensures SystemMessages(SystemMessages(a) + b) == SystemMessages(a + b)
  {
    var head := SystemMessages(a);
    assert SystemMessages(head) == head by {
      SystemsAreSystems(a);
      SystemsOnly(head);
    }
    SystemsConcat(head, b);
    SystemsConcat(a, b);
  }

  /** Cutting a list at a point that only system messages separate from the request keeps the whole
      request at its end. */
  lemma CutReduces(ms: seq<Message>, h: nat, cut: nat) returns (delta: nat, lowStart: nat)
    requires h <= |ms| && cut <= |ms|
    requires forall i | h <= i < cut :: ms[i].role.System?
    ensures var less := SystemMessages(ms[..cut]) + ms[cut..];
            && Reduced(ms, cut, h, less, delta, lowStart)
            && lowStart == |less| - (|ms| - h) && less[lowStart..] == ms[h..]
  {
    hide SystemMessages;
    SystemsAreSystems(ms[..cut]);
    delta := cut - |SystemMessages(ms[..cut])|;
    if cut > h {
      SystemTail(ms, h, cut);
      SystemsAreSystems(ms[..h]);
      assert ms[h..cut] + ms[cut..] == ms[h..];
      assert SystemMessages(ms[..h]) + ms[h..cut] + ms[cut..] == SystemMessages(ms[..h]) + ms[h..];
    }
    lowStart := h - delta;
  }

  /** What a selection leaves is a reduced list that still ends with the whole request. */
  lemma {:induction false} SelectionReduces(history: seq<Message>, current: seq<Message>, budget: Budget)
    returns (cut: nat, delta: nat, lowStart: nat)
    requires SelectionOf(history, current, budget).Selected?
    ensures cut == Cut(ScanOf(history + current, |history|), |history|, budget, |history + current|)
    ensures var less := SelectionOf(history, current, budget).selection.messages;
            && Reduced(history + current, cut, |history|, less, delta, lowStart)
            && lowStart == |less| - |current| && less[lowStart..] == current
  {
    SelectionShape(history, current, budget);
    cut := Cut(ScanOf(history + current, |history|), |history|, budget, |history + current|);
    delta, lowStart := CutReduces(history + current, |history|, cut);
  }

  /** The reduced list scans into exactly the surviving groups. */
  lemma ReducedGroups(ms: seq<Message>, sc: Scan, requestStart: nat, budget: Budget, cut: nat,
                      less: seq<Message>, delta: nat, lowStart: nat)
    requires Complete(sc, ms, requestStart) && sc.pending == {}
    requires cut == Cut(sc, requestStart, budget, |ms|)
    requires Reduced(ms, cut, requestStart, less, delta, lowStart)
    ensures ScanOf(less, lowStart).Scan? && ScanOf(less, lowStart).pending == {}
    ensures Surviving(sc, requestStart, budget) == ShiftedGroups(Groups(ScanOf(less, lowStart)), delta)
  {
    var low, before, after := ScanOf(less, lowStart), Dropped(sc, requestStart, budget),
                              Surviving(sc, requestStart, budget);
    PrefixScans(ms, |ms|, requestStart);
    SplitAtCut(ms, requestStart, sc, budget);
    if after == [] {
      assert less[..|ms| - delta] == less;
      HeadScans(ms, cut, requestStart, less, delta, lowStart);
    } else {
      AfterCutMirrors(ms, sc, requestStart, before, after, cut, less, delta, lowStart);
      MirroredGroups(sc, low, before, after, delta);
    }
  }

  lemma AfterCutMirrors(ms: seq<Message>, sc: Scan, requestStart: nat, before: seq<Group>,
                        after: seq<Group>, cut: nat, less: seq<Message>, delta: nat, lowStart: nat)
    requires Complete(sc, ms, requestStart) && Groups(sc) == before + after && after != []
    requires cut == (if Flatten(after) == [] then |ms| else Flatten(after)[0].index)
    requires Reduced(ms, cut, requestStart, less, delta, lowStart)
    requires forall m | m in ms :: m.encoding.Encoded?
    ensures Mirrors(sc, ScanOf(less, lowStart), before, delta)
  {
    GroupOpens(ms, requestStart, before, after);
    CutOpens(ms, sc, requestStart, before, after);
    ScanMirrors(ms, cut, requestStart, less, delta, lowStart, before, |ms|);
    assert ms[..|ms|] == ms && less[..|ms| - delta] == less;
  }

  lemma CutOpens(ms: seq<Message>, sc: Scan, requestStart: nat, before: seq<Group>, after: seq<Group>)
    requires Complete(sc, ms, requestStart) && Groups(sc) == before + after
    requires after != [] && after[0] != []
    ensures Flatten(after) != [] && Flatten(after)[0] == after[0][0]
    ensures after[0][0].index < |ms| && !ms[after[0][0].index].role.System?
  {
    GroupEntries(ms, requestStart, sc);
    assert after[0..] == after;
    FlattenTail(after, 0);
    FlattenConcat(before, after);
    assert Flatten(Groups(sc))[|Flatten(before)|] == after[0][0];
  }

  lemma MirroredGroups(high: Scan, low: Scan, before: seq<Group>, after: seq<Group>, delta: nat)
    requires high.Scan? && Mirrors(high, low, before, delta) && Groups(high) == before + after
    ensures low.Scan? && low.pending == high.pending && after == ShiftedGroups(Groups(low), delta)
  {
    ShiftGroupsSnoc(low.closed, low.open, delta);
    assert before + ShiftedGroups(low.closed, delta) + [high.open]
        == before + (ShiftedGroups(low.closed, delta) + [high.open]);
    assert Groups(high) == before + ShiftedGroups(Groups(low), delta);
    assert after == (before + after)[|before|..];
    assert ShiftedGroups(Groups(low), delta) == (before + ShiftedGroups(Groups(low), delta))[|before|..];
  }

  /** The surviving groups are the reduced list's groups, optional or mandatory as before. */
  lemma ReducedFilters(sc: Scan, requestStart: nat, budget: Budget, low: Scan, delta: nat, lowStart: nat)
    requires sc.Scan? && low.Scan? && lowStart + delta == requestStart
    requires Surviving(sc, requestStart, budget) == ShiftedGroups(Groups(low), delta)
    ensures Kept(sc, requestStart, budget) == ShiftedGroups(OptionalOf(Groups(low), lowStart), delta)
    ensures MandatoryOf(Groups(sc), requestStart) == ShiftedGroups(MandatoryOf(Groups(low), lowStart), delta)
  {
    var kept, must := Kept(sc, requestStart, budget), MandatoryOf(Groups(sc), requestStart);
    OptionalAreOptional(Groups(sc), requestStart);
    FilterPure(kept, requestStart, false);
    FilterPure(must, requestStart, true);
    FilterConcat(kept, must, requestStart);
    assert kept + [] == kept && [] + must == must;
    FilterShift(Groups(low), delta, requestStart, lowStart);
  }

  lemma {:induction false} SystemsCostSame(ms: seq<Message>, cut: nat, less: seq<Message>)
    requires cut <= |ms| && less == SystemMessages(ms[..cut]) + ms[cut..]
    ensures Cost(EntriesWhere(less, true)) == Cost(EntriesWhere(ms, true))
  {
    SystemsCost(ms);
    SystemsCost(less);
    CutKeepsSystems(ms[..cut], ms[cut..]);
    assert ms[..cut] + ms[cut..] == ms;
  }

  /** The reduced list has the surviving groups as its optional and mandatory ones, at the same
      cost. */
  lemma ReducedCosts(ms: seq<Message>, sc: Scan, requestStart: nat, budget: Budget,
                     less: seq<Message>, low: Scan, delta: nat, lowStart: nat)
    requires Complete(sc, ms, requestStart) && Complete(low, less, lowStart)
    requires Reduced(ms, Cut(sc, requestStart, budget, |ms|), requestStart, less, delta, lowStart)
    requires Surviving(sc, requestStart, budget) == ShiftedGroups(Groups(low), delta)
    ensures Cost(Required(low, lowStart)) == Cost(Required(sc, requestStart))
    ensures Cost(Flatten(OptionalOf(Groups(low), lowStart))) == Cost(Flatten(Kept(sc, requestStart, budget)))
  {
    ReducedFilters(sc, requestStart, budget, low, delta, lowStart);
    SameCost(OptionalOf(Groups(low), lowStart), delta);
    SameCost(MandatoryOf(Groups(low), lowStart), delta);
    ScanPartitions(ms, requestStart);
    ScanPartitions(less, lowStart);
    SystemsCostSame(ms, Cut(sc, requestStart, budget, |ms|), less);
    CostConcat(sc.systems, Flatten(MandatoryOf(Groups(sc), requestStart)));
    CostConcat(low.systems, Flatten(MandatoryOf(Groups(low), lowStart)));
  }

  lemma SameCost(gs: seq<Group>, delta: nat)
    ensures Cost(Flatten(ShiftedGroups(gs, delta))) == Cost(Flatten(gs))
  {
    ShiftFlatten(gs, delta);
    ShiftCost(Flatten(gs), delta);
  }

  lemma FitsWhole(low: Scan, lowStart: nat, budget: Budget)
    requires low.Scan?
    requires Fits(Cost(Required(low, lowStart)) + Cost(Flatten(OptionalOf(Groups(low), lowStart))), budget)
    ensures Dropped(low, lowStart, budget) == []
  {
    var optional := OptionalOf(Groups(low), lowStart);
    TailIsFlat(optional, 0);
    assert optional[0..] == optional;
    DropCountIs(optional, Cost(Required(low, lowStart)), budget, 0);
  }

  /** A complete list, ending in `current`, that fits as a whole. */
  ghost predicate FitsAlone(less: seq<Message>, current: seq<Message>, budget: Budget) {
    && |current| <= |less| && less[|less| - |current|..] == current
    && Whole(ScanOf(less, |less| - |current|), |less| - |current|, budget)
  }

  ghost predicate Whole(sc: Scan, requestStart: nat, budget: Budget) {
    && sc.Scan? && sc.pending == {}
    && Fits(Cost(Required(sc, requestStart)), budget)
    && Dropped(sc, requestStart, budget) == []
  }

  lemma SelectedScan(history: seq<Message>, current: seq<Message>, budget: Budget)
    requires SelectionOf(history, current, budget).Selected?
    ensures var sc := ScanOf(history + current, |history|);
            sc.Scan? && sc.pending == {} && Fits(Cost(Required(sc, |history|)), budget)
  {
    hide ScanOf, Groups, Cost, Required, Accounted, Fits;
  }

  lemma ReducedFits(history: seq<Message>, current: seq<Message>, budget: Budget)
    requires SelectionOf(history, current, budget).Selected?
    ensures FitsAlone(SelectionOf(history, current, budget).selection.messages, current, budget)
  {
    hide ScanOf, Groups, OptionalOf, MandatoryOf, Cost, Flatten, Reduced, Shifted, ShiftedGroups, Cut, Accounted;
    hide Dropped, Kept, SelectionOf, DropCount, Required, Surviving;
    var ms, h := history + current, |history|;
    var sc, less := ScanOf(ms, h), SelectionOf(history, current, budget).selection.messages;
    SelectedScan(history, current, budget);
    var cut, delta, kept := SelectionReduces(history, current, budget);
    ReducedGroups(ms, sc, h, budget, cut, less, delta, kept);
    ReducedCosts(ms, sc, h, budget, less, ScanOf(less, kept), delta, kept);
    ChosenFits(sc, h, budget);
    CostConcat(Required(sc, h), Flatten(Kept(sc, h, budget)));
    FitsWhole(ScanOf(less, kept), kept, budget);
  }

  /** The bytes reported are those of the messages selected. */
  lemma SelectedBytes(history: seq<Message>, current: seq<Message>, budget: Budget)
    requires SelectionOf(history, current, budget).Selected?
    ensures var sel := SelectionOf(history, current, budget).selection;
            sel.selectedBytes == ArrayBytes(MessageCost(sel.messages))
  {
    var ms, h := history + current, |history|;
    hide ScanOf, Groups, OptionalOf, MandatoryOf, Cost, Flatten, Chosen, Pick, MessageCost, Indices, Required;
    ChosenWithin(ms, h, ScanOf(ms, h), budget);
    CostOfIndices(ms, Chosen(ScanOf(ms, h), h, budget));
  }

  /** Such a list is selected whole. */
  lemma WholeIsSelected(history: seq<Message>, current: seq<Message>, budget: Budget)
    requires Whole(ScanOf(history + current, |history|), |history|, budget)
    ensures var bytes := ArrayBytes(MessageCost(history + current));
            SelectionOf(history, current, budget)
            == Selected(Selection(history + current, bytes, bytes, |history|, |current|, 0, 0))
  {
    hide ScanOf, Groups, Required, OptionalOf, Cost, Flatten, Dropped, MessageCost, Accounted, Fits;
    NothingDropped(history + current, |history|, ScanOf(history + current, |history|), budget);
  }

  /** Selecting from what a selection left, under the same budget, returns it unchanged and omits
      nothing more. */
  lemma ReselectionIsIdentity(history: seq<Message>, current: seq<Message>, budget: Budget)
    requires SelectionOf(history, current, budget).Selected?
    ensures var sel := SelectionOf(history, current, budget).selection;
            var kept := |sel.messages| - |current|;
            && kept >= 0 && sel.messages[kept..] == current
            && SelectionOf(sel.messages[..kept], current, budget)
               == Selected(Selection(sel.messages, sel.selectedBytes, sel.selectedBytes,
                                     kept, |current|, 0, 0))
  {
    hide SelectionOf, ScanOf, Whole, MessageCost;
    ReducedFits(history, current, budget);
    SelectedBytes(history, current, budget);
    var less := SelectionOf(history, current, budget).selection.messages;
    assert less[..|less| - |current|] + current == less;
    WholeIsSelected(less[..|less| - |current|], current, budget);
  }
}
