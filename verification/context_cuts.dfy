/** What a selection is, told from the messages alone: of all places where the history may be cut, the
    first one after which everything left fits the budget. */
module ContextCuts {
  import opened Messages
  import opened ContextSpec
  import opened ContextFacts
  import opened ContextSelect
  import opened ContextLaws
  import opened ContextExchanges
  import opened ContextGroups

  /** The indices at which groups begin, in order. */
  function Beginnings(ms: seq<Message>, requestStart: nat): seq<nat> {
    if |ms| == 0 then []
    else
      var n := |ms| - 1;
      Beginnings(ms[..n], requestStart) + (if Begins(ms, requestStart, n) then [n] else [])
  }

  /** The history may be cut where a group begins, or after everything, as long as nothing but system
      messages of the request lies before the cut. */
  predicate MayCut(ms: seq<Message>, requestStart: nat, cut: nat) {
    && cut <= |ms|
    && (cut < |ms| ==> Begins(ms, requestStart, cut))
    && forall i | requestStart <= i < cut :: ms[i].role.System?
  }

  /** The system messages before a cut, and everything after it. */
  function Left(ms: seq<Message>, cut: nat): seq<Message>
    requires cut <= |ms|
  {
    SystemMessages(ms[..cut]) + ms[cut..]
  }

  // ----- groups begin where they should -----

  lemma BeginsEarlier(ms: seq<Message>, requestStart: nat, n: nat, j: nat)
    requires j < n <= |ms|
    ensures Begins(ms[..n], requestStart, j) == Begins(ms, requestStart, j)
  {
    assert ms[..n][..j] == ms[..j] && ms[..n][0..j] == ms[0..j];
    if requestStart <= j { assert ms[..n][requestStart..j] == ms[requestStart..j]; }
  }

  lemma {:induction false} BeginningsBegin(ms: seq<Message>, requestStart: nat)
    ensures forall j | j in Beginnings(ms, requestStart) :: j < |ms| && Begins(ms, requestStart, j)
    ensures forall j | 0 <= j < |ms| && Begins(ms, requestStart, j) :: j in Beginnings(ms, requestStart)
    ensures forall a, b | 0 <= a < b < |Beginnings(ms, requestStart)| ::
              Beginnings(ms, requestStart)[a] < Beginnings(ms, requestStart)[b]
  {
    if |ms| > 0 {
      hide Begins;
      var n := |ms| - 1;
      BeginningsBegin(ms[..n], requestStart);
      forall j | 0 <= j < n ensures Begins(ms[..n], requestStart, j) == Begins(ms, requestStart, j) {
        BeginsEarlier(ms, requestStart, n, j);
      }
      var init := Beginnings(ms[..n], requestStart);
      assert forall k | 0 <= k < |init| :: init[k] in init;
    }
  }

  lemma {:induction false} BeginningsBefore(ms: seq<Message>, requestStart: nat, d: nat)
    requires d < |Beginnings(ms, requestStart)|
    ensures Beginnings(ms, requestStart)[d] < |ms|
    ensures Beginnings(ms[..Beginnings(ms, requestStart)[d]], requestStart) == Beginnings(ms, requestStart)[..d]
  {
    hide Begins;
    var n := |ms| - 1;
    var init := Beginnings(ms[..n], requestStart);
    if d < |init| {
      BeginningsBefore(ms[..n], requestStart, d);
      assert ms[..n][..init[d]] == ms[..init[d]];
    }
  }

  function Firsts(gs: seq<Group>): seq<nat> {
    if |gs| == 0 then []
    else Firsts(gs[..|gs| - 1]) + (if gs[|gs| - 1] == [] then [] else [gs[|gs| - 1][0].index])
  }

  lemma {:induction false} FirstsAt(gs: seq<Group>, k: nat)
    requires NonEmpty(gs) && k < |gs|
    ensures |Firsts(gs)| == |gs| && Firsts(gs)[k] == gs[k][0].index
  {
    if |gs| > 1 { FirstsAt(gs[..|gs| - 1], if k < |gs| - 1 then k else 0); }
  }

  lemma FirstsSnoc(gs: seq<Group>, g: Group)
    ensures Firsts(gs + [g]) == Firsts(gs) + (if g == [] then [] else [g[0].index])
  {
    assert (gs + [g])[..|gs|] == gs;
  }

  /** The groups of a scan begin exactly where groups should. */
  lemma {:induction false} FirstsAreBeginnings(ms: seq<Message>, requestStart: nat)
    requires ScanOf(ms, requestStart).Scan?
    ensures Firsts(Groups(ScanOf(ms, requestStart))) == Beginnings(ms, requestStart)
  {
    if |ms| > 0 {
      hide ScanOf, Begins;
      var n := |ms| - 1;
      StepBegins(ms, requestStart);
      FirstsAreBeginnings(ms[..n], requestStart);
      var was := ScanOf(ms[..n], requestStart);
      FirstsSnoc(Groups(was), [Entry(n, ms[n])]);
      FirstsSnoc(was.closed, was.open);
      FirstsSnoc(was.closed, was.open + [Entry(n, ms[n])]);
      BeginnerSpeaks(ms, requestStart, n);
    } else {
      assert Groups(ScanOf(ms, requestStart)) == [];
    }
  }

  lemma BeginnerSpeaks(ms: seq<Message>, requestStart: nat, j: nat)
    requires j < |ms|
    ensures Begins(ms, requestStart, j) ==> !ms[j].role.System?
  {
  }

  // ----- dropping groups is cutting -----

  lemma FlattenFirst(gs: seq<Group>)
    requires NonEmpty(gs) && gs != []
    ensures Flatten(gs) != [] && Flatten(gs)[0] == gs[0][0]
  {
    assert gs == [gs[0]] + gs[1..];
    FlattenConcat([gs[0]], gs[1..]);
    FlattenOne(gs[0]);
  }

  lemma FirstOfTail(gs: seq<Group>, d: nat, n: nat)
    requires NonEmpty(gs) && d <= |gs|
    ensures |Firsts(gs)| == |gs| && FirstOf(gs[d..], n) == if d < |gs| then Firsts(gs)[d] else n
  {
    hide Flatten;
    if gs != [] { FirstsAt(gs, 0); }
    if d < |gs| {
      FirstsAt(gs, d);
      FlattenFirst(gs[d..]);
    } else {
      assert gs[d..] == [];
      FlattenNone();
    }
  }

  /** Where the groups left begin, after the oldest `d` went. */
  lemma CutIs(ms: seq<Message>, requestStart: nat, sc: Scan, d: nat)
    requires Complete(sc, ms, requestStart) && d <= |Groups(sc)|
    ensures |Beginnings(ms, requestStart)| == |Groups(sc)|
    ensures FirstOf(Groups(sc)[d..], |ms|)
         == if d < |Groups(sc)| then Beginnings(ms, requestStart)[d] else |ms|
    ensures FirstOf(Groups(sc)[d..], |ms|) <= |ms|
    ensures |Beginnings(ms[..FirstOf(Groups(sc)[d..], |ms|)], requestStart)| == d
  {
    hide ScanOf, Groups, EntriesWhere, Partitions, Begins, Flatten, Beginnings, Firsts, FirstOf, NonEmpty;
    ScanPartitions(ms, requestStart);
    FirstsAreBeginnings(ms, requestStart);
    var gs := Groups(sc);
    FirstOfTail(gs, d, |ms|);
    if d < |gs| {
      BeginningsBefore(ms, requestStart, d);
      assert FirstOf(gs[d..], |ms|) == Beginnings(ms, requestStart)[d];
    } else {
      assert FirstOf(gs[d..], |ms|) == |ms| && ms[..|ms|] == ms;
    }
  }

  lemma FlattenNone()
    ensures Flatten([]) == []
  {
  }

  /** Dropping optional groups leaves the messages of a cut that may be made. */
  lemma DropMayCut(ms: seq<Message>, requestStart: nat, sc: Scan, d: nat)
    requires Complete(sc, ms, requestStart) && d <= |OptionalOf(Groups(sc), requestStart)|
    ensures d <= |Groups(sc)|
    ensures MayCut(ms, requestStart, FirstOf(Groups(sc)[d..], |ms|))
  {
    hide ScanOf, Groups, OptionalOf, EntriesWhere, Begins, Beginnings, Flatten, FirstOf;
    SplitAt(ms, requestStart, sc, d);
    CutIs(ms, requestStart, sc, d);
    BeginningsBegin(ms, requestStart);
    forall i | requestStart <= i < FirstOf(Groups(sc)[d..], |ms|) ensures ms[i].role.System? {
      if !ms[i].role.System? { RequestIsLeft(ms, requestStart, sc, d, i); }
    }
  }

  /** What is dropped comes before the request. */
  lemma RequestIsLeft(ms: seq<Message>, requestStart: nat, sc: Scan, d: nat, i: nat)
    requires Complete(sc, ms, requestStart) && d <= |OptionalOf(Groups(sc), requestStart)|
    requires requestStart <= i < |ms| && !ms[i].role.System?
    ensures d <= |Groups(sc)| && FirstOf(Groups(sc)[d..], |ms|) <= i
  {
    hide ScanOf, Groups, OptionalOf, MandatoryOf, EntriesWhere, Flatten;
    SplitAt(ms, requestStart, sc, d);
    EntriesWhereFacts(ms, false);
    OptionalEntriesEarly(Groups(sc), requestStart);
    var gs, optional, e := Groups(sc), OptionalOf(Groups(sc), requestStart), Entry(i, ms[i]);
    assert optional == optional[..d] + optional[d..];
    FlattenConcat(optional[..d], optional[d..]);
    assert e !in Flatten(optional);
    assert e in Flatten(gs[..d]) + Flatten(gs[d..]);
    TailIndices(Flatten(gs[..d]), Flatten(gs[d..]), e, |ms|);
  }

  /** Every cut that may be made drops some number of optional groups. */
  lemma CutDrops(ms: seq<Message>, requestStart: nat, sc: Scan, cut: nat) returns (d: nat)
    requires Complete(sc, ms, requestStart) && MayCut(ms, requestStart, cut)
    ensures d <= |OptionalOf(Groups(sc), requestStart)| && d <= |Groups(sc)|
    ensures cut == FirstOf(Groups(sc)[d..], |ms|)
  {
    var gs, optional := Groups(sc), OptionalOf(Groups(sc), requestStart);
    GroupEntries(ms, requestStart, sc);
    CutIs(ms, requestStart, sc, |gs|);
    BeginningsBegin(ms, requestStart);
    hide ScanOf, Groups, OptionalOf, MandatoryOf, Begins, Beginnings, Flatten, FirstOf, Increasing;
    if cut < |ms| {
      d :| 0 <= d < |Beginnings(ms, requestStart)| && Beginnings(ms, requestStart)[d] == cut;
    } else {
      d := |gs|;
    }
    CutIs(ms, requestStart, sc, d);
    CutIsEarly(ms, requestStart, sc, cut, d);
  }

  lemma InDropped(gs: seq<Group>, d: nat, k: nat, e: Entry)
    requires k < d <= |gs| && e in gs[k]
    ensures e in Flatten(gs[..d]) && Flatten(gs) == Flatten(gs[..d]) + Flatten(gs[d..])
  {
    hide Flatten;
    assert gs == gs[..d] + gs[d..];
    FlattenConcat(gs[..d], gs[d..]);
    assert gs[..d][k] == gs[k];
    InFlatten(gs[..d], k, e);
  }

  /** A cut past a mandatory group would leave a message of the request out. */
  lemma CutIsEarly(ms: seq<Message>, requestStart: nat, sc: Scan, cut: nat, d: nat)
    requires Complete(sc, ms, requestStart) && MayCut(ms, requestStart, cut)
    requires d <= |Groups(sc)| && cut == FirstOf(Groups(sc)[d..], |ms|)
    ensures d <= |OptionalOf(Groups(sc), requestStart)|
  {
    if d <= |OptionalOf(Groups(sc), requestStart)| { return; }
    var gs, k := Groups(sc), |OptionalOf(Groups(sc), requestStart)|;
    MandatoryTail(ms, requestStart, sc, k);
    GroupEntries(ms, requestStart, sc);
    hide ScanOf, Groups, OptionalOf, MandatoryOf, Begins, Flatten, Increasing, From;
    var g: Group := gs[k];
    var j :| 0 <= j < |g| && g[j].index >= requestStart;
    InDropped(gs, d, k, g[j]);
    assert g[j] in Flatten(gs[..d]) + Flatten(gs[d..]);
    BeforeTail(Flatten(gs[..d]), Flatten(gs[d..]), g[j], |ms|, ms);
    assert false;
  }

  lemma BeforeTail(dropped: seq<Entry>, tail: seq<Entry>, e: Entry, n: nat, ms: seq<Message>)
    requires Increasing(dropped + tail) && From(dropped + tail, ms) && e in dropped && n == |ms|
    ensures e.index < |ms| && ms[e.index] == e.message
    ensures e.index < (if tail == [] then n else tail[0].index)
  {
    var all := dropped + tail;
    var k :| 0 <= k < |dropped| && dropped[k] == e;
    assert all[k] == e;
    if tail != [] { assert all[|dropped|] == tail[0]; }
  }

  /** What is left after dropping `d` optional groups is what a cut leaves, and costs as much. */
  lemma RemainingIsLeft(ms: seq<Message>, requestStart: nat, sc: Scan, d: nat, cut: nat)
    requires Complete(sc, ms, requestStart) && d <= |OptionalOf(Groups(sc), requestStart)|
    requires d <= |Groups(sc)| && cut == FirstOf(Groups(sc)[d..], |ms|) && cut <= |ms|
    ensures Pick(ms, Indices(Remaining(sc, requestStart, d))) == Left(ms, cut)
    ensures MessageCost(Left(ms, cut)) == Cost(Remaining(sc, requestStart, d))
  {
    hide ScanOf, Groups, OptionalOf, FirstOf, Pick, Indices, MessageCost, Cost;
    var left := Remaining(sc, requestStart, d);
    forall i | 0 <= i < |ms| ensures i in Indices(left) <==> ms[i].role.System? || i >= cut {
      RemainingAtCut(ms, requestStart, sc, d, i);
    }
    PickCut(ms, Indices(left), cut);
    PartsDistinct(ms, requestStart, sc, d);
    CostOfIndices(ms, left);
  }

  lemma {:induction false} LeftIsEncoded(ms: seq<Message>, cut: nat)
    requires cut <= |ms| && forall m | m in ms :: m.encoding.Encoded?
    ensures forall m | m in Left(ms, cut) :: m.encoding.Encoded?
    ensures |Left(ms, cut)| <= |ms|
  {
    SystemsFrom(ms[..cut]);
    assert forall m | m in ms[..cut] :: m in ms;
  }

  lemma {:induction false} SystemsFrom(ms: seq<Message>)
    ensures forall m | m in SystemMessages(ms) :: m in ms
    ensures |SystemMessages(ms)| <= |ms|
  {
    if |ms| > 0 { SystemsFrom(ms[..|ms| - 1]); }
  }

  predicate AllEncoded(ms: seq<Message>) { forall m | m in ms :: m.encoding.Encoded? }

  /** The bytes of the JSON array that a cut leaves. */
  function LeftBytes(ms: seq<Message>, cut: nat): nat
    requires cut <= |ms| && AllEncoded(ms)
  {
    LeftIsEncoded(ms, cut);
    |EncodeArray(Left(ms, cut))|
  }

  lemma DropBytes(ms: seq<Message>, requestStart: nat, sc: Scan, d: nat, cut: nat)
    requires Complete(sc, ms, requestStart) && d <= |OptionalOf(Groups(sc), requestStart)|
    requires d <= |Groups(sc)| && cut == FirstOf(Groups(sc)[d..], |ms|) && cut <= |ms|
    requires AllEncoded(ms)
    ensures LeftBytes(ms, cut) == ArrayBytes(Cost(Remaining(sc, requestStart, d)))
    ensures Cost(Remaining(sc, requestStart, d))
         == Cost(Required(sc, requestStart)) + TailCost(OptionalOf(Groups(sc), requestStart), d)
  {
    var optional := OptionalOf(Groups(sc), requestStart);
    LeftIsEncoded(ms, cut);
    RemainingIsLeft(ms, requestStart, sc, d, cut);
    hide ScanOf, Groups, OptionalOf, FirstOf, Required, Flatten, EncodeArray;
    EncodedArrayLength(Left(ms, cut));
    CostAtLeastOne(Left(ms, cut));
    TailIsFlat(optional, d);
    CostConcat(Required(sc, requestStart), Flatten(optional[d..]));
  }

  // ----- the selection -----

  /** Every message can be encoded, and every exchange is closed. */
  predicate WellFormed(ms: seq<Message>) { AllEncoded(ms) && Balanced(ms) }

  lemma WellFormedScans(ms: seq<Message>, requestStart: nat)
    ensures WellFormed(ms) <==> ScanOf(ms, requestStart).Scan? && ScanOf(ms, requestStart).pending == {}
  {
    var sc := ScanOf(ms, requestStart);
    ScanExchanges(ms, requestStart);
    hide ScanOf;
    if sc.Scan? {
      PrefixScans(ms, |ms|, requestStart);
    } else if WellFormed(ms) {
      var k :| 0 <= k < |ms| && Halts(ms, k);
      EncodedHalts(ms, k);
      assert false;
    }
  }

  /** Some cut that may be made leaves few enough bytes. */
  predicate SomeCutFits(ms: seq<Message>, requestStart: nat, budget: Budget)
    requires AllEncoded(ms)
  {
    exists cut | 0 <= cut <= |ms| :: MayCut(ms, requestStart, cut) && LeftBytes(ms, cut) <= budget
  }

  lemma RequiredFitsIff(ms: seq<Message>, requestStart: nat, sc: Scan, budget: Budget)
    requires Complete(sc, ms, requestStart) && AllEncoded(ms)
    ensures Fits(Cost(Required(sc, requestStart)), budget) <==> SomeCutFits(ms, requestStart, budget)
  {
    hide ScanOf, Groups, OptionalOf, FirstOf, Required, MayCut, LeftBytes;
    var d := |OptionalOf(Groups(sc), requestStart)|;
    DropMayCut(ms, requestStart, sc, d);
    CutIs(ms, requestStart, sc, d);
    var least := FirstOf(Groups(sc)[d..], |ms|);
    DropBytes(ms, requestStart, sc, d, least);
    if SomeCutFits(ms, requestStart, budget) {
      var cut :| 0 <= cut <= |ms| && MayCut(ms, requestStart, cut) && LeftBytes(ms, cut) <= budget;
      var j := CutDrops(ms, requestStart, sc, cut);
      DropBytes(ms, requestStart, sc, j, cut);
    }
  }

  /** A selection succeeds exactly when every message can be encoded, every exchange is closed, and some
      cut leaves few enough bytes. */
  lemma {:induction false} SelectsIff(history: seq<Message>, current: seq<Message>, budget: Budget)
    ensures SelectionOf(history, current, budget).Selected? <==>
              WellFormed(history + current) && SomeCutFits(history + current, |history|, budget)
  {
    var ms, h := history + current, |history|;
    WellFormedScans(ms, h);
    if WellFormed(ms) { RequiredFitsIff(ms, h, ScanOf(ms, h), budget); }
  }

  lemma {:induction false} PickMissing(ms: seq<Message>, chosen: set<nat>)
    ensures |Pick(ms, chosen)| + Missing(|ms|, chosen) == |ms|
  {
    if |ms| > 0 { PickMissing(ms[..|ms| - 1], chosen); }
  }

  lemma {:induction false} NoneMissing(n: nat, m: nat, chosen: set<nat>)
    requires n <= m && forall i | n <= i < m :: i in chosen
    ensures Missing(m, chosen) == Missing(n, chosen)
  {
    if n < m { NoneMissing(n, m - 1, chosen); }
  }

  lemma FewerDropsCutEarlier(ms: seq<Message>, requestStart: nat, sc: Scan, c: nat, d: nat)
    requires Complete(sc, ms, requestStart) && c <= d <= |Groups(sc)|
    ensures FirstOf(Groups(sc)[c..], |ms|) <= FirstOf(Groups(sc)[d..], |ms|)
  {
    CutIs(ms, requestStart, sc, c);
    CutIs(ms, requestStart, sc, d);
    BeginningsBegin(ms, requestStart);
  }

  /** No cut before the one selected leaves few enough bytes. */
  lemma CutIsFirst(ms: seq<Message>, requestStart: nat, sc: Scan, budget: Budget, d: nat, cut: nat, b: nat)
    requires Complete(sc, ms, requestStart) && AllEncoded(ms)
    requires d == DropCount(OptionalOf(Groups(sc), requestStart), Cost(Required(sc, requestStart)), budget)
    requires d <= |Groups(sc)| && cut == FirstOf(Groups(sc)[d..], |ms|)
    requires b < cut && b <= |ms| && MayCut(ms, requestStart, b)
    ensures LeftBytes(ms, b) > budget
  {
    hide ScanOf, Groups, OptionalOf, FirstOf, Required, MayCut, LeftBytes;
    var j := CutDrops(ms, requestStart, sc, b);
    if j >= d { FewerDropsCutEarlier(ms, requestStart, sc, d, j); }
    DropBytes(ms, requestStart, sc, j, b);
    DropFromLeast(OptionalOf(Groups(sc), requestStart), 0, Cost(Required(sc, requestStart)), budget);
  }

  /** What a selection reports, given the cut that was made. */
  predicate Reports(selection: Selection, history: seq<Message>, current: seq<Message>, cut: nat)
    requires cut <= |history + current| && AllEncoded(history + current)
  {
    var ms := history + current;
    && selection.messages == Left(ms, cut)
    && selection.inputBytes == |EncodeArray(ms)|
    && selection.selectedBytes == LeftBytes(ms, cut)
    && selection.historyMessages == |history|
    && selection.requestMessages == |current|
    && selection.omittedHistoryMessages == |ms| - |Left(ms, cut)|
    && selection.omittedHistoryGroups == |Beginnings(ms[..cut], |history|)|
  }

  lemma AccountedReports(history: seq<Message>, current: seq<Message>, budget: Budget, sc: Scan, d: nat, cut: nat)
    requires Complete(sc, history + current, |history|) && AllEncoded(history + current)
    requires d == DropCount(OptionalOf(Groups(sc), |history|), Cost(Required(sc, |history|)), budget)
    requires d <= |Groups(sc)| && cut == FirstOf(Groups(sc)[d..], |history + current|) && cut <= |history + current|
    requires MayCut(history + current, |history|, cut)
    ensures Reports(Accounted(history + current, |history|, budget), history, current, cut)
  {
    var ms, h := history + current, |history|;
    var left := Remaining(sc, h, d);
    RemainingIsLeft(ms, h, sc, d, cut);
    DropBytes(ms, h, sc, d, cut);
    CutIs(ms, h, sc, d);
    EncodedArrayLength(ms);
    CostAtLeastOne(ms);
    forall i | h <= i < |ms| ensures i in Indices(left) { RemainingAtCut(ms, h, sc, d, i); }
    PickMissing(ms, Indices(left));
    NoneMissing(h, |ms|, Indices(left));
    hide ScanOf, Groups, OptionalOf, FirstOf, Required, MayCut, LeftBytes, Left, Pick, Missing, Indices, Beginnings;
    hide EncodeArray, Flatten;
  }

  /** The selection made is that of the first cut which leaves few enough bytes. */
  lemma {:induction false} SelectionIsFirstCut(history: seq<Message>, current: seq<Message>, budget: Budget)
    requires SelectionOf(history, current, budget).Selected?
    ensures AllEncoded(history + current)
    ensures exists cut | 0 <= cut <= |history + current| ::
              && MayCut(history + current, |history|, cut)
              && LeftBytes(history + current, cut) <= budget
              && (forall b | 0 <= b < cut && MayCut(history + current, |history|, b) ::
                    LeftBytes(history + current, b) > budget)
              && Reports(SelectionOf(history, current, budget).selection, history, current, cut)
  {
    var ms, h := history + current, |history|;
    var sc := ScanOf(ms, h);
    WellFormedScans(ms, h);
    var d := DropCount(OptionalOf(Groups(sc), h), Cost(Required(sc, h)), budget);
    assert SelectionOf(history, current, budget).selection == Accounted(ms, h, budget);
    ChosenFits(sc, h, budget);
    assert Chosen(sc, h, budget) == Remaining(sc, h, d);
    hide ScanOf, Groups, OptionalOf, FirstOf, Required, MayCut, LeftBytes, Reports, Accounted;
    hide SelectionOf, Chosen, Remaining;
    DropMayCut(ms, h, sc, d);
    CutIs(ms, h, sc, d);
    var cut := FirstOf(Groups(sc)[d..], |ms|);
    DropBytes(ms, h, sc, d, cut);
    forall b | 0 <= b < cut && MayCut(ms, h, b) ensures LeftBytes(ms, b) > budget {
      CutIsFirst(ms, h, sc, budget, d, cut, b);
    }
    AccountedReports(history, current, budget, sc, d, cut);
  }

  /** A rejection names the first message that cannot be encoded or breaks an exchange, then an exchange
      that stays open, and only then the budget. */
  lemma {:induction false} RejectionIs(history: seq<Message>, current: seq<Message>, budget: Budget)
    requires SelectionOf(history, current, budget).Rejected?
    ensures var ms, error := history + current, SelectionOf(history, current, budget).error;
            || (exists k | 0 <= k < |ms| ::
                  (forall j | 0 <= j < k :: !Halts(ms, j)) && Halts(ms, k) && error == ErrorAt(ms, k))
            || ((forall k | 0 <= k < |ms| :: !Halts(ms, k)) && !Balanced(ms) && error == IncompleteExchange)
            || (WellFormed(ms) && !SomeCutFits(ms, |history|, budget) && error == BudgetExceeded)
  {
    var ms, h := history + current, |history|;
    ScanExchanges(ms, h);
    WellFormedScans(ms, h);
    hide ScanOf, Halts, ErrorAt, SomeCutFits;
    if WellFormed(ms) { RequiredFitsIff(ms, h, ScanOf(ms, h), budget); }
  }
}
