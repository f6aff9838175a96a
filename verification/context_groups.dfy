/** Where groups begin, told from the messages alone. */
module ContextGroups {
  import opened Messages
  import opened ContextSpec
  import opened ContextFacts
  import opened ContextExchanges

  predicate AllSystem(ms: seq<Message>) { forall m | m in ms :: m.role.System? }

  /** The first message that is not a system one, counting from `start`. */
  predicate FirstFrom(ms: seq<Message>, start: nat, j: nat)
    requires j < |ms|
  {
    start <= j && !ms[j].role.System? && AllSystem(ms[start..j])
  }

  /** A message begins a group when no exchange is open before it and it is a user's, or the first
      of all, or the first of the request, system messages aside. */
  predicate Begins(ms: seq<Message>, requestStart: nat, j: nat)
    requires j < |ms|
  {
    && !ms[j].role.System? && Balanced(ms[..j])
    && (ms[j].role.User? || FirstFrom(ms, 0, j) || FirstFrom(ms, requestStart, j))
  }

  lemma AllSystemSnoc(ms: seq<Message>, start: nat, n: nat)
    requires start <= n < |ms|
    ensures AllSystem(ms[start..n + 1]) == (AllSystem(ms[start..n]) && ms[n].role.System?)
  {
    assert ms[start..n + 1] == ms[start..n] + [ms[n]];
  }

  /** With no exchange open, the scan has no group open exactly when only system messages came at
      all, or since the request began. */
  lemma {:induction false} NothingOpen(ms: seq<Message>, requestStart: nat)
    requires ScanOf(ms, requestStart).Scan? && ScanOf(ms, requestStart).pending == {}
    ensures ScanOf(ms, requestStart).open == []
       <==> AllSystem(ms) || (requestStart < |ms| && AllSystem(ms[requestStart..]))
  {
    if |ms| > 0 {
      var n := |ms| - 1;
      ScanLast(ms, requestStart);
      AllSystemSnoc(ms, 0, n);
      assert ms[0..n + 1] == ms && ms[0..n] == ms[..n];
      if requestStart <= n {
        AllSystemSnoc(ms, requestStart, n);
        assert ms[requestStart..n + 1] == ms[requestStart..] && ms[..n][requestStart..] == ms[requestStart..n];
      }
      if ms[n].role.System? {
        NothingOpen(ms[..n], requestStart);
      }
    }
  }

  /** What one more message does to the groups, decided by where groups begin. */
  lemma StepBegins(ms: seq<Message>, requestStart: nat)
    requires |ms| > 0 && ScanOf(ms, requestStart).Scan?
    ensures ScanOf(ms[..|ms| - 1], requestStart).Scan?
    ensures var n := |ms| - 1;
            var was, now, e := ScanOf(ms[..n], requestStart), ScanOf(ms, requestStart), Entry(n, ms[n]);
            && (ms[n].role.System? ==> Groups(now) == Groups(was))
            && (Begins(ms, requestStart, n) ==> Groups(now) == Groups(was) + [[e]])
            && (!ms[n].role.System? && !Begins(ms, requestStart, n) ==>
                  was.open != [] && Groups(now) == was.closed + [was.open + [e]])
  {
    var n := |ms| - 1;
    ScanLast(ms, requestStart);
    ScanPartitions(ms[..n], requestStart);
    ScanExchanges(ms[..n], requestStart);
    if ScanOf(ms[..n], requestStart).pending == {} {
      NothingOpen(ms[..n], requestStart);
      assert ms[0..n] == ms[..n];
      if requestStart <= n { assert ms[..n][requestStart..] == ms[requestStart..n]; }
    }
    StepPlaces(ScanOf(ms[..n], requestStart), ms, requestStart);
  }

  lemma StepPlaces(was: Scan, ms: seq<Message>, requestStart: nat)
    requires |ms| > 0 && was.Scan? && (was.pending != {} ==> was.open != [])
    requires Balanced(ms[..|ms| - 1]) == (was.pending == {})
    requires was.pending == {} && !ms[|ms| - 1].role.System? && requestStart != |ms| - 1 ==>
      (was.open == [] <==> FirstFrom(ms, 0, |ms| - 1) || FirstFrom(ms, requestStart, |ms| - 1))
    requires was.pending == {} && FirstFrom(ms, 0, |ms| - 1) ==> was.open == []
    requires var n := |ms| - 1; Place(CloseIf(was, Starts(ms[n], n, requestStart)), Entry(n, ms[n])).Scan?
    ensures var n := |ms| - 1;
            var now, e := Place(CloseIf(was, Starts(ms[n], n, requestStart)), Entry(n, ms[n])), Entry(n, ms[n]);
            && (ms[n].role.System? ==> Groups(now) == Groups(was))
            && (Begins(ms, requestStart, n) ==> Groups(now) == Groups(was) + [[e]])
            && (!ms[n].role.System? && !Begins(ms, requestStart, n) ==>
                  was.open != [] && Groups(now) == was.closed + [was.open + [e]])
  {
    var n := |ms| - 1;
    assert [] + [Entry(n, ms[n])] == [Entry(n, ms[n])];
    if requestStart == n { assert ms[n..n] == []; }
  }

  // ----- neighbours in one group or in two -----

  /** Two indices that some group holds both of. */
  ghost predicate Together(gs: seq<Group>, i: nat, j: nat) {
    exists k | 0 <= k < |gs| :: i in Indices(gs[k]) && j in Indices(gs[k])
  }

  lemma IndicesOfConcat(a: seq<Entry>, b: seq<Entry>)
    ensures Indices(a + b) == Indices(a) + Indices(b)
  {
    forall i | i in Indices(a) + Indices(b) ensures i in Indices(a + b) {
      var e :| (e in a || e in b) && e.index == i;
      assert e in a + b;
    }
  }

  lemma TogetherSnoc(gs: seq<Group>, g: Group, i: nat, j: nat)
    ensures Together(gs + [g], i, j) <==> Together(gs, i, j) || (i in Indices(g) && j in Indices(g))
  {
    var all := gs + [g];
    if Together(gs, i, j) {
      var k :| 0 <= k < |gs| && i in Indices(gs[k]) && j in Indices(gs[k]);
      assert all[k] == gs[k];
    }
    if i in Indices(g) && j in Indices(g) { assert all[|gs|] == g; }
    if Together(all, i, j) {
      var k :| 0 <= k < |all| && i in Indices(all[k]) && j in Indices(all[k]);
      if k < |gs| { assert gs[k] == all[k]; }
    }
  }

  /** Later messages neither part nor join two earlier ones. */
  lemma TogetherStays(ms: seq<Message>, requestStart: nat, i: nat, j: nat)
    requires i < j < |ms| - 1 && ScanOf(ms, requestStart).Scan?
    ensures ScanOf(ms[..|ms| - 1], requestStart).Scan?
    ensures Together(Groups(ScanOf(ms, requestStart)), i, j)
       <==> Together(Groups(ScanOf(ms[..|ms| - 1], requestStart)), i, j)
  {
    hide ScanOf, Begins;
    var n := |ms| - 1;
    StepBegins(ms, requestStart);
    var was, e := ScanOf(ms[..n], requestStart), Entry(n, ms[n]);
    assert Indices([e]) == {n};
    TogetherSnoc(Groups(was), [e], i, j);
    TogetherSnoc(was.closed, was.open, i, j);
    TogetherSnoc(was.closed, was.open + [e], i, j);
    IndicesOfConcat(was.open, [e]);
  }

  lemma LargestIsLast(es: seq<Entry>, e: Entry)
    requires Increasing(es) && e in es && forall x | x in es :: x.index <= e.index
    ensures es[|es| - 1] == e
  {
    var n := |es| - 1;
    var k :| 0 <= k < |es| && es[k] == e;
    assert es[n] in es && es[k].index == e.index && es[n].index <= e.index;
    if k < n { assert false; }
  }

  /** Before message `j`, the newest entry of the newest group is the last message that is not a
      system one. */
  lemma NewestEntry(ms: seq<Message>, requestStart: nat, i: nat)
    requires i < |ms| && ScanOf(ms, requestStart).Scan?
    requires !ms[i].role.System? && AllSystem(ms[i + 1..])
    ensures var gs := Groups(ScanOf(ms, requestStart));
            gs != [] && i in Indices(gs[|gs| - 1])
            && forall k, e | 0 <= k < |gs| && e in gs[k] :: e.index <= i
  {
    hide ScanOf, EntriesWhere, Groups, Flatten, Increasing, NonEmpty, Partitions;
    var gs, all := Groups(ScanOf(ms, requestStart)), EntriesWhere(ms, false);
    ScanPartitions(ms, requestStart);
    EntriesWhereFacts(ms, false);
    assert Entry(i, ms[i]) in all;
    NothingLater(ms, all, i);
    LargestIsLast(all, Entry(i, ms[i]));
    LastOfFlat(gs);
    forall k, e: Entry | 0 <= k < |gs| && e in gs[k] ensures e.index <= i { InFlatten(gs, k, e); }
  }

  lemma NothingLater(ms: seq<Message>, es: seq<Entry>, i: nat)
    requires i < |ms| && From(es, ms) && AllSystem(ms[i + 1..])
    requires forall e | e in es :: !e.message.role.System?
    ensures forall e | e in es :: e.index <= i
  {
    assert forall k | i < k < |ms| :: ms[k] == ms[i + 1..][k - i - 1];
    forall e | e in es ensures e.index <= i {
      var k :| 0 <= k < |es| && es[k] == e;
    }
  }

  lemma LastOfFlat(gs: seq<Group>)
    requires NonEmpty(gs) && Flatten(gs) != []
    ensures gs != [] && Flatten(gs)[|Flatten(gs)| - 1] in gs[|gs| - 1]
  {
    var last := gs[|gs| - 1];
    assert Flatten(gs) == Flatten(gs[..|gs| - 1]) + last;
    assert Flatten(gs)[|Flatten(gs)| - 1] == last[|last| - 1];
  }

  lemma SplitAtLast(ms: seq<Message>, requestStart: nat, i: nat, j: nat)
    requires i < j == |ms| - 1 && ScanOf(ms, requestStart).Scan?
    requires !ms[i].role.System? && !ms[j].role.System? && AllSystem(ms[i + 1..j])
    ensures Together(Groups(ScanOf(ms, requestStart)), i, j) <==> !Begins(ms, requestStart, j)
  {
    hide ScanOf, Begins;
    StepBegins(ms, requestStart);
    var was, e := ScanOf(ms[..j], requestStart), Entry(j, ms[j]);
    assert ms[..j][i + 1..] == ms[i + 1..j];
    NewestEntry(ms[..j], requestStart, i);
    var gs := Groups(was);
    assert Indices([e]) == {j};
    assert forall k | 0 <= k < |gs| :: j !in Indices(gs[k]);
    assert !Together(gs, i, j);
    TogetherSnoc(gs, [e], i, j);
    TogetherSnoc(was.closed, was.open, i, j);
    TogetherSnoc(was.closed, was.open + [e], i, j);
    IndicesOfConcat(was.open, [e]);
  }

  lemma NeighbourBegins(ms: seq<Message>, requestStart: nat, i: nat, j: nat)
    requires i < j < |ms|
    requires !ms[i].role.System? && !ms[j].role.System? && AllSystem(ms[i + 1..j])
    ensures Begins(ms, requestStart, j) <==> Balanced(ms[..j]) && (ms[j].role.User? || i < requestStart <= j)
  {
    hide Balanced;
    assert ms[0..j][i] == ms[i];
    assert !FirstFrom(ms, 0, j);
    if requestStart <= i { assert ms[requestStart..j][i - requestStart] == ms[i]; }
    if i < requestStart <= j {
      forall m | m in ms[requestStart..j] ensures m.role.System? {
        var k :| 0 <= k < j - requestStart && ms[requestStart..j][k] == m;
        assert ms[i + 1..j][requestStart + k - i - 1] == m;
      }
    }
  }

  /** Two messages with only system messages between them lie in different groups exactly when no
      exchange is open before the second, and it is a user's message or the request begins after
      the first and not after the second. */
  lemma {:induction false} GroupsSplitIff(ms: seq<Message>, requestStart: nat, i: nat, j: nat)
    requires ScanOf(ms, requestStart).Scan? && i < j < |ms|
    requires !ms[i].role.System? && !ms[j].role.System?
    requires forall k | i < k < j :: ms[k].role.System?
    ensures !Together(Groups(ScanOf(ms, requestStart)), i, j)
       <==> Exchanged(ms[..j]) == Pending({}) && (ms[j].role.User? || i < requestStart <= j)
  {
    var n := |ms| - 1;
    if j < n {
      hide ScanOf;
      TogetherStays(ms, requestStart, i, j);
      assert ms[..n][..j] == ms[..j];
      GroupsSplitIff(ms[..n], requestStart, i, j);
    } else {
      forall m | m in ms[i + 1..j] ensures m.role.System? {
        var k :| 0 <= k < j - i - 1 && ms[i + 1..j][k] == m;
        assert ms[i + 1 + k] == m;
      }
      SplitAtLast(ms, requestStart, i, j);
      NeighbourBegins(ms, requestStart, i, j);
    }
  }

  /** Every message that is not a system one lies in some group, and a group holds nothing else. */
  lemma GroupedIff(ms: seq<Message>, requestStart: nat, i: nat)
    requires ScanOf(ms, requestStart).Scan?
    ensures Together(Groups(ScanOf(ms, requestStart)), i, i) <==> i < |ms| && !ms[i].role.System?
  {
    var gs := Groups(ScanOf(ms, requestStart));
    ScanPartitions(ms, requestStart);
    EntriesWhereFacts(ms, false);
    hide ScanOf, EntriesWhere;
    if i < |ms| && !ms[i].role.System? {
      var e := Entry(i, ms[i]);
      var k := FromFlatten(gs, e);
      assert i in Indices(gs[k]);
    }
    if Together(gs, i, i) {
      var k :| 0 <= k < |gs| && i in Indices(gs[k]);
      var e: Entry :| e in gs[k] && e.index == i;
      InFlatten(gs, k, e);
      var p :| 0 <= p < |Flatten(gs)| && Flatten(gs)[p] == e;
    }
  }
}
