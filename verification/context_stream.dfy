/** The incremental selector itself: an object whose fields each message updates in place. Every
    method does to the object exactly what the value-level step does to its view. */
module ContextStream {
  import opened Wrappers

  import opened Messages
  import opened ContextSpec
  import opened ContextFacts
  import opened ContextSelect
  import Spec = ContextStreamSpec
  import opened Refinement = ContextRefinement

  class HistoryGroup {
    var entries: seq<Entry>
    var cost: nat
    var count: nat
    var historyCount: nat
    var mandatory: bool

    ghost function View(): Spec.Held
      reads this
    {
      Spec.Held(entries, cost, count, historyCount, mandatory)
    }

    constructor ()
      ensures View() == Spec.NEW_GROUP
    {
      entries, cost, count, historyCount, mandatory := [], 0, 0, 0, false;
    }

    /** Charge one more message, and keep the payload only while the group alone could fit. */
    method Grow(index: nat, message: Message, messageCost: nat, current: bool, budget: Budget)
      modifies this
      ensures View() == Spec.Grow(old(View()), Entry(index, message), messageCost, current, budget)
    {
      cost := cost + messageCost;
      count := count + 1;
      historyCount := historyCount + (if current then 0 else 1);
      mandatory := mandatory || current;
      if Fits(cost, budget) {
        entries := entries + [Entry(index, message)];
      } else {
        entries := [];
      }
    }
  }

  ghost function Views(groups: seq<HistoryGroup>): seq<Spec.Held>
    reads groups
  {
    seq(|groups|, i requires 0 <= i < |groups| reads groups => groups[i].View())
  }

  class StreamingSelection {
    const budget: Budget
    var group: HistoryGroup
    var optional: seq<HistoryGroup>
    var optionalCost: int
    var required: seq<Entry>
    var requiredCost: nat
    var requiredHistory: nat
    var requiredOverflow: bool
    var mandatoryGroups: nat
    var groups: nat
    var pending: set<string>
    var historyCount: nat
    var currentCount: nat
    var totalCost: nat
    var failure: Option<Error>

    ghost function Ledger(): Spec.Ledger
      reads this, optional
    {
      Spec.Ledger(budget, Views(optional), optionalCost, required, requiredCost, requiredHistory,
                  requiredOverflow)
    }

    /** The state of the object as a value. */
    ghost function View(): Spec.Stream
      reads this, optional, group
    {
      Spec.Stream(Ledger(), group.View(), mandatoryGroups, groups, pending,
                  Spec.Tally(historyCount, currentCount, totalCost), failure)
    }

    /** The open group is not one of the closed ones, so growing it touches none of them. */
    ghost predicate Valid()
      reads this
    {
      group !in optional
    }

    constructor (budget: Budget)
      ensures Valid() && fresh(group) && this.budget == budget && View() == Spec.Fresh(budget)
    {
      this.budget := budget;
      group := new HistoryGroup();
      optional, optionalCost := [], 0;
      required, requiredCost, requiredHistory, requiredOverflow := [], 0, 0, false;
      mandatoryGroups, groups, pending := 0, 0, {};
      historyCount, currentCount, totalCost := 0, 0, 0;
      failure := None;
    }

    method Trim()
      modifies this`optional, this`optionalCost
      ensures Ledger() == Spec.Trim(old(Ledger()))
      ensures forall g | g in optional :: g in old(optional)
    {
      while optional != [] && !Fits(requiredCost + optionalCost, budget)
        invariant Spec.Trim(Ledger()) == Spec.Trim(old(Ledger()))
        invariant forall g | g in optional :: g in old(optional)
        decreases |optional|
      {
        ghost var before := Ledger();
        optionalCost := optionalCost - optional[0].cost;
        optional := optional[1..];
        assert Ledger() == Spec.Pop(before);
      }
    }

    method Demand(payload: seq<Entry>, cost: nat, history: nat)
      modifies this`required, this`requiredCost, this`requiredHistory, this`requiredOverflow
      modifies this`optional, this`optionalCost
      ensures Ledger() == Spec.Demand(old(Ledger()), payload, cost, history)
      ensures forall g | g in optional :: g in old(optional)
    {
      requiredCost := requiredCost + cost;
      requiredHistory := requiredHistory + history;
      if Fits(requiredCost, budget) {
        required := required + payload;
      } else {
        requiredOverflow := true;
      }
      assert Ledger() == Spec.Charge(old(Ledger()), payload, cost, history);
      Trim();
    }

    method Keep(closing: HistoryGroup)
      modifies this`optional, this`optionalCost
      ensures Ledger() == Spec.Keep(old(Ledger()), closing.View())
      ensures forall g | g in optional :: g in old(optional) || g == closing
    {
      if !Fits(requiredCost + closing.cost, budget) {
        // An oversized newer group is a suffix barrier: older groups may not fill its place.
        optional := [];
        optionalCost := 0;
      } else {
        ghost var before := Ledger();
        optional := optional + [closing];
        optionalCost := optionalCost + closing.cost;
        assert Ledger().optional == before.optional + [closing.View()];
        Trim();
      }
    }

    method CloseGroup()
      requires Valid()
      modifies this`group, this`groups, this`mandatoryGroups
      modifies this`required, this`requiredCost, this`requiredHistory, this`requiredOverflow
      modifies this`optional, this`optionalCost
      ensures Valid() && (group == old(group) || fresh(group))
      ensures View() == Spec.Close(old(View()))
    {
      hide Spec.Demand, Spec.Keep;
      if group.count == 0 { return; }
      var closing := group;
      groups := groups + 1;
      group := new HistoryGroup();
      Settle(closing);
    }

    /** Charge a closed group if it is mandatory, and otherwise keep it if it can fit. */
    method Settle(closing: HistoryGroup)
      modifies this`mandatoryGroups
      modifies this`required, this`requiredCost, this`requiredHistory, this`requiredOverflow
      modifies this`optional, this`optionalCost
      ensures var g := closing.View();
              && mandatoryGroups == old(mandatoryGroups) + (if g.mandatory then 1 else 0)
              && Ledger() == (if g.mandatory
                              then Spec.Demand(old(Ledger()), g.entries, g.cost, g.historyCount)
                              else Spec.Keep(old(Ledger()), g))
      ensures forall g | g in optional :: g in old(optional) || g == closing
    {
      if closing.mandatory {
        mandatoryGroups := mandatoryGroups + 1;
        Demand(closing.entries, closing.cost, closing.historyCount);
      } else {
        Keep(closing);
      }
    }

    method Take(index: nat, message: Message, cost: nat, current: bool)
      requires Valid()
      modifies this`required, this`requiredCost, this`requiredHistory, this`requiredOverflow
      modifies this`optional, this`optionalCost, this`pending, this`failure, group
      ensures Valid()
      ensures View() == Spec.Take(old(View()), Entry(index, message), cost, current)
    {
      if message.role.System? {
        Demand([Entry(index, message)], cost, if current then 0 else 1);
        return;
      }
      group.Grow(index, message, cost, current, budget);
      assert Ledger() == old(Ledger());
      var exchange := TrackParts(pending, message.content);
      match exchange
      case Broken(error) => failure := Some(error);
      case Pending(calls) => pending := calls;
    }

    /** Take one more message; after a failure, only consume it. */
    method Add(message: Message, current: bool)
      requires Valid()
      modifies this, group
      ensures Valid() && (group == old(group) || fresh(group))
      ensures View() == Spec.Add(old(View()), message, current)
    {
      if failure.Some? { return; }
      if message.encoding.Unencodable? {
        failure := Some(EncodingFailed(message.encoding.reason));
        return;
      }
      AddEncoded(message, message.encoding.bytes, current);
    }

    method AddEncoded(message: Message, encoded: seq<byte>, current: bool)
      requires Valid() && failure == None && message.encoding == Encoded(encoded)
      modifies this, group
      ensures Valid() && (group == old(group) || fresh(group))
      ensures View() == Spec.Add(old(View()), message, current)
    {
      hide Spec.CloseBefore, Spec.Take;
      var cost := 1 + |encoded|;
      var index := historyCount + currentCount;
      CloseBefore(message, current);
      Count(cost, current);
      Take(index, message, cost, current);
    }

    method CloseBefore(message: Message, current: bool)
      requires Valid()
      modifies this`group, this`groups, this`mandatoryGroups
      modifies this`required, this`requiredCost, this`requiredHistory, this`requiredOverflow
      modifies this`optional, this`optionalCost
      ensures Valid() && (group == old(group) || fresh(group))
      ensures View() == Spec.CloseBefore(old(View()), message, current)
    {
      var boundary := current && currentCount == 0;
      if (message.role.User? || boundary) && pending == {} {
        CloseGroup();
      }
    }

    method Count(cost: nat, current: bool)
      modifies this`totalCost, this`currentCount, this`historyCount
      ensures View() == old(View()).(tally := Spec.Count(old(View()).tally, cost, current))
    {
      totalCost := totalCost + cost;
      if current { currentCount := currentCount + 1; } else { historyCount := historyCount + 1; }
      assert Ledger() == old(Ledger());
    }

    /** Close the last group and report the selection, or the first reason there is none. */
    method Finish() returns (outcome: Outcome)
      requires Valid()
      modifies this
      ensures outcome == Refinement.Finish(old(View()))
    {
      hide Spec.Close, Refinement.SortByIndex;
      if failure.Some? { return Rejected(failure.value); }
      if pending != {} { return Rejected(IncompleteExchange); }
      CloseGroup();
      if requiredOverflow { return Rejected(BudgetExceeded); }
      var entries := required;
      var retained := 0;
      for k := 0 to |optional|
        invariant entries == required + Refinement.Payloads(Views(optional)[..k])
        invariant retained == Refinement.HistoryIn(Views(optional)[..k])
      {
        assert Views(optional)[..k + 1][..k] == Views(optional)[..k];
        entries := entries + optional[k].entries;
        retained := retained + optional[k].historyCount;
      }
      assert Views(optional)[..|optional|] == Views(optional);
      entries := Refinement.SortByIndex(entries);
      outcome := Selected(Selection(
                            MessagesOf(entries), ArrayBytes(totalCost),
                            ArrayBytes(requiredCost + optionalCost), historyCount, currentCount,
                            historyCount - requiredHistory - retained,
                            groups - mandatoryGroups - |optional|));
    }
  }

  /** An incremental source of stored messages: its rows, and how reading them ends. */
  datatype Source = Source(rows: seq<Message>, ending: Ending)
  datatype Ending = Exhausted | Interrupted(reason: string)

  lemma RunNext(all: seq<Message>, i: nat, requestStart: nat, budget: Budget)
    requires i < |all|
    ensures Spec.Run(all[..i + 1], requestStart, budget)
         == Spec.Add(Spec.Run(all[..i], requestStart, budget), all[i], i >= requestStart)
  {
    assert all[..i + 1][..i] == all[..i];
  }

  /** Offer a run of messages, all from history or all from the request. */
  method Offer(selection: StreamingSelection, messages: seq<Message>, current: bool,
               ghost all: seq<Message>, ghost first: nat, ghost requestStart: nat)
    requires first + |messages| <= |all| && messages == all[first..first + |messages|]
    requires if current then first >= requestStart else first + |messages| <= requestStart
    requires selection.Valid()
    requires selection.View() == Spec.Run(all[..first], requestStart, selection.budget)
    modifies selection, selection.group
    ensures selection.Valid() && (selection.group == old(selection.group) || fresh(selection.group))
    ensures selection.View() == Spec.Run(all[..first + |messages|], requestStart, selection.budget)
  {
    hide Spec.Run, Spec.Add;
    for k := 0 to |messages|
      invariant selection.Valid()
      invariant selection.group == old(selection.group) || fresh(selection.group)
      invariant selection.View() == Spec.Run(all[..first + k], requestStart, selection.budget)
    {
      RunNext(all, first + k, requestStart, selection.budget);
      selection.Add(messages[k], current);
    }
  }

  /** Scan all of the source, then the current request. A failing read is reported whatever the
      messages before it looked like; otherwise the outcome is the materialized selection's. */
  method SelectStream(source: Source, current: seq<Message>, budget: Budget) returns (outcome: Outcome)
    ensures outcome == match source.ending
                       case Interrupted(reason) => Rejected(ReadFailed(reason))
                       case Exhausted => SelectionOf(source.rows, current, budget)
  {
    hide SelectionOf, Refinement.Finish, Spec.Add, MessageCost;
    var selection := new StreamingSelection(budget);
    ghost var all, n := source.rows + current, |source.rows|;
    assert all[0..n] == source.rows && all[n..|all|] == current && all[..|all|] == all;
    Offer(selection, source.rows, false, all, 0, n);
    if source.ending.Interrupted? { return Rejected(ReadFailed(source.ending.reason)); }
    Offer(selection, current, true, all, n, n);
    StreamRefinesSelection(source.rows, current, budget);
    outcome := selection.Finish();
  }
}
