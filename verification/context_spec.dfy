/** What one context selection means: how messages group into turns, which groups are mandatory,
    and which suffix of the optional ones a byte budget leaves. */
module ContextSpec {
  import opened Messages

  type Budget = b: int | b >= 2 witness 2

  datatype Error =
    | EncodingFailed(reason: string)
    | AmbiguousExchange
    | UnmatchedResult
    | IncompleteExchange
    | BudgetExceeded
    | ReadFailed(reason: string)

  datatype Selection = Selection(
    messages: seq<Message>,
    inputBytes: int,
    selectedBytes: int,
    historyMessages: nat,
    requestMessages: nat,
    omittedHistoryMessages: int,
    omittedHistoryGroups: int)

  datatype Outcome = Selected(selection: Selection) | Rejected(error: Error)

  // ----- tool exchanges -----

  datatype Exchange = Pending(calls: set<string>) | Broken(error: Error)

  /** The calls left open after a message's parts, taken in order. */
  function Consume(pending: set<string>, parts: seq<Part>): Exchange
    decreases |parts|
  {
    if parts == [] then Pending(pending)
    else match parts[0]
      case TextPart(_) => Consume(pending, parts[1..])
      case ToolCallPart(call) =>
        if call.id in pending then Broken(AmbiguousExchange)
        else Consume(pending + {call.id}, parts[1..])
      case ToolResultPart(callId, _) =>
        if callId !in pending then Broken(UnmatchedResult)
        else Consume(pending - {callId}, parts[1..])
  }

  // ----- grouping -----

  datatype Entry = Entry(index: nat, message: Message)
  type Group = seq<Entry>

  datatype Scan =
    | Scan(systems: seq<Entry>, closed: seq<Group>, open: Group, pending: set<string>)
    | Stopped(error: Error)

  /** A user message, or the first message of the request, starts a new group unless a tool
      exchange is still open. */
  predicate Starts(m: Message, index: nat, requestStart: nat) {
    m.role.User? || index == requestStart
  }

  function CloseIf(sc: Scan, closing: bool): Scan
    requires sc.Scan?
  {
    if closing && sc.pending == {} && sc.open != []
    then sc.(closed := sc.closed + [sc.open], open := [])
    else sc
  }

  function Place(sc: Scan, e: Entry): Scan
    requires sc.Scan?
  {
    if e.message.role.System? then sc.(systems := sc.systems + [e])
    else match Consume(sc.pending, e.message.content)
      case Broken(error) => Stopped(error)
      case Pending(calls) => sc.(open := sc.open + [e], pending := calls)
  }

  function Step(sc: Scan, m: Message, index: nat, requestStart: nat): Scan {
    if sc.Stopped? then sc
    else match m.encoding
      case Unencodable(reason) => Stopped(EncodingFailed(reason))
      case Encoded(_) => Place(CloseIf(sc, Starts(m, index, requestStart)), Entry(index, m))
  }

  /** The state after scanning all of `ms`, where `requestStart` is the index of the first message
      of the current request. */
  function ScanOf(ms: seq<Message>, requestStart: nat): Scan {
    if |ms| == 0 then Scan([], [], [], {})
    else Step(ScanOf(ms[..|ms| - 1], requestStart), ms[|ms| - 1], |ms| - 1, requestStart)
  }

  function Groups(sc: Scan): seq<Group>
    requires sc.Scan?
  {
    if sc.open == [] then sc.closed else sc.closed + [sc.open]
  }

  // ----- choosing groups -----

  predicate Mandatory(g: Group, requestStart: nat) {
    exists k | 0 <= k < |g| :: g[k].index >= requestStart
  }

  function MandatoryOf(gs: seq<Group>, requestStart: nat): seq<Group> {
    if |gs| == 0 then []
    else
      var rest := MandatoryOf(gs[..|gs| - 1], requestStart);
      var last := gs[|gs| - 1];
      if Mandatory(last, requestStart) then rest + [last] else rest
  }

  function OptionalOf(gs: seq<Group>, requestStart: nat): seq<Group> {
    if |gs| == 0 then []
    else
      var rest := OptionalOf(gs[..|gs| - 1], requestStart);
      var last := gs[|gs| - 1];
      if Mandatory(last, requestStart) then rest else rest + [last]
  }

  function Flatten(gs: seq<Group>): Group {
    if |gs| == 0 then [] else Flatten(gs[..|gs| - 1]) + gs[|gs| - 1]
  }

  function Cost(es: seq<Entry>): nat {
    if |es| == 0 then 0 else Cost(es[..|es| - 1]) + 1 + Size(es[|es| - 1].message)
  }

  /** Bytes of the JSON array whose messages cost `cost`. */
  function ArrayBytes(cost: int): int { if cost == 0 then 2 else cost + 1 }

  predicate Fits(cost: int, budget: Budget) { ArrayBytes(cost) <= budget }

  /** What the groups from `d` on cost together. */
  function TailCost(gs: seq<Group>, d: nat): nat
    decreases |gs| - d
  {
    if d >= |gs| then 0 else Cost(gs[d]) + TailCost(gs, d + 1)
  }

  /** Counting up from `d`, the first number of oldest groups whose removal makes the rest fit. */
  function DropFrom(optional: seq<Group>, d: nat, base: nat, budget: Budget): (k: nat)
    requires d <= |optional|
    ensures d <= k <= |optional|
    decreases |optional| - d
  {
    if d == |optional| || Fits(base + TailCost(optional, d), budget) then d
    else DropFrom(optional, d + 1, base, budget)
  }

  /** How many of the oldest optional groups have to go before the rest fits beside `base`. */
  function DropCount(optional: seq<Group>, base: nat, budget: Budget): (d: nat)
    ensures d <= |optional|
  {
    DropFrom(optional, 0, base, budget)
  }

  // ----- the selection -----

  ghost function Indices(es: seq<Entry>): set<nat> { set e | e in es :: e.index }

  /** The messages of `ms` at the chosen indices, in their original order. */
  ghost function Pick(ms: seq<Message>, chosen: set<nat>): seq<Message> {
    if |ms| == 0 then []
    else
      Pick(ms[..|ms| - 1], chosen) + (if |ms| - 1 in chosen then [ms[|ms| - 1]] else [])
  }

  /** How many of the first `n` indices were not chosen. */
  ghost function Missing(n: nat, chosen: set<nat>): nat {
    if n == 0 then 0 else Missing(n - 1, chosen) + (if n - 1 in chosen then 0 else 1)
  }

  function Required(sc: Scan, requestStart: nat): seq<Entry>
    requires sc.Scan?
  {
    sc.systems + Flatten(MandatoryOf(Groups(sc), requestStart))
  }

  function Kept(sc: Scan, requestStart: nat, budget: Budget): seq<Group>
    requires sc.Scan?
  {
    var optional := OptionalOf(Groups(sc), requestStart);
    optional[DropCount(optional, Cost(Required(sc, requestStart)), budget)..]
  }

  function Chosen(sc: Scan, requestStart: nat, budget: Budget): seq<Entry>
    requires sc.Scan?
  {
    Required(sc, requestStart) + Flatten(Kept(sc, requestStart, budget))
  }

  ghost function Accounted(ms: seq<Message>, requestStart: nat, budget: Budget): Selection
    requires requestStart <= |ms|
    requires ScanOf(ms, requestStart).Scan?
  {
    var sc := ScanOf(ms, requestStart);
    var chosen := Chosen(sc, requestStart, budget);
    Selection(
      Pick(ms, Indices(chosen)),
      ArrayBytes(MessageCost(ms)),
      ArrayBytes(Cost(chosen)),
      requestStart,
      |ms| - requestStart,
      Missing(requestStart, Indices(chosen)),
      |OptionalOf(Groups(sc), requestStart)| - |Kept(sc, requestStart, budget)|)
  }

  /** The outcome of selecting from `history` and the current request `current`. */
  ghost function SelectionOf(history: seq<Message>, current: seq<Message>, budget: Budget): Outcome {
    var ms := history + current;
    var sc := ScanOf(ms, |history|);
    if sc.Stopped? then Rejected(sc.error)
    else if sc.pending != {} then Rejected(IncompleteExchange)
    else if !Fits(Cost(Required(sc, |history|)), budget) then Rejected(BudgetExceeded)
    else Selected(Accounted(ms, |history|, budget))
  }
}
