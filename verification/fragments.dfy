/** Assembling a streamed chat completion: text as it comes, and tool calls from fragments that carry
    only an index and pieces of an id, a name and arguments. */
module Fragments {
  import opened Wrappers

  import opened Messages

  /** A piece of the tool call at an index; what a delta leaves out is an empty piece. */
  datatype Fragment = Fragment(index: nat, id: string, name: string, arguments: string)

  datatype Delta = Delta(text: string, fragments: seq<Fragment>, usage: Option<Usage>)

  datatype Chunk = Chunk(id: string, name: string, arguments: string)

  datatype Rejection = Unfinished | InvalidCall | EmptyMessage | DuplicateIds | InvalidMessage

  datatype Completion =
    | Assembled(text: string, calls: seq<ToolCall>, usage: Option<Usage>)
    | Rejected(reason: Rejection)

  /** Reading a complete chunk as a tool call, and the limits a canonical message has. */
  datatype Rules = Rules(read: Chunk -> Option<ToolCall>, fits: (string, seq<ToolCall>) -> bool)

  // ----- what a stream of deltas adds up to -----

  function TextOf(deltas: seq<Delta>): string {
    if |deltas| == 0 then "" else TextOf(deltas[..|deltas| - 1]) + deltas[|deltas| - 1].text
  }

  function FragmentsOf(deltas: seq<Delta>): seq<Fragment> {
    if |deltas| == 0 then [] else FragmentsOf(deltas[..|deltas| - 1]) + deltas[|deltas| - 1].fragments
  }

  /** The last usage that was known. */
  function UsageOf(deltas: seq<Delta>): Option<Usage> {
    if |deltas| == 0 then None
    else if deltas[|deltas| - 1].usage.Some? then deltas[|deltas| - 1].usage
    else UsageOf(deltas[..|deltas| - 1])
  }

  function Extend(chunk: Chunk, f: Fragment): Chunk {
    Chunk(chunk.id + f.id, chunk.name + f.name, chunk.arguments + f.arguments)
  }

  const EMPTY: Chunk := Chunk("", "", "")

  /** What the fragments at one index say, end to end. */
  function ChunkAt(fragments: seq<Fragment>, index: nat): Chunk {
    if |fragments| == 0 then EMPTY
    else
      var before, last := ChunkAt(fragments[..|fragments| - 1], index), fragments[|fragments| - 1];
      if last.index == index then Extend(before, last) else before
  }

  function IndicesOf(fragments: seq<Fragment>): set<nat> { set f | f in fragments :: f.index }

  function ChunksOf(fragments: seq<Fragment>): map<nat, Chunk> {
    map index | index in IndicesOf(fragments) :: ChunkAt(fragments, index)
  }

  // ----- the completed message -----

  /** The indices in increasing order. */
  ghost predicate Sorts(order: seq<nat>, indices: set<nat>) {
    && (forall k | 0 <= k < |order| :: order[k] in indices)
    && (forall index | index in indices :: index in order)
    && forall j, k | 0 <= j < k < |order| :: order[j] < order[k]
  }

  function CallsOf(order: seq<nat>, chunks: map<nat, Chunk>, read: Chunk -> Option<ToolCall>)
    : Option<seq<ToolCall>>
    requires forall k | 0 <= k < |order| :: order[k] in chunks
  {
    if |order| == 0 then Some([])
    else match CallsOf(order[..|order| - 1], chunks, read)
      case None => None
      case Some(calls) =>
        match read(chunks[order[|order| - 1]])
        case None => None
        case Some(call) => Some(calls + [call])
  }

  function Finished(text: string, calls: seq<ToolCall>, usage: Option<Usage>, rules: Rules): Completion {
    if text == "" && calls == [] then Rejected(EmptyMessage)
    else if exists i, j | 0 <= i < j < |calls| :: calls[i].id == calls[j].id then Rejected(DuplicateIds)
    else if !rules.fits(text, calls) then Rejected(InvalidMessage)
    else Assembled(text, calls, usage)
  }

  /** The completion a stream means: it mentions nothing of the stream but its text, its chunks, its
      usage, and whether it ended properly. */
  ghost predicate Means(completion: Completion, text: string, chunks: map<nat, Chunk>, usage: Option<Usage>,
                        ended: bool, rules: Rules)
  {
    if !ended then completion == Rejected(Unfinished)
    else
      exists order :: Sorts(order, chunks.Keys)
        && completion == match CallsOf(order, chunks, rules.read)
                         case None => Rejected(InvalidCall)
                         case Some(calls) => Finished(text, calls, usage, rules)
  }

  lemma {:induction false} SortsOnce(a: seq<nat>, b: seq<nat>, indices: set<nat>)
    requires Sorts(a, indices) && Sorts(b, indices)
    ensures a == b
  {
    EmptySorts(a, indices);
    EmptySorts(b, indices);
    if indices != {} {
      var x, y := a[|a| - 1], b[|b| - 1];
      SortsLess(a, indices);
      SortsLess(b, indices);
      hide Sorts;
      SortsOnce(a[..|a| - 1], b[..|b| - 1], indices - {x});
      assert a == a[..|a| - 1] + [x] && b == b[..|b| - 1] + [y];
    }
  }

  lemma EmptySorts(order: seq<nat>, indices: set<nat>)
    requires Sorts(order, indices)
    ensures order == [] <==> indices == {}
  {
    if order != [] { assert order[0] in indices; }
    if indices != {} {
      var index :| index in indices;
      assert index in order;
    }
  }

  lemma SortsLess(order: seq<nat>, indices: set<nat>)
    requires Sorts(order, indices) && order != []
    ensures Sorts(order[..|order| - 1], indices - {order[|order| - 1]})
    ensures order[|order| - 1] in indices && forall index | index in indices :: index <= order[|order| - 1]
  {
    var init, last := order[..|order| - 1], order[|order| - 1];
    forall index | index in indices ensures index <= last {
      var k :| 0 <= k < |order| && order[k] == index;
    }
    forall index | index in indices - {last} ensures index in init {
      var k :| 0 <= k < |order| && order[k] == index;
      assert init[k] == index;
    }
  }

  // ----- which completion it is, case by case -----

  ghost predicate HasFragment(fragments: seq<Fragment>, index: nat) {
    exists i | 0 <= i < |fragments| :: fragments[i].index == index
  }

  /** Every index that some fragment has, once, the smaller ones first. */
  ghost predicate Ascends(order: seq<nat>, fragments: seq<Fragment>) {
    && (forall j, k | 0 <= j < k < |order| :: order[j] < order[k])
    && (forall k | 0 <= k < |order| :: HasFragment(fragments, order[k]))
    && (forall i | 0 <= i < |fragments| :: fragments[i].index in order)
  }

  /** Two chunks are read as calls with one id. */
  ghost predicate ReadAlike(order: seq<nat>, fragments: seq<Fragment>, read: Chunk -> Option<ToolCall>) {
    exists j, k | 0 <= j < k < |order| ::
      && read(ChunkAt(fragments, order[j])).Some? && read(ChunkAt(fragments, order[k])).Some?
      && read(ChunkAt(fragments, order[j])).value.id == read(ChunkAt(fragments, order[k])).value.id
  }

  ghost predicate IsRead(order: seq<nat>, fragments: seq<Fragment>, read: Chunk -> Option<ToolCall>,
                         calls: seq<ToolCall>)
  {
    |calls| == |order| && forall k | 0 <= k < |order| :: read(ChunkAt(fragments, order[k])) == Some(calls[k])
  }

  /** One call per index, in the order of the indices, each read from its own chunk, with the text and the
      usage; or the first reason there is not to. */
  ghost predicate CompletesInOrder(completion: Completion, order: seq<nat>, text: string, fragments: seq<Fragment>,
                                   usage: Option<Usage>, ended: bool, rules: Rules)
  {
    var unread := exists k | 0 <= k < |order| :: rules.read(ChunkAt(fragments, order[k])) == None;
    var nothing := text == "" && order == [];
    var alike := ReadAlike(order, fragments, rules.read);
    && (completion == Rejected(Unfinished) <==> !ended)
    && (completion == Rejected(InvalidCall) <==> ended && unread)
    && (completion == Rejected(EmptyMessage) <==> ended && nothing)
    && (completion == Rejected(DuplicateIds) <==> ended && !unread && alike)
    && (completion == Rejected(InvalidMessage) <==>
          ended && !unread && !nothing && !alike
          && exists calls :: IsRead(order, fragments, rules.read, calls) && !rules.fits(text, calls))
    && (completion.Assembled? ==>
          && completion.text == text && completion.usage == usage
          && IsRead(order, fragments, rules.read, completion.calls)
          && rules.fits(text, completion.calls))
  }

  ghost predicate Completes(completion: Completion, text: string, fragments: seq<Fragment>, usage: Option<Usage>,
                            ended: bool, rules: Rules)
  {
    exists order :: Ascends(order, fragments)
                    && CompletesInOrder(completion, order, text, fragments, usage, ended, rules)
  }

  lemma {:induction false} CallsAreRead(order: seq<nat>, fragments: seq<Fragment>, read: Chunk -> Option<ToolCall>)
    requires forall k | 0 <= k < |order| :: order[k] in ChunksOf(fragments)
    ensures match CallsOf(order, ChunksOf(fragments), read)
            case None => exists k | 0 <= k < |order| :: read(ChunkAt(fragments, order[k])) == None
            case Some(calls) => IsRead(order, fragments, read, calls)
  {
    if |order| > 0 {
      var n := |order| - 1;
      CallsAreRead(order[..n], fragments, read);
      assert forall k | 0 <= k < n :: order[..n][k] == order[k];
      if CallsOf(order[..n], ChunksOf(fragments), read) == None {
        var k :| 0 <= k < n && read(ChunkAt(fragments, order[..n][k])) == None;
        assert read(ChunkAt(fragments, order[k])) == None;
      } else if read(ChunkAt(fragments, order[n])) == None {
        assert read(ChunksOf(fragments)[order[n]]) == None;
      }
    }
  }

  lemma SortsAscends(order: seq<nat>, fragments: seq<Fragment>)
    requires Sorts(order, IndicesOf(fragments))
    ensures Ascends(order, fragments)
  {
    forall k | 0 <= k < |order| ensures HasFragment(fragments, order[k]) {
      IndexHasFragment(fragments, order[k]);
    }
    forall i | 0 <= i < |fragments| ensures fragments[i].index in order {
      assert fragments[i] in fragments;
      assert fragments[i].index in IndicesOf(fragments);
    }
  }

  lemma IndexHasFragment(fragments: seq<Fragment>, index: nat)
    requires index in IndicesOf(fragments)
    ensures HasFragment(fragments, index)
  {
    var f: Fragment :| f in fragments && f.index == index;
    var i :| 0 <= i < |fragments| && fragments[i] == f;
    assert fragments[i].index == index;
  }

  lemma ReadOnce(order: seq<nat>, fragments: seq<Fragment>, read: Chunk -> Option<ToolCall>, a: seq<ToolCall>,
                 b: seq<ToolCall>)
    requires IsRead(order, fragments, read, a) && IsRead(order, fragments, read, b)
    ensures a == b
  {
    assert forall k | 0 <= k < |order| :: Some(a[k]) == Some(b[k]);
  }

  lemma AlikeIsDuplicate(order: seq<nat>, fragments: seq<Fragment>, read: Chunk -> Option<ToolCall>,
                         calls: seq<ToolCall>)
    requires IsRead(order, fragments, read, calls)
    ensures ReadAlike(order, fragments, read) <==> exists i, j | 0 <= i < j < |calls| :: calls[i].id == calls[j].id
  {
    assert forall k | 0 <= k < |order| :: read(ChunkAt(fragments, order[k])) == Some(calls[k]);
  }

  /** What a stream means is what it completes as: every index has its call, and every rejection its case. */
  lemma MeaningCompletes(completion: Completion, text: string, fragments: seq<Fragment>, usage: Option<Usage>,
                         ended: bool, rules: Rules, order: seq<nat>)
    requires Sorts(order, IndicesOf(fragments))
    requires Means(completion, text, ChunksOf(fragments), usage, ended, rules)
    ensures Completes(completion, text, fragments, usage, ended, rules)
  {
    SortsAscends(order, fragments);
    CallsAreRead(order, fragments, rules.read);
    MeansInOrder(completion, text, ChunksOf(fragments), usage, ended, rules, order);
    var calls := CallsOf(order, ChunksOf(fragments), rules.read);
    hide Means, CallsOf, Sorts, Ascends, CompletesInOrder, ChunksOf, IsRead;
    if !ended || calls.None? {
      UnreadCompletes(completion, order, text, fragments, usage, ended, rules);
    } else {
      ReadCompletes(completion, order, text, fragments, usage, rules, calls.value);
    }
  }

  lemma MeansInOrder(completion: Completion, text: string, chunks: map<nat, Chunk>, usage: Option<Usage>,
                     ended: bool, rules: Rules, order: seq<nat>)
    requires Sorts(order, chunks.Keys) && Means(completion, text, chunks, usage, ended, rules)
    ensures completion == if !ended then Rejected(Unfinished)
                          else match CallsOf(order, chunks, rules.read)
                               case None => Rejected(InvalidCall)
                               case Some(calls) => Finished(text, calls, usage, rules)
  {
    if ended {
      var o :| Sorts(o, chunks.Keys)
               && completion == match CallsOf(o, chunks, rules.read)
                                case None => Rejected(InvalidCall)
                                case Some(calls) => Finished(text, calls, usage, rules);
      SortsOnce(o, order, chunks.Keys);
    }
  }

  lemma UnreadCompletes(completion: Completion, order: seq<nat>, text: string, fragments: seq<Fragment>,
                        usage: Option<Usage>, ended: bool, rules: Rules)
    requires completion == Rejected(if ended then InvalidCall else Unfinished)
    requires ended ==> exists k | 0 <= k < |order| :: rules.read(ChunkAt(fragments, order[k])) == None
    ensures CompletesInOrder(completion, order, text, fragments, usage, ended, rules)
  {
    hide ChunkAt, ReadAlike;
  }

  lemma ReadCompletes(completion: Completion, order: seq<nat>, text: string, fragments: seq<Fragment>,
                      usage: Option<Usage>, rules: Rules, calls: seq<ToolCall>)
    requires IsRead(order, fragments, rules.read, calls) && completion == Finished(text, calls, usage, rules)
    ensures CompletesInOrder(completion, order, text, fragments, usage, true, rules)
  {
    AlikeIsDuplicate(order, fragments, rules.read, calls);
    assert forall k | 0 <= k < |order| :: rules.read(ChunkAt(fragments, order[k])) == Some(calls[k]);
    forall other | IsRead(order, fragments, rules.read, other) ensures other == calls {
      ReadOnce(order, fragments, rules.read, calls, other);
    }
    hide IsRead, ReadAlike;
  }

  /** The usage of a completion is the last one that any delta knew, if one did. */
  lemma {:induction false} UsageIsLast(deltas: seq<Delta>)
    ensures UsageOf(deltas) == None <==> forall k | 0 <= k < |deltas| :: deltas[k].usage == None
    ensures forall k | 0 <= k < |deltas| && deltas[k].usage != None
                       && (forall j | k < j < |deltas| :: deltas[j].usage == None) :: UsageOf(deltas) == deltas[k].usage
  {
    if |deltas| > 0 {
      var init := deltas[..|deltas| - 1];
      assert forall k | 0 <= k < |init| :: init[k] == deltas[k];
      UsageIsLast(init);
    }
  }

  /** The text and the fragments of a stream are its deltas', end to end, in order. */
  lemma {:induction false} ContentInOrder(a: seq<Delta>, d: Delta, b: seq<Delta>)
    ensures TextOf(a + [d] + b) == TextOf(a) + d.text + TextOf(b)
    ensures FragmentsOf(a + [d] + b) == FragmentsOf(a) + d.fragments + FragmentsOf(b)
  {
    if b == [] {
      assert a + [d] + b == a + [d];
      assert (a + [d])[..|a|] == a;
    } else {
      var init, last := b[..|b| - 1], b[|b| - 1];
      ContentInOrder(a, d, init);
      assert (a + [d] + b)[..|a + [d] + b| - 1] == a + [d] + init;
      assert TextOf(a) + d.text + TextOf(init) + last.text == TextOf(a) + d.text + (TextOf(init) + last.text);
      assert FragmentsOf(a) + d.fragments + FragmentsOf(init) + last.fragments
          == FragmentsOf(a) + d.fragments + (FragmentsOf(init) + last.fragments);
    }
  }

  // ----- the loop -----

  lemma ChunksSnoc(fragments: seq<Fragment>, f: Fragment)
    ensures ChunksOf(fragments + [f])
         == (var chunks := ChunksOf(fragments);
             chunks[f.index := Extend(if f.index in chunks then chunks[f.index] else EMPTY, f)])
  {
    var more := fragments + [f];
    assert more[..|fragments|] == fragments;
    assert forall x :: x in more <==> x in fragments || x == f;
    assert IndicesOf(more) == IndicesOf(fragments) + {f.index};
    if f.index !in IndicesOf(fragments) { NoFragments(fragments, f.index); }
  }

  lemma {:induction false} NoFragments(fragments: seq<Fragment>, index: nat)
    requires index !in IndicesOf(fragments)
    ensures ChunkAt(fragments, index) == EMPTY
  {
    if |fragments| > 0 {
      var init, last := fragments[..|fragments| - 1], fragments[|fragments| - 1];
      assert last in fragments;
      assert forall f | f in init :: f in fragments;
      NoFragments(init, index);
    }
  }

  lemma OneDelta(deltas: seq<Delta>, k: nat)
    requires k < |deltas|
    ensures TextOf(deltas[..k + 1]) == TextOf(deltas[..k]) + deltas[k].text
    ensures FragmentsOf(deltas[..k + 1]) == FragmentsOf(deltas[..k]) + deltas[k].fragments
    ensures UsageOf(deltas[..k + 1]) == if deltas[k].usage.Some? then deltas[k].usage else UsageOf(deltas[..k])
  {
    assert deltas[..k + 1][..k] == deltas[..k];
  }

  lemma ConcatSnoc(parts: seq<string>, part: string)
    ensures Concat(parts + [part]) == Concat(parts) + part
  {
    assert (parts + [part])[..|parts|] == parts;
  }

  /** Collect the deltas, passing their text on, and assemble the calls in the order of their indices. */
  method Assemble(deltas: seq<Delta>, ended: bool, rules: Rules)
    returns (yielded: seq<string>, completion: Completion)
    ensures Concat(yielded) == TextOf(deltas)
    ensures Means(completion, TextOf(deltas), ChunksOf(FragmentsOf(deltas)), UsageOf(deltas), ended, rules)
    ensures completion.Assembled? ==> completion.text == Concat(yielded)
    ensures Completes(completion, TextOf(deltas), FragmentsOf(deltas), UsageOf(deltas), ended, rules)
    ensures forall k | 0 <= k < |yielded| :: yielded[k] != ""
  {
    var chunks: map<nat, Chunk> := map[];
    var usage: Option<Usage> := None;
    yielded := [];
    assert chunks == ChunksOf(FragmentsOf(deltas[..0]));
    hide ChunksOf, ChunkAt, IndicesOf, TextOf, UsageOf, FragmentsOf, Concat, Sorts, CallsOf, Finished;
    for k := 0 to |deltas|
      invariant Concat(yielded) == TextOf(deltas[..k])
      invariant (yielded == []) == (TextOf(deltas[..k]) == "")
      invariant forall j | 0 <= j < |yielded| :: yielded[j] != ""
      invariant chunks == ChunksOf(FragmentsOf(deltas[..k])) && usage == UsageOf(deltas[..k])
    {
      OneDelta(deltas, k);
      if deltas[k].usage.Some? { usage := deltas[k].usage; }
      if deltas[k].text != "" {
        ConcatSnoc(yielded, deltas[k].text);
        yielded := yielded + [deltas[k].text];
      }
      chunks := Collect(chunks, deltas[k].fragments, FragmentsOf(deltas[..k]));
    }
    assert deltas[..|deltas|] == deltas;
    assert chunks.Keys == IndicesOf(FragmentsOf(deltas)) by { ChunkKeys(FragmentsOf(deltas)); }
    var order := Sorted(chunks.Keys);
    if !ended {
      completion := Rejected(Unfinished);
      MeaningCompletes(completion, TextOf(deltas), FragmentsOf(deltas), usage, ended, rules, order);
      return;
    }
    var calls := ReadCalls(order, chunks, rules.read);
    completion := if calls.None? then Rejected(InvalidCall)
                  else Finished(Concat(yielded), calls.value, usage, rules);
    MeaningCompletes(completion, TextOf(deltas), FragmentsOf(deltas), usage, ended, rules, order);
  }

  lemma ChunkKeys(fragments: seq<Fragment>)
    ensures ChunksOf(fragments).Keys == IndicesOf(fragments)
  {
  }

  /** Read the chunks as tool calls, until one cannot be read. */
  method ReadCalls(order: seq<nat>, chunks: map<nat, Chunk>, read: Chunk -> Option<ToolCall>)
    returns (calls: Option<seq<ToolCall>>)
    requires forall k | 0 <= k < |order| :: order[k] in chunks
    ensures calls == CallsOf(order, chunks, read)
  {
    var sofar: seq<ToolCall> := [];
    for k := 0 to |order|
      invariant CallsOf(order[..k], chunks, read) == Some(sofar)
    {
      assert order[..k + 1][..k] == order[..k];
      var call := read(chunks[order[k]]);
      if call.None? {
        UnreadStays(order, k + 1, chunks, read);
        return None;
      }
      sofar := sofar + [call.value];
    }
    assert order[..|order|] == order;
    return Some(sofar);
  }

  lemma {:induction false} UnreadStays(order: seq<nat>, k: nat, chunks: map<nat, Chunk>,
                                       read: Chunk -> Option<ToolCall>)
    requires forall j | 0 <= j < |order| :: order[j] in chunks
    requires k <= |order| && CallsOf(order[..k], chunks, read).None?
    ensures CallsOf(order, chunks, read).None?
  {
    if k < |order| {
      assert order[..|order| - 1][..k] == order[..k];
      UnreadStays(order[..|order| - 1], k, chunks, read);
    } else {
      assert order[..k] == order;
    }
  }

  function Concat(parts: seq<string>): string {
    if |parts| == 0 then "" else Concat(parts[..|parts| - 1]) + parts[|parts| - 1]
  }

  method Collect(before: map<nat, Chunk>, fragments: seq<Fragment>, ghost earlier: seq<Fragment>)
    returns (chunks: map<nat, Chunk>)
    requires before == ChunksOf(earlier)
    ensures chunks == ChunksOf(earlier + fragments)
  {
    hide ChunksOf, ChunkAt, IndicesOf;
    chunks := before;
    assert earlier + fragments[..0] == earlier;
    for k := 0 to |fragments|
      invariant chunks == ChunksOf(earlier + fragments[..k])
    {
      var f := fragments[k];
      assert earlier + fragments[..k + 1] == earlier + fragments[..k] + [f];
      ChunksSnoc(earlier + fragments[..k], f);
      if f.index !in chunks { chunks := chunks[f.index := EMPTY]; }
      chunks := chunks[f.index := Extend(chunks[f.index], f)];
    }
    assert fragments[..|fragments|] == fragments;
  }

  /** Sort a set of indices by inserting them one after another. */
  method Sorted(indices: set<nat>) returns (order: seq<nat>)
    ensures Sorts(order, indices)
  {
    order := [];
    var rest := indices;
    while rest != {}
      invariant rest <= indices && Sorts(order, indices - rest)
      decreases |rest|
    {
      var index :| index in rest;
      var k := 0;
      while k < |order| && order[k] < index
        invariant 0 <= k <= |order|
        invariant forall j | 0 <= j < k :: order[j] < index
      {
        k := k + 1;
      }
      assert k < |order| ==> order[k] in indices - rest;
      InsertSorts(order, indices - rest, index, k);
      order := order[..k] + [index] + order[k..];
      assert indices - rest + {index} == indices - (rest - {index});
      rest := rest - {index};
    }
    assert indices - rest == indices;
  }

  lemma InsertSorts(order: seq<nat>, indices: set<nat>, index: nat, k: nat)
    requires Sorts(order, indices) && index !in indices && k <= |order|
    requires forall j | 0 <= j < k :: order[j] < index
    requires k < |order| ==> index < order[k]
    ensures Sorts(order[..k] + [index] + order[k..], indices + {index})
  {
    InsertIncreases(order, index, k);
    var more := order[..k] + [index] + order[k..];
    forall x | x in indices + {index} ensures x in more { assert x == index || x in order[..k] + order[k..]; }
    assert forall x | x in more :: x in order || x == index;
    assert forall j | 0 <= j < |more| :: more[j] in more;
  }

  lemma InsertIncreases(order: seq<nat>, index: nat, k: nat)
    requires k <= |order| && forall i, j | 0 <= i < j < |order| :: order[i] < order[j]
    requires forall j | 0 <= j < k :: order[j] < index
    requires k < |order| ==> index < order[k]
    ensures var more := order[..k] + [index] + order[k..];
            forall i, j | 0 <= i < j < |more| :: more[i] < more[j]
  {
    assert forall j | k <= j < |order| :: index < order[j];
  }

  // ----- only the concatenations matter -----

  /** Two streams with the same text, indices, per-index concatenations, usage and ending mean the same
      completion. */
  lemma {:induction false} SameContentSameCompletion(a: seq<Delta>, b: seq<Delta>, ended: bool, rules: Rules,
                                                     x: Completion, y: Completion)
    requires TextOf(a) == TextOf(b) && UsageOf(a) == UsageOf(b)
    requires IndicesOf(FragmentsOf(a)) == IndicesOf(FragmentsOf(b))
    requires forall i | i in IndicesOf(FragmentsOf(a)) :: ChunkAt(FragmentsOf(a), i) == ChunkAt(FragmentsOf(b), i)
    requires Means(x, TextOf(a), ChunksOf(FragmentsOf(a)), UsageOf(a), ended, rules)
    requires Means(y, TextOf(b), ChunksOf(FragmentsOf(b)), UsageOf(b), ended, rules)
    ensures x == y
  {
    var chunks := ChunksOf(FragmentsOf(a));
    assert chunks == ChunksOf(FragmentsOf(b));
    if ended {
      var p :| Sorts(p, chunks.Keys)
               && x == match CallsOf(p, chunks, rules.read)
                       case None => Rejected(InvalidCall)
                       case Some(calls) => Finished(TextOf(a), calls, UsageOf(a), rules);
      var q :| Sorts(q, chunks.Keys)
               && y == match CallsOf(q, chunks, rules.read)
                       case None => Rejected(InvalidCall)
                       case Some(calls) => Finished(TextOf(a), calls, UsageOf(a), rules);
      SortsOnce(p, q, chunks.Keys);
    }
  }

  lemma {:induction false} ChunkAtConcat(a: seq<Fragment>, b: seq<Fragment>, index: nat)
    ensures ChunkAt(a + b, index)
         == Chunk(ChunkAt(a, index).id + ChunkAt(b, index).id, ChunkAt(a, index).name + ChunkAt(b, index).name,
                  ChunkAt(a, index).arguments + ChunkAt(b, index).arguments)
  {
    if b == [] {
      assert a + b == a;
    } else {
      assert (a + b)[..|a + b| - 1] == a + b[..|b| - 1];
      ChunkAtConcat(a, b[..|b| - 1], index);
    }
  }

  lemma ChunkAtPair(x: Fragment, y: Fragment, index: nat)
    ensures ChunkAt([x, y], index)
         == (var one := if x.index == index then Extend(EMPTY, x) else EMPTY;
             if y.index == index then Extend(one, y) else one)
  {
    assert [x, y][..1] == [x] && [x][..0] == [];
    assert ChunkAt([x], index) == if x.index == index then Extend(EMPTY, x) else EMPTY;
  }

  /** Fragments of different calls may change places. */
  lemma InterleavingIsFree(a: seq<Fragment>, x: Fragment, y: Fragment, b: seq<Fragment>, index: nat)
    requires x.index != y.index
    ensures ChunkAt(a + [x, y] + b, index) == ChunkAt(a + [y, x] + b, index)
    ensures IndicesOf(a + [x, y] + b) == IndicesOf(a + [y, x] + b)
  {
    ChunkAtConcat(a + [x, y], b, index);
    ChunkAtConcat(a + [y, x], b, index);
    ChunkAtConcat(a, [x, y], index);
    ChunkAtConcat(a, [y, x], index);
    ChunkAtPair(x, y, index);
    ChunkAtPair(y, x, index);
    assert forall f :: f in a + [x, y] + b <==> f in a + [y, x] + b;
  }

  /** Two fragments of one call as one. */
  function Joined(x: Fragment, y: Fragment): Fragment {
    Fragment(x.index, x.id + y.id, x.name + y.name, x.arguments + y.arguments)
  }

  /** A fragment may come in two pieces. */
  lemma SplittingIsFree(a: seq<Fragment>, x: Fragment, y: Fragment, b: seq<Fragment>, index: nat)
    requires x.index == y.index
    ensures ChunkAt(a + [x, y] + b, index) == ChunkAt(a + [Joined(x, y)] + b, index)
    ensures IndicesOf(a + [x, y] + b) == IndicesOf(a + [Joined(x, y)] + b)
  {
    var whole := Joined(x, y);
    ChunkAtConcat(a + [x, y], b, index);
    ChunkAtConcat(a + [whole], b, index);
    ChunkAtConcat(a, [x, y], index);
    ChunkAtConcat(a, [whole], index);
    ChunkAtPair(x, y, index);
    assert [whole][..0] == [];
    ExtendWhole(x, y);
    IndicesConcat(a + [x, y], b);
    IndicesConcat(a + [whole], b);
    IndicesConcat(a, [x, y]);
    IndicesConcat(a, [whole]);
    assert IndicesOf([x, y]) == {x.index} == IndicesOf([whole]) by {
      assert x in [x, y] && whole in [whole];
    }
  }

  lemma IndicesConcat(a: seq<Fragment>, b: seq<Fragment>)
    ensures IndicesOf(a + b) == IndicesOf(a) + IndicesOf(b)
  {
    assert forall f :: f in a + b <==> f in a || f in b;
  }

  lemma ExtendWhole(x: Fragment, y: Fragment)
    ensures Extend(Extend(EMPTY, x), y)
         == Extend(EMPTY, Joined(x, y))
  {
    assert "" + x.id + y.id == "" + (x.id + y.id);
    assert "" + x.name + y.name == "" + (x.name + y.name);
    assert "" + x.arguments + y.arguments == "" + (x.arguments + y.arguments);
  }

  // ----- any re-splitting, any interleaving -----

  /** Two neighbours of different calls have changed places. */
  ghost predicate Swapped(f: seq<Fragment>, g: seq<Fragment>) {
    exists a, x: Fragment, y: Fragment, b ::
      x.index != y.index && f == a + [x, y] + b && g == a + [y, x] + b
  }

  /** One fragment has come in two pieces. */
  ghost predicate Divided(f: seq<Fragment>, g: seq<Fragment>) {
    exists a, x: Fragment, y: Fragment, b ::
      x.index == y.index && f == a + [Joined(x, y)] + b && g == a + [x, y] + b
  }

  ghost predicate Rearranged(f: seq<Fragment>, g: seq<Fragment>) { Swapped(f, g) || Divided(f, g) || Divided(g, f) }

  /** The fragments mention the same calls, with the same concatenations. */
  ghost predicate SameCalls(f: seq<Fragment>, g: seq<Fragment>) {
    IndicesOf(f) == IndicesOf(g) && forall index :: ChunkAt(f, index) == ChunkAt(g, index)
  }

  lemma SwappedIsSame(f: seq<Fragment>, g: seq<Fragment>)
    requires Swapped(f, g)
    ensures SameCalls(f, g)
  {
    var a, x: Fragment, y: Fragment, b :| x.index != y.index && f == a + [x, y] + b && g == a + [y, x] + b;
    forall index ensures ChunkAt(f, index) == ChunkAt(g, index) { InterleavingIsFree(a, x, y, b, index); }
    InterleavingIsFree(a, x, y, b, 0);
  }

  lemma DividedIsSame(f: seq<Fragment>, g: seq<Fragment>)
    requires Divided(f, g)
    ensures SameCalls(f, g)
  {
    var a, x: Fragment, y: Fragment, b :| x.index == y.index && f == a + [Joined(x, y)] + b && g == a + [x, y] + b;
    forall index ensures ChunkAt(f, index) == ChunkAt(g, index) { SplittingIsFree(a, x, y, b, index); }
    SplittingIsFree(a, x, y, b, 0);
  }

  /** Each list of fragments but the first is a rearrangement of the one before. */
  ghost predicate Chain(lists: seq<seq<Fragment>>) {
    forall k | 0 <= k < |lists| - 1 :: Rearranged(lists[k], lists[k + 1])
  }

  lemma {:induction false} ChainIsSame(lists: seq<seq<Fragment>>)
    requires lists != [] && Chain(lists)
    ensures SameCalls(lists[0], lists[|lists| - 1])
  {
    if |lists| > 1 {
      var n := |lists| - 1;
      assert forall k | 0 <= k < n :: lists[..n][k] == lists[k];
      ChainIsSame(lists[..n]);
      assert Rearranged(lists[n - 1], lists[n]);
      if Swapped(lists[n - 1], lists[n]) {
        SwappedIsSame(lists[n - 1], lists[n]);
      } else if Divided(lists[n - 1], lists[n]) {
        DividedIsSame(lists[n - 1], lists[n]);
      } else {
        DividedIsSame(lists[n], lists[n - 1]);
      }
    }
  }

  /** However a stream's fragments are split, joined and interleaved across calls, in any number of steps,
      and however they are spread over its deltas, it completes in the same way. */
  lemma RearrangedCompletesAlike(a: seq<Delta>, b: seq<Delta>, lists: seq<seq<Fragment>>, ended: bool, rules: Rules,
                                 x: Completion, y: Completion)
    requires TextOf(a) == TextOf(b) && UsageOf(a) == UsageOf(b)
    requires lists != [] && Chain(lists) && lists[0] == FragmentsOf(a) && lists[|lists| - 1] == FragmentsOf(b)
    requires Means(x, TextOf(a), ChunksOf(FragmentsOf(a)), UsageOf(a), ended, rules)
    requires Means(y, TextOf(b), ChunksOf(FragmentsOf(b)), UsageOf(b), ended, rules)
    ensures x == y
  {
    hide Means, ChunksOf, Chain;
    ChainIsSame(lists);
    SameContentSameCompletion(a, b, ended, rules, x, y);
  }

  // ----- what a chunk is made of -----

  /** One part of every fragment at an index, in order. */
  function Pieces(fragments: seq<Fragment>, index: nat, part: Fragment -> string): seq<string> {
    if |fragments| == 0 then []
    else
      Pieces(fragments[..|fragments| - 1], index, part)
        + (if fragments[|fragments| - 1].index == index then [part(fragments[|fragments| - 1])] else [])
  }

  /** A chunk's id, name and arguments are each the concatenation of their own pieces at its index. */
  lemma {:induction false} ChunkIsConcatenation(fragments: seq<Fragment>, index: nat)
    ensures var chunk := ChunkAt(fragments, index);
            && chunk.id == Concat(Pieces(fragments, index, (f: Fragment) => f.id))
            && chunk.name == Concat(Pieces(fragments, index, (f: Fragment) => f.name))
            && chunk.arguments == Concat(Pieces(fragments, index, (f: Fragment) => f.arguments))
  {
    if |fragments| > 0 {
      var init := fragments[..|fragments| - 1];
      ChunkIsConcatenation(init, index);
      OnePiece(fragments, index, (f: Fragment) => f.id);
      OnePiece(fragments, index, (f: Fragment) => f.name);
      OnePiece(fragments, index, (f: Fragment) => f.arguments);
    }
  }

  lemma OnePiece(fragments: seq<Fragment>, index: nat, part: Fragment -> string)
    requires |fragments| > 0
    ensures Concat(Pieces(fragments, index, part))
         == Concat(Pieces(fragments[..|fragments| - 1], index, part))
          + (if fragments[|fragments| - 1].index == index then part(fragments[|fragments| - 1]) else "")
  {
    var before, last := Pieces(fragments[..|fragments| - 1], index, part), fragments[|fragments| - 1];
    assert before + [] == before;
    assert (before + [part(last)])[..|before|] == before;
  }
}
