/** The check that a tool payload is a JSON value: a walk over a graph of shared, possibly cyclic
    containers, and the finite trees that the accepted ones unfold to. */
module JsonValues {
  import opened Wrappers

  // ----- payload graphs -----

  /** A value as the walk sees it. Containers are met by identity, so they may be shared or cyclic.
      A number that is not finite has no JSON form (section 6 of RFC 8259). */
  datatype Item =
    | Null
    | Boolean(value: bool)
    | Integer(number: int)
    | Text(text: string)
    | Float(digits: string, finite: bool)
    | Alien
    | Container(id: nat)

  datatype Key = StringKey(name: string) | OtherKey

  datatype Content =
    | ListOf(items: seq<Item>)
    | DictOf(keys: seq<Key>, values: seq<Item>)

  predicate WellFormed(c: Content) { c.DictOf? ==> |c.keys| == |c.values| }

  function Children(c: Content): seq<Item> { if c.ListOf? then c.items else c.values }

  type Heap = map<nat, Content>

  /** Every container that occurs is one of the finitely many in the graph. */
  ghost predicate Closed(heap: Heap) {
    forall id | id in heap ::
      WellFormed(heap[id]) && forall k | 0 <= k < |Children(heap[id])| :: Known(Children(heap[id])[k], heap)
  }

  predicate Known(item: Item, heap: Heap) { item.Container? ==> item.id in heap }

  datatype Error = Cyclic | KeyNotString | NotJson

  predicate IsScalar(item: Item) {
    match item
    case Null => true
    case Boolean(_) => true
    case Integer(_) => true
    case Text(_) => true
    case Float(_, finite) => finite
    case _ => false
  }

  // ----- JSON values as finite trees -----

  datatype Tree =
    | Scalar(item: Item)
    | Array(elements: seq<Tree>)
    | Object(names: seq<string>, members: seq<Tree>)

  /** The item unfolds to the tree: every reference replaced by a copy of what it refers to. */
  ghost predicate Unfolds(item: Item, tree: Tree, heap: Heap)
    decreases tree
  {
    match tree
    case Scalar(leaf) => IsScalar(item) && item == leaf
    case Array(elements) =>
      && item.Container? && item.id in heap && heap[item.id].ListOf?
      && |elements| == |heap[item.id].items|
      && forall k | 0 <= k < |elements| :: Unfolds(heap[item.id].items[k], elements[k], heap)
    case Object(names, members) =>
      && item.Container? && item.id in heap && heap[item.id].DictOf?
      && |members| == |heap[item.id].values| && |names| == |heap[item.id].keys|
      && (forall k | 0 <= k < |names| :: heap[item.id].keys[k] == StringKey(names[k]))
      && forall k | 0 <= k < |members| :: Unfolds(heap[item.id].values[k], members[k], heap)
  }

  /** A finite tree of null, booleans, integers, finite numbers, strings, lists and string-keyed dicts. */
  ghost predicate IsTree(item: Item, heap: Heap) { exists tree :: Unfolds(item, tree, heap) }

  // ----- what the walk reports -----

  /** The first problem met from `item` down, below the containers `ancestors`. */
  ghost function Verdict(item: Item, heap: Heap, ancestors: set<nat>): Option<Error>
    requires Closed(heap) && Known(item, heap)
    decreases heap.Keys - ancestors, 1, 0
  {
    if IsScalar(item) then None
    else if !item.Container? then Some(NotJson)
    else if item.id in ancestors then Some(Cyclic)
    else
      assert item.id in heap.Keys - ancestors;
      BelowFrom(heap[item.id], 0, heap, ancestors + {item.id})
  }

  /** The first problem among the children from the `k`th on; a dict's key is checked before its value. */
  ghost function BelowFrom(c: Content, k: nat, heap: Heap, ancestors: set<nat>): Option<Error>
    requires Closed(heap) && WellFormed(c) && k <= |Children(c)|
    requires forall j | 0 <= j < |Children(c)| :: Known(Children(c)[j], heap)
    decreases heap.Keys - ancestors, 2, |Children(c)| - k
  {
    if k == |Children(c)| then None
    else if c.DictOf? && c.keys[k].OtherKey? then Some(KeyNotString)
    else
      var problem := Verdict(Children(c)[k], heap, ancestors);
      if problem.Some? then problem else BelowFrom(c, k + 1, heap, ancestors)
  }

  class Walk {
    const heap: Heap
    var ancestors: set<nat>

    constructor (heap: Heap)
      ensures this.heap == heap && ancestors == {}
    {
      this.heap, ancestors := heap, {};
    }

    /** Visit one value; whatever is found, the ancestors are restored on return. */
    method Visit(item: Item) returns (problem: Option<Error>)
      requires Closed(heap) && Known(item, heap)
      modifies this`ancestors
      ensures ancestors == old(ancestors)
      ensures problem == Verdict(item, heap, old(ancestors))
      decreases heap.Keys - ancestors
    {
      if IsScalar(item) { return None; }
      if !item.Container? { return Some(NotJson); }
      if item.id in ancestors { return Some(Cyclic); }
      ghost var before := ancestors;
      assert item.id in heap.Keys - before;
      ancestors := ancestors + {item.id};
      var c := heap[item.id];
      problem := None;
      var k := 0;
      while k < |Children(c)| && problem.None?
        invariant 0 <= k <= |Children(c)| && ancestors == before + {item.id}
        invariant BelowFrom(c, 0, heap, ancestors)
               == (if problem.Some? then problem else BelowFrom(c, k, heap, ancestors))
        decreases |Children(c)| - k, problem.None?
      {
        if c.DictOf? && c.keys[k].OtherKey? {
          problem := Some(KeyNotString);
        } else {
          problem := Visit(Children(c)[k]);
        }
        k := k + 1;
      }
      ancestors := ancestors - {item.id};
      assert before + {item.id} - {item.id} == before;
    }
  }

  /** Reject values without a JSON form, numbers that are not finite, and cycles. */
  method ValidateJsonValue(item: Item, heap: Heap) returns (problem: Option<Error>)
    requires Closed(heap) && Known(item, heap)
    ensures problem == Verdict(item, heap, {})
    ensures problem == None <==> IsTree(item, heap)
  {
    var walk := new Walk(heap);
    problem := walk.Visit(item);
    AcceptedIffTree(item, heap);
  }

  // ----- accepted values are trees -----

  /** An accepted container's tree, built from the trees of its children. */
  lemma {:induction false} AcceptedUnfolds(item: Item, heap: Heap, ancestors: set<nat>) returns (tree: Tree)
    requires Closed(heap) && Known(item, heap) && Verdict(item, heap, ancestors) == None
    ensures Unfolds(item, tree, heap)
    decreases heap.Keys - ancestors, 1, 0
  {
    if IsScalar(item) {
      tree := Scalar(item);
    } else {
      assert item.id in heap.Keys - ancestors;
      var c := heap[item.id];
      var names, trees := ChildrenUnfold(c, 0, heap, ancestors + {item.id});
      tree := if c.ListOf? then Array(trees) else Object(names, trees);
    }
  }

  lemma {:induction false} ChildrenUnfold(c: Content, k: nat, heap: Heap, ancestors: set<nat>)
    returns (names: seq<string>, trees: seq<Tree>)
    requires Closed(heap) && WellFormed(c) && k <= |Children(c)|
    requires forall j | 0 <= j < |Children(c)| :: Known(Children(c)[j], heap)
    requires BelowFrom(c, k, heap, ancestors) == None
    ensures |trees| == |Children(c)| - k
    ensures forall j | 0 <= j < |trees| :: Unfolds(Children(c)[k + j], trees[j], heap)
    ensures c.DictOf? ==> |names| == |trees| && forall j | 0 <= j < |names| :: c.keys[k + j] == StringKey(names[j])
    decreases heap.Keys - ancestors, 2, |Children(c)| - k
  {
    if k == |Children(c)| {
      names, trees := [], [];
    } else {
      var tree := AcceptedUnfolds(Children(c)[k], heap, ancestors);
      names, trees := ChildrenUnfold(c, k + 1, heap, ancestors);
      trees := [tree] + trees;
      if c.DictOf? { names := [c.keys[k].name] + names; }
    }
  }

  // ----- trees are accepted -----

  function Size(tree: Tree): nat
    decreases tree, 0
  {
    match tree
    case Scalar(_) => 1
    case Array(elements) => 1 + Sizes(elements)
    case Object(_, members) => 1 + Sizes(members)
  }

  function Sizes(trees: seq<Tree>): nat
    decreases trees, 1
  {
    if |trees| == 0 then 0 else Size(trees[0]) + Sizes(trees[1..])
  }

  lemma {:induction false} ChildIsSmaller(trees: seq<Tree>, k: nat)
    requires k < |trees|
    ensures Size(trees[k]) <= Sizes(trees)
  {
    if k > 0 { ChildIsSmaller(trees[1..], k - 1); }
  }

  /** A graph unfolds to at most one tree. */
  lemma {:induction false} UnfoldsOnce(item: Item, a: Tree, b: Tree, heap: Heap)
    requires Unfolds(item, a, heap) && Unfolds(item, b, heap)
    ensures a == b
    decreases a
  {
    match a
    case Scalar(_) =>
    case Array(elements) =>
      forall k | 0 <= k < |elements| ensures elements[k] == b.elements[k] {
        UnfoldsOnce(heap[item.id].items[k], elements[k], b.elements[k], heap);
      }
    case Object(names, members) =>
      forall k | 0 <= k < |members| ensures members[k] == b.members[k] {
        UnfoldsOnce(heap[item.id].values[k], members[k], b.members[k], heap);
      }
      assert forall k | 0 <= k < |names| :: names[k] == b.names[k];
  }

  /** Every ancestor unfolds only to trees larger than `size`, so none of them can be met again. */
  ghost predicate Above(ancestors: set<nat>, size: nat, heap: Heap) {
    forall a, tree | a in ancestors && Unfolds(Container(a), tree, heap) :: Size(tree) > size
  }

  function Subtrees(tree: Tree): seq<Tree> {
    match tree
    case Scalar(_) => []
    case Array(elements) => elements
    case Object(_, members) => members
  }

  lemma {:induction false} TreesAreAccepted(item: Item, tree: Tree, heap: Heap, ancestors: set<nat>)
    requires Closed(heap) && Known(item, heap) && Unfolds(item, tree, heap)
    requires Above(ancestors, Size(tree), heap)
    ensures Verdict(item, heap, ancestors) == None
    decreases tree, 1, 0
  {
    if !tree.Scalar? {
      assert item == Container(item.id);
      forall other | Unfolds(item, other, heap) ensures other == tree { UnfoldsOnce(item, other, tree, heap); }
      assert Above(ancestors + {item.id}, Size(tree) - 1, heap);
      ChildrenAreAccepted(heap[item.id], 0, tree, heap, ancestors + {item.id});
    }
  }

  lemma {:induction false} ChildrenAreAccepted(c: Content, k: nat, tree: Tree, heap: Heap, ancestors: set<nat>)
    requires Closed(heap) && WellFormed(c)
    requires forall j | 0 <= j < |Children(c)| :: Known(Children(c)[j], heap)
    requires k <= |Children(c)| == |Subtrees(tree)|
    requires forall j | 0 <= j < |Children(c)| :: Unfolds(Children(c)[j], Subtrees(tree)[j], heap)
    requires c.DictOf? ==> forall j | 0 <= j < |c.keys| :: c.keys[j].StringKey?
    requires !tree.Scalar? && Above(ancestors, Size(tree) - 1, heap)
    ensures BelowFrom(c, k, heap, ancestors) == None
    decreases tree, 0, |Children(c)| - k
  {
    if k < |Children(c)| {
      ChildIsSmaller(Subtrees(tree), k);
      TreesAreAccepted(Children(c)[k], Subtrees(tree)[k], heap, ancestors);
      ChildrenAreAccepted(c, k + 1, tree, heap, ancestors);
    }
  }

  /** The walk accepts exactly the values that unfold to a finite tree of JSON values: shared containers
      are fine, cycles and anything else are not. */
  lemma AcceptedIffTree(item: Item, heap: Heap)
    requires Closed(heap) && Known(item, heap)
    ensures Verdict(item, heap, {}) == None <==> IsTree(item, heap)
  {
    if Verdict(item, heap, {}) == None {
      var tree := AcceptedUnfolds(item, heap, {});
    }
    if IsTree(item, heap) {
      var tree :| Unfolds(item, tree, heap);
      TreesAreAccepted(item, tree, heap, {});
    }
  }

  // ----- a reported cycle is one -----

  ghost predicate Links(heap: Heap, a: nat, b: nat) { a in heap && Container(b) in Children(heap[a]) }

  /** Containers each of which holds the next one. */
  ghost predicate Path(heap: Heap, path: seq<nat>) {
    forall k | 0 <= k < |path| - 1 :: Links(heap, path[k], path[k + 1])
  }

  function Members(path: seq<nat>): set<nat> { set id | id in path }

  /** When the walk says cyclic, some container can be reached from itself. */
  lemma {:induction false} CyclicIsCycle(item: Item, heap: Heap, trail: seq<nat>) returns (cycle: seq<nat>)
    requires Closed(heap) && Known(item, heap) && Path(heap, trail)
    requires trail != [] && item.Container? ==> Links(heap, trail[|trail| - 1], item.id)
    requires Verdict(item, heap, Members(trail)) == Some(Cyclic)
    ensures |cycle| > 1 && cycle[0] == cycle[|cycle| - 1] && Path(heap, cycle)
    decreases heap.Keys - Members(trail), 1, 0
  {
    if item.id in Members(trail) {
      var k :| 0 <= k < |trail| && trail[k] == item.id;
      cycle := trail[k..] + [item.id];
    } else {
      var longer := trail + [item.id];
      assert Members(longer) == Members(trail) + {item.id};
      assert item.id in heap.Keys - Members(trail);
      cycle := CycleBelow(heap[item.id], 0, heap, longer);
    }
  }

  lemma {:induction false} CycleBelow(c: Content, k: nat, heap: Heap, trail: seq<nat>) returns (cycle: seq<nat>)
    requires Closed(heap) && Path(heap, trail) && trail != [] && trail[|trail| - 1] in heap
    requires c == heap[trail[|trail| - 1]] && k <= |Children(c)|
    requires BelowFrom(c, k, heap, Members(trail)) == Some(Cyclic)
    ensures |cycle| > 1 && cycle[0] == cycle[|cycle| - 1] && Path(heap, cycle)
    decreases heap.Keys - Members(trail), 2, |Children(c)| - k
  {
    var child := Children(c)[k];
    if Verdict(child, heap, Members(trail)) == Some(Cyclic) {
      assert child in Children(c);
      cycle := CyclicIsCycle(child, heap, trail);
    } else {
      cycle := CycleBelow(c, k + 1, heap, trail);
    }
  }

  // ----- an accepted value reaches no cycle -----

  lemma LinkShrinks(heap: Heap, a: nat, b: nat, tree: Tree) returns (smaller: Tree)
    requires Links(heap, a, b) && Unfolds(Container(a), tree, heap)
    ensures Unfolds(Container(b), smaller, heap) && Size(smaller) < Size(tree)
  {
    var k :| 0 <= k < |Children(heap[a])| && Children(heap[a])[k] == Container(b);
    smaller := Subtrees(tree)[k];
    ChildIsSmaller(Subtrees(tree), k);
  }

  /** Along a path the trees get smaller. */
  lemma {:induction false} PathShrinks(heap: Heap, path: seq<nat>, tree: Tree) returns (smaller: Tree)
    requires Path(heap, path) && path != [] && Unfolds(Container(path[0]), tree, heap)
    ensures Unfolds(Container(path[|path| - 1]), smaller, heap)
    ensures if |path| > 1 then Size(smaller) < Size(tree) else smaller == tree
    decreases |path|
  {
    smaller := tree;
    if |path| > 1 {
      var init := path[..|path| - 1];
      assert forall k | 0 <= k < |init| :: init[k] == path[k];
      var before := PathShrinks(heap, init, tree);
      assert Links(heap, path[|path| - 2], path[|path| - 1]);
      smaller := LinkShrinks(heap, path[|path| - 2], path[|path| - 1], before);
    }
  }

  /** A value from which some container can be reached twice along one path is rejected: an accepted value
      is on no cycle, and reaches none. */
  lemma {:induction false} CycleIsRejected(item: Item, heap: Heap, path: seq<nat>, i: nat, j: nat)
    requires Closed(heap) && Known(item, heap) && Path(heap, path)
    requires i < j < |path| && path[i] == path[j] && item == Container(path[0])
    ensures Verdict(item, heap, {}) != None
  {
    if IsTree(item, heap) {
      var tree :| Unfolds(item, tree, heap);
      var first := PathShrinks(heap, path[..i + 1], tree);
      var again := PathShrinks(heap, path[i..j + 1], first);
      UnfoldsOnce(Container(path[i]), first, again, heap);
    }
    AcceptedIffTree(item, heap);
  }
}
