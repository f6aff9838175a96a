/** Which problem the walk reports: the first one in the order in which the payload is written. */
module JsonProblems {
  import opened Wrappers

  import opened JsonValues

  /** A place in a payload: the positions to take from container to container. */
  type Address = seq<nat>

  /** What is wrong at one place, met below the containers `ancestors`, if the place exists: the key it has
      in its dict, or the value that is there. */
  ghost function ProblemAt(item: Item, heap: Heap, ancestors: set<nat>, a: Address): Option<Error>
    requires Closed(heap) && Known(item, heap)
    decreases |a|
  {
    if a == [] then
      match item
      case Alien => Some(NotJson)
      case Float(_, finite) => if finite then None else Some(NotJson)
      case Container(id) => if id in ancestors then Some(Cyclic) else None
      case _ => None
    else if !item.Container? || a[0] >= |Children(heap[item.id])| then None
    else
      var c := heap[item.id];
      if |a| == 1 && c.DictOf? && c.keys[a[0]] == OtherKey then Some(KeyNotString)
      else ProblemAt(Children(c)[a[0]], heap, ancestors + {item.id}, a[1..])
  }

  /** A container comes before what it holds, and its children come in order. */
  predicate Before(a: Address, b: Address) {
    if a == [] || b == [] then a == [] && b != []
    else a[0] < b[0] || (a[0] == b[0] && Before(a[1..], b[1..]))
  }

  /** The problem at `a`, with none before it. */
  ghost predicate IsFirst(item: Item, heap: Heap, ancestors: set<nat>, a: Address, problem: Error)
    requires Closed(heap) && Known(item, heap)
  {
    && ProblemAt(item, heap, ancestors, a) == Some(problem)
    && forall b | Before(b, a) :: ProblemAt(item, heap, ancestors, b) == None
  }

  ghost predicate IsClean(item: Item, heap: Heap, ancestors: set<nat>)
    requires Closed(heap) && Known(item, heap)
  {
    forall a :: ProblemAt(item, heap, ancestors, a) == None
  }

  /** Where the problem lies, if there is one: it is the first. */
  lemma {:induction false} VerdictIsFirst(item: Item, heap: Heap, ancestors: set<nat>) returns (a: Address)
    requires Closed(heap) && Known(item, heap)
    ensures match Verdict(item, heap, ancestors)
            case None => IsClean(item, heap, ancestors)
            case Some(problem) => IsFirst(item, heap, ancestors, a, problem)
    decreases heap.Keys - ancestors, 1, 0
  {
    a := [];
    if item.Container? && item.id !in ancestors {
      assert item.id in heap.Keys - ancestors;
      a := ChildrenFirst(item, 0, heap, ancestors);
      assert ProblemAt(item, heap, ancestors, []) == None;
    }
  }

  /** The same below a container, from its `k`th child on. */
  lemma {:induction false} ChildrenFirst(item: Item, k: nat, heap: Heap, ancestors: set<nat>) returns (a: Address)
    requires Closed(heap) && Known(item, heap) && item.Container? && item.id !in ancestors
    requires k <= |Children(heap[item.id])|
    ensures match BelowFrom(heap[item.id], k, heap, ancestors + {item.id})
            case None => forall b | b != [] && b[0] >= k :: ProblemAt(item, heap, ancestors, b) == None
            case Some(problem) =>
              && a != [] && a[0] >= k && ProblemAt(item, heap, ancestors, a) == Some(problem)
              && forall b | b != [] && b[0] >= k && Before(b, a) :: ProblemAt(item, heap, ancestors, b) == None
    decreases heap.Keys - ancestors, 0, |Children(heap[item.id])| - k
  {
    var c := heap[item.id];
    a := [];
    if k < |Children(c)| {
      if c.DictOf? && c.keys[k].OtherKey? {
        a := [k];
      } else {
        var child := Children(c)[k];
        var inner := VerdictIsFirst(child, heap, ancestors + {item.id});
        if Verdict(child, heap, ancestors + {item.id}) == None {
          a := ChildrenFirst(item, k + 1, heap, ancestors);
        } else {
          a := [k] + inner;
          assert a[1..] == inner;
        }
      }
    }
  }

  lemma {:induction false} OneIsBefore(a: Address, b: Address)
    ensures a == b || Before(a, b) || Before(b, a)
  {
    if a != [] && b != [] && a[0] == b[0] {
      OneIsBefore(a[1..], b[1..]);
      assert a == [a[0]] + a[1..] && b == [b[0]] + b[1..];
    }
  }

  /** The walk reports a problem exactly when it is that of the first place with one. */
  lemma ReportIsFirstProblem(item: Item, heap: Heap, problem: Error)
    requires Closed(heap) && Known(item, heap)
    ensures Verdict(item, heap, {}) == Some(problem) <==> exists a :: IsFirst(item, heap, {}, a, problem)
  {
    hide ProblemAt, Before;
    var found := VerdictIsFirst(item, heap, {});
    if a :| IsFirst(item, heap, {}, a, problem) {
      OneIsBefore(a, found);
    }
  }
}
