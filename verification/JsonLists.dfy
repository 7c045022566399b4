/**
Editing sibling lists in place, references, and cJSON_Delete.
*/
module JsonLists {
  import opened CStrings
  import opened JsonText
  import opened JsonNodes

  // ----- deleting -----------------------------------------------------------------------------

  // What cJSON_Delete follows: only `next`.
  ghost predicate Nexts(head: Node?, nodes: seq<Node>)
    reads (set n: Node | n in nodes)`next
  {
    head == NodeAt(nodes, 0) && forall k :: 0 <= k < |nodes| ==> nodes[k].next == NodeAt(nodes, k + 1)
  }

  lemma {:induction false} ChainIsNexts(head: Node?, nodes: seq<Node>)
    requires Chain(head, nodes)
    ensures Nexts(head, nodes)
  {
    forall k | 0 <= k < |nodes| ensures nodes[k].next == NodeAt(nodes, k + 1) {
      assert LinkAt(nodes, k);
    }
  }

  lemma {:induction false} OwnedSplit(kids: seq<Shape>, i: nat)
    requires i < |kids| && Forest(kids)
    ensures OwnedOf(kids[..i + 1]) == OwnedOf(kids[..i]) + Owned(kids[i])
    ensures Owned(kids[i]) !! OwnedOf(kids[..i]) && Owned(kids[i]) <= OwnedOf(kids) && Tree(kids[i])
  {
    hide Owned, Tree;
    forall k | k in kids[..i] ensures Owned(k) !! Owned(kids[i]) {
      var j :| 0 <= j < i && kids[j] == k;
    }
    assert forall k :: k in kids[..i + 1] <==> k in kids[..i] || k == kids[i];
  }

  lemma {:induction false} OwnedWhole(kids: seq<Shape>)
    ensures OwnedOf(kids[..|kids|]) == OwnedOf(kids) && OwnedOf(kids[..0]) == {}
  {
    assert kids[..|kids|] == kids;
  }

  lemma {:induction false} OwnedParts(sh: Shape)
    requires Tree(sh)
    ensures sh.node in Owned(sh) && Opt(sh.name) <= Owned(sh)
    ensures !sh.reference ==> Opt(sh.text) <= Owned(sh) && OwnedOf(sh.kids) <= Owned(sh) && Forest(sh.kids)
    ensures !sh.reference ==> sh.node !in OwnedOf(sh.kids) && (Opt(sh.name) + Opt(sh.text)) !! OwnedOf(sh.kids)
    ensures !sh.reference ==> Owned(sh) == OwnedOf(sh.kids) + Opt(sh.text) + Opt(sh.name) + {sh.node}
    ensures !sh.reference && sh.name != null ==> sh.name != sh.text
    ensures sh.reference ==> Owned(sh) == Opt(sh.name) + {sh.node}
  {
    hide OwnedOf, Forest;
  }

  lemma {:induction false} MirrorParts(sh: Shape, deep: bool)
    requires Mirrors(sh, deep)
    ensures Fields(sh)
    ensures deep || !sh.reference ==> Chain(sh.node.child, Roots(sh.kids)) && AllMirror(sh.kids, deep)
  {
  }

  lemma {:induction false} MakeMirror(sh: Shape, deep: bool)
    requires Fields(sh)
    requires deep || !sh.reference ==> Chain(sh.node.child, Roots(sh.kids)) && AllMirror(sh.kids, deep)
    ensures Mirrors(sh, deep)
  {
  }

  // cJSON_Delete frees what the nodes from `c` on own, each object once, and touches nothing else.
  method Delete(heap: Heap, c: Node?, ghost kids: seq<Shape>)
    requires Forest(kids) && Nexts(c, Roots(kids)) && AllMirror(kids, false)
    requires OwnedOf(kids) <= heap.live
    modifies heap
    ensures heap.live == old(heap.live) - OwnedOf(kids)
    decreases kids, 1
  {
    hide OwnedOf, Owned, Forest, Tree, Mirrors, AllMirror, Chain;
    var c := c;
    ghost var i := 0;
    OwnedWhole(kids);
    assert allocated(NodesOf(kids, false));
    while c != null
      invariant 0 <= i <= |kids| && c == NodeAt(Roots(kids), i) && AllMirror(kids, false)
      invariant heap.live == old(heap.live) - OwnedOf(kids[..i])
      decreases |kids| - i
    {
      OwnedSplit(kids, i);
      OneMirror(kids, i, false);
      var next := c.next;
      DeleteOne(heap, c, kids[i]);
      c := next;
      i := i + 1;
    }
  }

  // The body of the loop: what one node owns, then the node.
  method DeleteOne(heap: Heap, c: Node, ghost sh: Shape)
    requires c == sh.node && Tree(sh) && Mirrors(sh, false) && Owned(sh) <= heap.live
    modifies heap
    ensures heap.live == old(heap.live) - Owned(sh)
    decreases sh, 0
  {
    hide OwnedOf, Owned, Forest, Tree, Mirrors, AllMirror, Chain;
    OwnedParts(sh);
    MirrorParts(sh, false);
    if !c.reference && c.child != null {
      ChainIsNexts(c.child, Roots(sh.kids));
      Delete(heap, c.child, sh.kids);
    } else if !c.reference {
      NoKids(sh);
    }
    assert heap.live == old(heap.live) - if sh.reference then {} else OwnedOf(sh.kids);
    if !c.reference && c.text != null {
      heap.Free(c.text);
    }
    assert heap.live == old(heap.live) - if sh.reference then {} else OwnedOf(sh.kids) + Opt(sh.text);
    if c.name != null {
      heap.Free(c.name);
    }
    heap.Free(c);
  }

  lemma {:induction false} NoKids(sh: Shape)
    requires Chain(sh.node.child, Roots(sh.kids)) && sh.node.child == null
    ensures sh.kids == [] && OwnedOf(sh.kids) == {}
  {
  }

  lemma {:induction false} OneMirror(kids: seq<Shape>, i: nat, deep: bool)
    requires i < |kids| && AllMirror(kids, deep)
    ensures Mirrors(kids[i], deep)
  {
  }

  // ----- references ---------------------------------------------------------------------------

  ghost function ReferenceTo(sh: Shape, node: Node): Shape {
    sh.(node := node, name := null, reference := true)
  }

  method CreateReference(heap: Heap, item: Node, ghost sh: Shape) returns (ref: Node)
    requires item == sh.node && Mirrors(sh, true) && item in heap.live
    modifies heap
    ensures fresh(ref) && heap.live == old(heap.live) + {ref} && ref.next == null && ref.prev == null
    ensures Mirrors(ReferenceTo(sh, ref), true) && Mirrors(sh, true)
    ensures Tree(ReferenceTo(sh, ref)) && Owned(ReferenceTo(sh, ref)) == {ref}
  {
    hide Mirrors, Nodes, NodesOf, Chain, Tree, Forest, OwnedOf, Owned;
    MirrorParts(sh, true);
    assert allocated(NodesOf(sh.kids, true));
    ref := new Node.Copy(item);
    heap.Malloc(ref);
    ref.name := null;
    ref.reference := true;
    ref.next, ref.prev := null, null;
    assert AllMirror(sh.kids, true) && Chain(item.child, Roots(sh.kids));
    MakeMirror(sh, true);
    MakeMirror(ReferenceTo(sh, ref), true);
    OwnReference(sh, ref);
  }

  lemma {:induction false} OwnReference(sh: Shape, node: Node)
    ensures Tree(ReferenceTo(sh, node)) && Owned(ReferenceTo(sh, node)) == {node}
  {
  }

  // A reference prints like the node it refers to.
  lemma {:induction false} ReferenceMeansSame(sh: Shape, node: Node)
    requires Named(sh)
    ensures Named(ReferenceTo(sh, node)) && ValueOf(ReferenceTo(sh, node)) == ValueOf(sh)
  {
  }

  // ----- appending ----------------------------------------------------------------------------

  // No node of the list is met again below it.
  ghost predicate Apart(list: Node, kids: seq<Shape>, deep: bool) {
    && list !in NodesOf(kids, deep)
    && (forall i, j :: 0 <= i < |kids| && 0 <= j < |kids| ==> kids[i].node !in Below(kids[j], deep))
    && (forall i, j :: 0 <= i < j < |kids| ==> kids[i].node != kids[j].node)
  }

  lemma {:induction false} MirrorEach(kids: seq<Shape>, deep: bool)
    ensures AllMirror(kids, deep) <==> forall k <- kids :: Mirrors(k, deep)
  {
  }

  method SuffixObject(prev: Node, item: Node)
    modifies prev`next, item`prev
    ensures prev.next == item && item.prev == prev
  {
    prev.next := item;
    item.prev := prev;
  }

  // What an edit of the children of `a` relies on; `kids` are the nodes that take part.
  lemma {:induction false} ListReady(a: Shape, kids: seq<Shape>, deep: bool)
    requires Mirrors(a, deep) && (deep || !a.reference) && Apart(a.node, kids, deep)
    requires forall k <- kids :: Mirrors(k, deep)
    ensures Fields(a) && Chain(a.node.child, Roots(a.kids)) && forall k <- a.kids :: Mirrors(k, deep)
    ensures forall k <- kids :: a.node != k.node && forall n <- Roots(kids) + [a.node] :: n !in Below(k, deep)
  {
    hide Below, NodesOf;
    MirrorParts(a, deep);
    MirrorEach(a.kids, deep);
    RootsBelow(kids, deep);
    assert forall k <- kids :: Nodes(k, deep) <= NodesOf(kids, deep);
  }

  lemma {:induction false} OneMore(kids: seq<Shape>, x: Shape, list: Node, deep: bool)
    requires Apart(list, kids + [x], deep)
    ensures x.node !in Roots(kids) && Roots(kids + [x]) == Roots(kids) + [x.node]
  {
    hide Below, NodesOf;
    var all := kids + [x];
    forall i | 0 <= i < |kids| ensures Roots(kids)[i] != x.node {
      assert all[i] == kids[i] && all[|kids|] == x;
    }
  }

  lemma {:induction false} AllDistinct(head: Node?, nodes: seq<Node>)
    requires Chain(head, nodes)
    ensures forall i, j :: 0 <= i < j < |nodes| ==> nodes[i] != nodes[j]
  {
    forall i: nat, j: nat | i < j < |nodes| ensures nodes[i] != nodes[j] {
      ChainDistinct(head, nodes, i, j);
    }
  }

  // The links cJSON_AddItemToArray makes.
  method Append(list: Node, item: Node, ghost nodes: seq<Node>)
    requires Chain(list.child, nodes) && item !in nodes && item.next == null && item.prev == null
    modifies list`child, item`prev, (set n: Node | n in nodes)`next
    ensures Chain(list.child, nodes + [item])
  {
    AllDistinct(list.child, nodes);
    var c := list.child;
    if c == null {
      list.child := item;
    } else {
      ghost var i := 0;
      while c != null && c.next != null
        invariant 0 <= i < |nodes| && c == nodes[i]
        decreases |nodes| - i
      {
        assert LinkAt(nodes, i);
        c := c.next;
        i := i + 1;
      }
      assert LinkAt(nodes, i);
      SuffixObject(c, item);
    }
    forall k: nat | k < |nodes| + 1 ensures LinkAt(nodes + [item], k) {
      if k < |nodes| {
        assert old(LinkAt(nodes, k));
      }
    }
  }

  // cJSON_AddItemToArray appends to the children.
  method AddItemToArray(ghost heap: Heap, list: Node, item: Node, ghost a: Shape, ghost x: Shape, ghost deep: bool)
    requires list == a.node && Mirrors(a, deep) && (deep || !a.reference)
    requires item == x.node && Mirrors(x, deep) && item.next == null && item.prev == null
    requires Apart(list, a.kids + [x], deep) && RowIsLive(a, heap.live) && item in heap.live
    modifies list`child, item`prev, (set n: Node | n in Roots(a.kids))`next
    ensures Mirrors(a.(kids := a.kids + [x]), deep)
  {
    hide Mirrors, AllMirror, Below, NodesOf, Nodes, Roots, Apart, Chain;
    ghost var kids := a.kids + [x];
    OneMore(a.kids, x, list, deep);
    AllMirrors(a, deep);
    ListReady(a, kids, deep);
    assert forall k <- kids :: allocated(Below(k, deep));
    Append(list, item, Roots(a.kids));
    forall k | k in kids ensures Mirrors(k, deep) {
      assert old(Mirrors(k, deep));
    }
    MirrorKids(a.(kids := kids), deep);
  }

  lemma {:induction false} AllMirrors(a: Shape, deep: bool)
    requires Mirrors(a, deep) && (deep || !a.reference)
    ensures forall k <- a.kids :: Mirrors(k, deep)
  {
    MirrorEach(a.kids, deep);
  }

  lemma {:induction false} MirrorKids(sh: Shape, deep: bool)
    requires Fields(sh) && Chain(sh.node.child, Roots(sh.kids)) && forall k <- sh.kids :: Mirrors(k, deep)
    ensures Mirrors(sh, deep)
  {
  }

  // ----- taking out and replacing by position -------------------------------------------------

  // The loops stop at once when `which` is not positive.
  ghost function Position(which: int): nat {
    if which > 0 then which else 0
  }

  ghost function Without<T>(s: seq<T>, k: nat): seq<T>
    requires k < |s|
  {
    s[..k] + s[k + 1..]
  }

  // `which` steps along the list, or to its end.
  method Walk(list: Node, which: int, ghost nodes: seq<Node>) returns (c: Node?)
    requires Chain(list.child, nodes)
    ensures c == NodeAt(nodes, Position(which))
  {
    c := list.child;
    var which := which;
    ghost var i, all := 0, Position(which);
    while c != null && which > 0
      invariant c == NodeAt(nodes, i) && 0 <= i <= |nodes| && i + Position(which) == all
      decreases |nodes| - i
    {
      assert LinkAt(nodes, i);
      c, which := c.next, which - 1;
      i := i + 1;
    }
  }

  // The links cJSON_DetachItemFromArray makes.
  method Unlink(list: Node, c: Node, ghost nodes: seq<Node>, ghost k: nat)
    requires Chain(list.child, nodes) && k < |nodes| && c == nodes[k]
    modifies list`child, (set n: Node | n in nodes)`next, (set n: Node | n in nodes)`prev
    ensures Chain(list.child, Without(nodes, k)) && c.next == null && c.prev == null
  {
    AllDistinct(list.child, nodes);
    assert LinkAt(nodes, k);
    if c.prev != null {
      c.prev.next := c.next;
    }
    if c.next != null {
      c.next.prev := c.prev;
    }
    if c == list.child {
      list.child := c.next;
    }
    c.prev, c.next := null, null;
    ghost var rest := Without(nodes, k);
    forall i: nat | i < |rest| ensures LinkAt(rest, i) {
      assert old(LinkAt(nodes, if i < k then i else i + 1));
    }
  }

  // The links cJSON_ReplaceItemInArray makes.
  method Relink(list: Node, c: Node, newItem: Node, ghost nodes: seq<Node>, ghost k: nat)
    requires Chain(list.child, nodes) && k < |nodes| && c == nodes[k] && newItem !in nodes
    modifies list`child, (set n: Node | n in nodes)`next, (set n: Node | n in nodes)`prev, newItem`next, newItem`prev
    ensures Chain(list.child, nodes[k := newItem]) && c.next == null && c.prev == null
  {
    AllDistinct(list.child, nodes);
    assert LinkAt(nodes, k);
    newItem.next := c.next;
    newItem.prev := c.prev;
    if newItem.next != null {
      newItem.next.prev := newItem;
    }
    if c == list.child {
      list.child := newItem;
    } else {
      assert k > 0;
      newItem.prev.next := newItem;
    }
    c.next, c.prev := null, null;
    ghost var all := nodes[k := newItem];
    forall i: nat | i < |all| ensures LinkAt(all, i) {
      assert old(LinkAt(nodes, i));
    }
  }

  // cJSON_DetachItemFromArray takes one child out and leaves it unlinked.
  method DetachItemFromArray(ghost heap: Heap, list: Node, which: int, ghost a: Shape, ghost deep: bool) returns (c: Node?)
    requires list == a.node && Mirrors(a, deep) && (deep || !a.reference) && Apart(list, a.kids, deep)
    requires RowIsLive(a, heap.live)
    modifies list`child, (set n: Node | n in Roots(a.kids))`next, (set n: Node | n in Roots(a.kids))`prev
    ensures c == NodeAt(Roots(a.kids), Position(which))
    ensures c == null ==> Mirrors(a, deep)
    ensures c != null ==>
              && Mirrors(a.(kids := Without(a.kids, Position(which))), deep) && Mirrors(a.kids[Position(which)], deep)
              && c.next == null && c.prev == null
  {
    hide Mirrors, AllMirror, Below, NodesOf, Nodes, Apart, Chain, Roots;
    AllMirrors(a, deep);
    ListReady(a, a.kids, deep);
    ghost var k, nodes := Position(which), Roots(a.kids);
    assert allocated(Below(a, deep)) && forall k <- a.kids :: allocated(Below(k, deep));
    c := Walk(list, which, nodes);
    if c == null {
      return null;
    }
    Unlink(list, c, nodes, k);
    forall x | x in a.kids ensures Mirrors(x, deep) {
      assert old(Mirrors(x, deep));
    }
    RootsWithout(a.kids, k);
    MirrorKids(a.(kids := Without(a.kids, k)), deep);
  }

  lemma {:induction false} RootsWithout(kids: seq<Shape>, k: nat)
    requires k < |kids|
    ensures Roots(Without(kids, k)) == Without(Roots(kids), k) && forall x <- Without(kids, k) :: x in kids
  {
  }

  // The new child in the place of the old one, which is left unlinked.
  method SwapItem(ghost heap: Heap, list: Node, which: int, newItem: Node, ghost a: Shape, ghost x: Shape, ghost deep: bool)
    returns (c: Node?)
    requires list == a.node && Mirrors(a, deep) && (deep || !a.reference)
    requires newItem == x.node && Mirrors(x, deep) && Apart(list, a.kids + [x], deep) && newItem in heap.live
    requires RowIsLive(a, heap.live)
    modifies list`child, newItem`next, newItem`prev
    modifies (set n: Node | n in Roots(a.kids))`next, (set n: Node | n in Roots(a.kids))`prev
    ensures c == NodeAt(Roots(a.kids), Position(which))
    ensures c == null ==> Mirrors(a, deep)
    ensures c != null ==>
              && Mirrors(a.(kids := a.kids[Position(which) := x]), deep) && Mirrors(a.kids[Position(which)], deep)
              && c.next == null && c.prev == null
  {
    hide Mirrors, AllMirror, Below, NodesOf, Nodes, Apart, Chain, Roots;
    ghost var kids, k, nodes := a.kids + [x], Position(which), Roots(a.kids);
    OneMore(a.kids, x, list, deep);
    AllMirrors(a, deep);
    ListReady(a, kids, deep);
    assert allocated(Below(a, deep)) && forall k <- kids :: allocated(Below(k, deep));
    c := Walk(list, which, nodes);
    if c == null {
      return;
    }
    Relink(list, c, newItem, nodes, k);
    forall y | y in kids ensures Mirrors(y, deep) {
      assert old(Mirrors(y, deep));
    }
    RootsReplaced(a.kids, k, x);
    MirrorKids(a.(kids := a.kids[k := x]), deep);
  }

  // cJSON_ReplaceItemInArray puts a new child in the place of one it deletes.
  method ReplaceItemInArray(heap: Heap, list: Node, which: int, newItem: Node, ghost a: Shape, ghost x: Shape, ghost deep: bool)
    requires list == a.node && Mirrors(a, deep) && (deep || !a.reference)
    requires newItem == x.node && Mirrors(x, deep) && Apart(list, a.kids + [x], deep) && newItem in heap.live
    requires Forest(a.kids) && OwnedOf(a.kids) <= heap.live && RowIsLive(a, heap.live)
    modifies heap, list`child, newItem`next, newItem`prev
    modifies (set n: Node | n in Roots(a.kids))`next, (set n: Node | n in Roots(a.kids))`prev
    ensures Position(which) >= |a.kids| ==> Mirrors(a, deep) && heap.live == old(heap.live)
    ensures Position(which) < |a.kids| ==>
              && Mirrors(a.(kids := a.kids[Position(which) := x]), deep)
              && heap.live == old(heap.live) - Owned(a.kids[Position(which)])
  {
    hide Mirrors, AllMirror, Below, NodesOf, Nodes, Apart, Chain, Roots, Owned, OwnedOf, Forest;
    var c := SwapItem(heap, list, which, newItem, a, x, deep);
    if c == null {
      return;
    }
    ghost var k := Position(which);
    JustOne(a.kids, k, deep);
    assert allocated(Below(a.(kids := a.kids[k := x]), deep));
    Delete(heap, c, [a.kids[k]]);
  }

  lemma {:induction false} RootsReplaced(kids: seq<Shape>, k: nat, x: Shape)
    requires k < |kids|
    ensures Roots(kids[k := x]) == Roots(kids)[k := x.node] && forall y <- kids[k := x] :: y in kids + [x]
  {
  }

  lemma {:induction false} JustOne(kids: seq<Shape>, k: nat, deep: bool)
    requires k < |kids| && Forest(kids) && Mirrors(kids[k], deep)
    ensures Forest([kids[k]]) && OwnedOf([kids[k]]) == Owned(kids[k]) <= OwnedOf(kids)
    ensures AllMirror([kids[k]], false) && Roots([kids[k]]) == [kids[k].node]
  {
    var x := kids[k];
    assert x in kids && Tree(x);
    if deep {
      DeepIsEnough(x);
    }
    hide *;
    Alone(x);
    assert Owned(x) <= OwnedOf(kids);
  }

  lemma {:induction false} Alone(x: Shape)
    ensures OwnedOf([x]) == Owned(x) && (Tree(x) ==> Forest([x])) && (Mirrors(x, false) ==> AllMirror([x], false))
    ensures Roots([x]) == [x.node]
  {
    hide Owned, Tree, Mirrors;
    assert forall y :: y in [x] <==> y == x;
  }

  // cJSON_DeleteItemFromArray
  method DeleteItemFromArray(heap: Heap, list: Node, which: int, ghost a: Shape, ghost deep: bool)
    requires list == a.node && Mirrors(a, deep) && (deep || !a.reference) && Apart(list, a.kids, deep)
    requires Forest(a.kids) && OwnedOf(a.kids) <= heap.live && RowIsLive(a, heap.live)
    modifies heap, list`child, (set n: Node | n in Roots(a.kids))`next, (set n: Node | n in Roots(a.kids))`prev
    ensures Position(which) >= |a.kids| ==> Mirrors(a, deep) && heap.live == old(heap.live)
    ensures Position(which) < |a.kids| ==>
              && Mirrors(a.(kids := Without(a.kids, Position(which))), deep)
              && heap.live == old(heap.live) - Owned(a.kids[Position(which)])
  {
    hide Mirrors, AllMirror, Below, NodesOf, Nodes, Apart, Chain, Roots, Owned, OwnedOf, Forest;
    var c := DetachItemFromArray(heap, list, which, a, deep);
    if c == null {
      NoForest();
      assert allocated(Below(a, deep));
      Delete(heap, null, []);
    } else {
      JustOne(a.kids, Position(which), deep);
      assert allocated(Below(a.(kids := Without(a.kids, Position(which))), deep));
      Delete(heap, c, [a.kids[Position(which)]]);
    }
  }

  lemma {:induction false} NoForest()
    ensures Forest([]) && OwnedOf([]) == {} && AllMirror([], false) && Roots([]) == []
  {
  }
}
