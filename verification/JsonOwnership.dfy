/**
What a tree owns, said by paths, and what edits do to it.
*/
module JsonOwnership {
  import opened CStrings
  import opened JsonText
  import opened JsonNodes
  import opened JsonLists
  import opened JsonNames

  // ----- paths --------------------------------------------------------------------------------

  // A way down from the root that passes through no reference.
  ghost predicate OwnPath(sh: Shape, p: seq<nat>)
    decreases |p|
  {
    p == [] || (!sh.reference && p[0] < |sh.kids| && OwnPath(sh.kids[p[0]], p[1..]))
  }

  ghost function AtPath(sh: Shape, p: seq<nat>): Shape
    requires OwnPath(sh, p)
    decreases |p|
  {
    if p == [] then sh else AtPath(sh.kids[p[0]], p[1..])
  }

  // What a node holds for itself.
  ghost function Part(sh: Shape): set<object> {
    {sh.node} + Opt(sh.name) + (if sh.reference then {} else Opt(sh.text))
  }

  ghost predicate PartAt(sh: Shape, p: seq<nat>, o: object) {
    OwnPath(sh, p) && o in Part(AtPath(sh, p))
  }

  lemma {:induction false} OwnedIs(sh: Shape, o: object)
    ensures o in Owned(sh) <==> o in Part(sh) || (!sh.reference && exists i :: 0 <= i < |sh.kids| && o in Owned(sh.kids[i]))
  {
    hide Owned;
    OwnedUnfold(sh);
  }

  lemma {:induction false} OwnedUnfold(sh: Shape)
    ensures Owned(sh) == Part(sh) + if sh.reference then {} else OwnedOf(sh.kids)
  {
    hide OwnedOf;
  }

  lemma {:induction false} PathOwns(sh: Shape, p: seq<nat>, o: object)
    requires PartAt(sh, p, o)
    ensures o in Owned(sh)
    decreases |p|
  {
    OwnedIs(sh, o);
    hide Owned, Part;
    if p != [] {
      PathOwns(sh.kids[p[0]], p[1..], o);
    }
  }

  lemma {:induction false} OwnedHasPath(sh: Shape, o: object) returns (p: seq<nat>)
    requires o in Owned(sh)
    ensures PartAt(sh, p, o)
    decreases sh
  {
    OwnedIs(sh, o);
    hide Owned, Part;
    if o in Part(sh) {
      p := [];
    } else {
      var i :| 0 <= i < |sh.kids| && o in Owned(sh.kids[i]);
      var rest := OwnedHasPath(sh.kids[i], o);
      p := [i] + rest;
      assert p[1..] == rest;
    }
  }

  // cJSON_Delete frees just what is reached without passing through a reference.
  lemma {:induction false} OwnedIsReached(sh: Shape, o: object)
    ensures o in Owned(sh) <==> exists p :: PartAt(sh, p, o)
  {
    hide Owned, PartAt;
    if o in Owned(sh) {
      var p := OwnedHasPath(sh, o);
    }
    forall p | PartAt(sh, p, o) ensures o in Owned(sh) {
      PathOwns(sh, p, o);
    }
  }

  lemma {:induction false} TreeKids(sh: Shape, i: nat, o: object)
    requires Tree(sh) && !sh.reference && i < |sh.kids| && o in Owned(sh.kids[i])
    ensures Tree(sh.kids[i]) && o !in Part(sh)
    ensures forall j :: 0 <= j < |sh.kids| && j != i ==> o !in Owned(sh.kids[j])
  {
    hide *;
    TreeIs(sh);
    assert sh.kids[i] in sh.kids && Owned(sh.kids[i]) <= OwnedOf(sh.kids);
    ForestTree(sh.kids, i);
    forall j: nat | j < |sh.kids| && j != i ensures o !in Owned(sh.kids[j]) {
      ForestPair(sh.kids, i, j, o);
    }
  }

  lemma {:induction false} ForestTree(kids: seq<Shape>, i: nat)
    requires Forest(kids) && i < |kids|
    ensures Tree(kids[i])
  {
  }

  lemma {:induction false} ForestPair(kids: seq<Shape>, i: nat, j: nat, o: object)
    requires Forest(kids) && i < |kids| && j < |kids| && i != j && o in Owned(kids[i])
    ensures o !in Owned(kids[j])
  {
    hide Owned, Tree;
    assert Owned(kids[if i < j then i else j]) !! Owned(kids[if i < j then j else i]);
  }

  // ... and each of it once: by one path only.
  lemma {:induction false} ReachedOnce(sh: Shape, p: seq<nat>, q: seq<nat>, o: object)
    requires Tree(sh) && PartAt(sh, p, o) && PartAt(sh, q, o)
    ensures p == q
    decreases |p|
  {
    hide Owned, Part, Tree, OwnedOf;
    if p != [] {
      PathOwns(sh.kids[p[0]], p[1..], o);
      TreeKids(sh, p[0], o);
      assert q != [];
      PathOwns(sh.kids[q[0]], q[1..], o);
      assert q[0] == p[0];
      ReachedOnce(sh.kids[p[0]], p[1..], q[1..], o);
      assert p == [p[0]] + p[1..] && q == [q[0]] + q[1..];
    } else if q != [] {
      PathOwns(sh.kids[q[0]], q[1..], o);
      TreeKids(sh, q[0], o);
    }
  }

  // ----- edits --------------------------------------------------------------------------------

  lemma {:induction false} MakeTree(sh: Shape)
    requires !sh.reference && Forest(sh.kids) && Part(sh) !! OwnedOf(sh.kids) && (sh.name != null ==> sh.name != sh.text)
    ensures Tree(sh)
  {
    hide OwnedOf, Forest;
  }

  lemma {:induction false} TreeIs(sh: Shape)
    requires Tree(sh) && !sh.reference
    ensures Forest(sh.kids) && Part(sh) !! OwnedOf(sh.kids) && (sh.name != null ==> sh.name != sh.text)
  {
    hide OwnedOf, Forest;
  }

  lemma {:induction false} ForestMore(kids: seq<Shape>, x: Shape)
    requires Forest(kids) && Tree(x) && OwnedOf(kids) !! Owned(x)
    ensures Forest(kids + [x]) && OwnedOf(kids + [x]) == OwnedOf(kids) + Owned(x)
  {
    hide Owned, Tree;
    var all := kids + [x];
    assert forall k :: k in all <==> k in kids || k == x;
    assert forall k <- kids :: Owned(k) <= OwnedOf(kids);
  }

  // Appending hands over what the new child owns.
  lemma {:induction false} AppendOwns(a: Shape, x: Shape)
    requires Tree(a) && !a.reference && Tree(x) && Owned(a) !! Owned(x)
    ensures var b := a.(kids := a.kids + [x]); Tree(b) && Owned(b) == Owned(a) + Owned(x)
  {
    hide Tree, Forest, OwnedOf, Owned, Part;
    var b := a.(kids := a.kids + [x]);
    TreeIs(a);
    OwnedUnfold(a);
    OwnedUnfold(b);
    ForestMore(a.kids, x);
    SamePart(a, b);
    MakeTree(b);
  }

  lemma {:induction false} SamePart(a: Shape, b: Shape)
    requires a.node == b.node && a.name == b.name && a.text == b.text && a.reference == b.reference
    ensures Part(a) == Part(b)
  {
  }

  lemma {:induction false} ForestWithout(kids: seq<Shape>, k: nat)
    requires Forest(kids) && k < |kids|
    ensures Forest(Without(kids, k)) && Tree(kids[k]) && OwnedOf(kids) == OwnedOf(Without(kids, k)) + Owned(kids[k])
    ensures OwnedOf(Without(kids, k)) !! Owned(kids[k])
  {
    hide Owned, Tree;
    var rest := Without(kids, k);
    assert forall i :: 0 <= i < |rest| ==> rest[i] == kids[if i < k then i else i + 1];
    assert forall x <- kids :: x == kids[k] || x in rest by {
      forall i | 0 <= i < |kids| && i != k ensures kids[i] in rest {
        assert kids[i] == rest[if i < k then i else i - 1];
      }
    }
  }

  // Detaching gives the child back with all it owns, and nothing is lost.
  lemma {:induction false} DetachOwns(a: Shape, k: nat)
    requires Tree(a) && !a.reference && k < |a.kids|
    ensures var b := a.(kids := Without(a.kids, k));
            Tree(b) && Tree(a.kids[k]) && Owned(b) !! Owned(a.kids[k]) && Owned(a) == Owned(b) + Owned(a.kids[k])
  {
    hide Tree, Forest, OwnedOf, Owned, Part;
    var b := a.(kids := Without(a.kids, k));
    TreeIs(a);
    OwnedUnfold(a);
    OwnedUnfold(b);
    ForestWithout(a.kids, k);
    SamePart(a, b);
    MakeTree(b);
  }

  lemma {:induction false} ReplaceIsSwap(kids: seq<Shape>, k: nat, x: Shape)
    requires Forest(kids) && k < |kids| && Tree(x) && Owned(x) !! OwnedOf(kids)
    ensures Forest(kids[k := x]) && OwnedOf(kids[k := x]) == OwnedOf(kids) - Owned(kids[k]) + Owned(x)
  {
    hide *;
    ForestWithout(kids, k);
    SwapOwns(kids, k, x);
    assert OwnedOf(Without(kids, k)) <= OwnedOf(kids);
    SwapForest(kids, k, x);
  }

  lemma {:induction false} SwapOwns(kids: seq<Shape>, k: nat, x: Shape)
    requires k < |kids|
    ensures OwnedOf(kids[k := x]) == OwnedOf(Without(kids, k)) + Owned(x)
  {
    hide Owned;
    var rest, all := Without(kids, k), kids[k := x];
    assert forall i :: 0 <= i < |all| && i != k ==> all[i] == rest[if i < k then i else i - 1];
    assert forall i :: 0 <= i < |rest| ==> rest[i] == all[if i < k then i else i + 1];
    assert all[k] == x;
    assert forall y :: y in all <==> y == x || y in rest;
  }

  lemma {:induction false} SwapForest(kids: seq<Shape>, k: nat, x: Shape)
    requires Forest(kids) && k < |kids| && Tree(x) && Owned(x) !! OwnedOf(kids)
    ensures Forest(kids[k := x])
  {
    hide Owned, Tree, OwnedOf;
    assert forall y <- kids :: Owned(y) <= OwnedOf(kids);
    assert forall y <- kids[k := x] :: y == x || y in kids;
  }

  // Replacing takes the new child over and gives up just what the old one owned.
  lemma {:induction false} ReplaceOwns(a: Shape, k: nat, x: Shape)
    requires Tree(a) && !a.reference && k < |a.kids| && Tree(x) && Owned(x) !! Owned(a)
    ensures var b := a.(kids := a.kids[k := x]); Tree(b) && Owned(b) == Owned(a) - Owned(a.kids[k]) + Owned(x)
  {
    hide Tree, Forest, OwnedOf, Owned, Part;
    var b := a.(kids := a.kids[k := x]);
    TreeIs(a);
    OwnedUnfold(a);
    OwnedUnfold(b);
    assert Owned(a.kids[k]) <= OwnedOf(a.kids);
    ReplaceIsSwap(a.kids, k, x);
    SamePart(a, b);
    MakeTree(b);
  }

  // What cJSON_ReplaceItemInObject leaves allocated with no owner: `rest` is what belongs to anybody
  // else, `after` the allocations when it returns.  That is the name the new item came with, so
  // nothing is lost exactly when it came without one.
  lemma {:induction false} ReplaceLeaks(a: Shape, k: nat, x: Shape, name: Chars, rest: set<object>,
                                        before: set<object>, after: set<object>)
    requires Tree(a) && !a.reference && k < |a.kids| && Tree(x) && Owned(x) !! Owned(a)
    requires rest !! Owned(a) + Owned(x) && before == Owned(a) + Owned(x) + rest
    requires name !in before && name != x.text && after == before + {name} - Owned(a.kids[k])
    ensures var b := a.(kids := a.kids[k := x.(name := name)]);
            && Tree(b) && Owned(b) + rest <= after
            && after - Owned(b) - rest == Opt(x.name)
            && (after - Owned(b) - rest == {} <==> x.name == null)
  {
    hide *;
    var y := x.(name := name);
    var b := a.(kids := a.kids[k := y]);
    OwnedUnfold(a);
    RenamedTree(x, name);
    assert a.kids[k] in a.kids && Owned(a.kids[k]) <= OwnedOf(a.kids);
    ReplaceOwns(a, k, y);
    NameOwned(x);
    LostIs(Owned(a), Owned(a.kids[k]), Owned(x), Opt(x.name), name, rest, before, after, Owned(b));
  }

  lemma {:induction false} LostIs(a: set<object>, gone: set<object>, x: set<object>, lost: set<object>, name: object,
                                  rest: set<object>, before: set<object>, after: set<object>, b: set<object>)
    requires a !! x && rest !! a + x && before == a + x + rest && gone <= a && lost <= x && name !in before
    requires after == before + {name} - gone && b == a - gone + (x - lost + {name})
    ensures b + rest <= after && after - b - rest == lost
  {
    assert forall o :: o in after - b - rest <==> o in lost;
  }

  ghost function Bare(node: Node, kind: Kind, name: Chars?): Shape {
    Shape(node, kind, false, null, name, 0, 0, [])
  }

  lemma {:induction false} BareIs(node: Node, kind: Kind, name: Chars?)
    requires Fields(Bare(node, kind, name)) && node.child == null
    ensures var sh := Bare(node, kind, name);
            Mirrors(sh, false) && Tree(sh) && Owned(sh) == {node} + Opt(name) && Below(sh, false) == {}
  {
  }

  // An allocated node of the given kind, nothing else in it.
  method NewNode(heap: Heap, kind: Kind) returns (node: Node)
    modifies heap
    ensures fresh(node) && node.next == null && node.prev == null && heap.live == old(heap.live) + {node}
    ensures var sh := Bare(node, kind, null);
            Mirrors(sh, false) && Tree(sh) && Owned(sh) == {node} && Below(sh, false) == {}
  {
    node := new Node();
    node.kind := kind;
    heap.Malloc(node);
    BareIs(node, kind, null);
  }

  const OLD_NAME: CString := "a"

  // An object with one child, named "a".
  method OneNamed(heap: Heap) returns (owner: Node, ghost a: Shape)
    modifies heap
    ensures fresh(owner) && owner == a.node && Mirrors(a, false) && Tree(a) && !a.reference && fresh(Owned(a))
    ensures |a.kids| == 1 && a.kids[0].name != null && a.kids[0].name.text == OLD_NAME && fresh(a.kids[0].node)
    ensures Below(a, false) == {a.kids[0].node} && Below(a.kids[0], false) == {} && owner != a.kids[0].node
    ensures heap.live == old(heap.live) + Owned(a)
  {
    hide *;
    owner := NewNode(heap, ObjectKind);
    ghost var a0 := Bare(owner, ObjectKind, null);
    assert allocated(Below(a0, false));
    var first := NewNode(heap, FalseKind);
    ghost var x0 := Bare(first, FalseKind, null);
    BareFields(owner, ObjectKind);
    BareFields(first, FalseKind);
    BareApart(a0, x0);
    BareRow(a0, heap.live);
    ghost var name := AddItemToObject(heap, owner, OLD_NAME, first, a0, x0, false);
    a := a0.(kids := a0.kids + [x0.(name := name)]);
    PairOwns(a0, x0, name);
    OptIs(name);
  }

  lemma {:induction false} BareFields(node: Node, kind: Kind)
    ensures var sh := Bare(node, kind, null); sh.node == node && sh.name == null && !sh.reference && sh.kids == [] && Opt(sh.name) == {}
  {
  }

  lemma {:induction false} BareRow(a: Shape, live: set<object>)
    requires a == Bare(a.node, ObjectKind, null) && a.node in live
    ensures RowIsLive(a, live)
  {
  }

  // A list of one child that has nothing below it.
  lemma {:induction false} OnlyKid(a: Shape, k: Shape)
    requires a.kids == [k] && !a.reference && Below(k, false) == {}
    ensures Below(a, false) == NodesOf([k], false) == {k.node}
    ensures a.node != k.node ==> Apart(a.node, a.kids, false)
  {
    assert Nodes(k, false) == {k.node};
    hide Nodes;
    assert k in [k];
    forall n | n in NodesOf([k], false) ensures n == k.node {
      var x :| x in [k] && n in Nodes(x, false);
    }
    assert Nodes(k, false) <= NodesOf([k], false);
    hide NodesOf;
  }

  lemma {:induction false} BareTree(node: Node, kind: Kind, name: Chars?)
    ensures var sh := Bare(node, kind, name); Tree(sh) && Owned(sh) == {node} + Opt(name) && Below(sh, false) == {}
  {
  }

  // The object with its one child, once that has a name.
  lemma {:induction false} PairOwns(a0: Shape, x0: Shape, name: Chars)
    requires a0 == Bare(a0.node, ObjectKind, null) && x0 == Bare(x0.node, FalseKind, null) && a0.node != x0.node
    ensures var k := x0.(name := name);
            var a := a0.(kids := a0.kids + [k]);
            && a.kids == [k] && Tree(a) && Owned(a) == {a0.node, x0.node, name}
            && Below(a, false) == {x0.node} && Below(k, false) == {}
  {
    hide *;
    var k := x0.(name := name);
    BareNames(x0, name);
    BareTree(a0.node, ObjectKind, null);
    BareTree(x0.node, FalseKind, name);
    assert a0.kids == [] && !a0.reference by { BareKids(a0); }
    assert [] + [k] == [k];
    OnlyKid(a0.(kids := a0.kids + [k]), k);
    OptIs(name);
    AppendOwns(a0, k);
  }

  lemma {:induction false} BareApart(a0: Shape, x0: Shape)
    requires a0 == Bare(a0.node, ObjectKind, null) && x0 == Bare(x0.node, FalseKind, null) && a0.node != x0.node
    ensures Apart(a0.node, a0.kids + [x0], false)
  {
    hide *;
    BareTree(x0.node, FalseKind, null);
    BareKids(a0);
    assert [] + [x0] == [x0];
    OnlyKid(a0.(kids := a0.kids + [x0]), x0);
  }

  lemma {:induction false} OptIs(name: Chars)
    ensures Opt(name) == {name} && Opt(null) == {}
  {
  }

  lemma {:induction false} BareKids(sh: Shape)
    requires sh == Bare(sh.node, ObjectKind, null)
    ensures sh.kids == [] && !sh.reference
  {
  }

  lemma {:induction false} BareNames(x: Shape, name: Chars)
    requires x == Bare(x.node, FalseKind, null)
    ensures x.(name := name) == Bare(x.node, FalseKind, name)
  {
  }

  lemma {:induction false} ItemApart(a: Shape, x: Shape)
    requires |a.kids| == 1 && Below(a.kids[0], false) == {} && Below(x, false) == {}
    requires a.node != a.kids[0].node && a.node != x.node && a.kids[0].node != x.node
    ensures Apart(a.node, a.kids + [x], false)
  {
    var kids := a.kids + [x];
    assert kids == [a.kids[0], x];
    forall n | n in NodesOf(kids, false) ensures n == a.kids[0].node || n == x.node {
      var k :| k in kids && n in Nodes(k, false);
    }
  }

  // The children of a tree and their names are its own.
  lemma {:induction false} RowOwned(a: Shape)
    requires Tree(a) && !a.reference
    ensures NamesAreLive(a, Owned(a))
  {
    hide Owned, OwnedOf;
    OwnedUnfold(a);
    OwnsItself(a);
    forall k | k in a.kids ensures k.node in Owned(a) && Opt(k.name) <= Owned(a) {
      assert Owned(k) <= OwnedOf(a.kids);
      OwnsItself(k);
      NameOwned(k);
    }
  }

  lemma {:induction false} FoundFirst(kids: seq<Shape>, s: CString, k: nat)
    requires |kids| == 1 && kids[0].name != null && kids[0].name.text == s && FirstNamed(kids, s, k)
    ensures k == 0
  {
  }

  // An item of the name "b".
  method NamedItem(heap: Heap) returns (item: Node, ghost x: Shape, ghost name: Chars)
    modifies heap
    ensures fresh(item) && fresh(name) && x == Bare(item, FalseKind, name) && Mirrors(x, false) && Tree(x)
    ensures Owned(x) == {item, name} && Below(x, false) == {} && heap.live == old(heap.live) + {item, name}
  {
    item := new Node();
    heap.Malloc(item);
    var text := StrDup(heap, "b");
    item.name := text;
    name := text;
    x := Bare(item, FalseKind, name);
    BareIs(item, FalseKind, name);
  }

  // A call that loses a name: what replaces the child "a" comes under the name "b".
  method LosingReplace(heap: Heap) returns (owner: Node, ghost b: Shape, ghost lost: Chars)
    modifies heap
    ensures owner == b.node && Mirrors(b, false) && Tree(b) && fresh(lost)
    ensures lost !in Owned(b) && heap.live - old(heap.live) - Owned(b) == {lost}
  {
    hide *;
    ghost var a, x;
    owner, a := OneNamed(heap);
    assert allocated(Below(a, false)) && allocated(Owned(a));
    var item;
    item, x, lost := NamedItem(heap);
    BareNamed(item, lost);
    ItemApart(a, x);
    TreeIs(a);
    OwnedUnfold(a);
    RowOwned(a);
    MoreLive(a, Owned(a), heap.live);
    ghost var before := heap.live;
    ghost var k, copy := ReplaceItemInObject(heap, owner, OLD_NAME, item, a, x, false);
    FoundFirst(a.kids, OLD_NAME, k);
    b := a.(kids := a.kids[0 := x.(name := copy)]);
    ReplaceLeaks(a, 0, x, copy, old(heap.live), before, heap.live);
    OptIs(lost);
  }

  lemma {:induction false} MoreLive(a: Shape, live: set<object>, more: set<object>)
    requires NamesAreLive(a, live) && live <= more
    ensures NamesAreLive(a, more)
  {
  }

  lemma {:induction false} BareNamed(node: Node, name: Chars)
    ensures var x := Bare(node, FalseKind, name); x.node == node && x.name == name && x.text == null
  {
  }

  lemma {:induction false} NameOwned(x: Shape)
    ensures Opt(x.name) <= Owned(x) && (Opt(x.name) == {} <==> x.name == null)
  {
    hide OwnedOf;
  }

  lemma {:induction false} RenamedTree(x: Shape, name: Chars)
    requires Tree(x) && name !in Owned(x) && name != x.text
    ensures var y := x.(name := name); Tree(y) && Owned(y) == Owned(x) - Opt(x.name) + {name}
  {
    hide OwnedOf, Forest;
  }

  // ----- references ---------------------------------------------------------------------------

  // What a reference to `x` shows besides itself.
  ghost function Shared(x: Shape): set<object> {
    Opt(x.text) + SeenOf(x.kids)
  }

  lemma {:induction false} RootIsShared(x: Shape, i: nat)
    requires Tree(x) && !x.reference && i < |x.kids|
    ensures x.kids[i].node in Owned(x) && x.kids[i].node in SeenOf(x.kids)
  {
    hide *;
    OwnedUnfold(x);
    var k := x.kids[i];
    assert k in x.kids && Owned(k) <= OwnedOf(x.kids) && Seen(k) <= SeenOf(x.kids);
    SeenIs(k);
    OwnsItself(k);
  }

  lemma {:induction false} OwnsItself(x: Shape)
    ensures x.node in Owned(x) && (!x.reference ==> Opt(x.text) <= Owned(x))
  {
    hide OwnedOf;
  }

  // Deleting an item leaves a reference to it dangling, so that it may not be printed any more,
  // exactly when the item is no reference itself and has a text or children.  An item that is a
  // reference is not part of what it shows.
  lemma {:induction false} DeleteDangles(x: Shape, node: Node, live: set<object>)
    requires Tree(x) && Seen(ReferenceTo(x, node)) <= live && node !in Owned(x)
    requires x.reference ==> Owned(x) !! Shared(x)
    ensures !(Seen(ReferenceTo(x, node)) <= live - Owned(x)) <==> !x.reference && (x.text != null || x.kids != [])
  {
    hide Seen, SeenOf, Owned, OwnedOf, Tree;
    ReferenceSees(x, node);
    OwnsItself(x);
    if !x.reference && x.kids != [] {
      RootIsShared(x, 0);
    }
    if x.kids == [] {
      assert SeenOf(x.kids) == {} by { NothingSeen(); }
    }
  }

  lemma {:induction false} NothingSeen()
    ensures SeenOf([]) == {}
  {
  }

  lemma {:induction false} ReferenceSees(x: Shape, node: Node)
    ensures Seen(ReferenceTo(x, node)) == {node} + Shared(x)
  {
    hide SeenOf;
  }
}
