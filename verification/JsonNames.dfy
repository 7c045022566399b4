/**
The operations on objects that find a child by name or add one under a name.
*/
module JsonNames {
  import opened Options
  import opened CStrings
  import opened JsonText
  import opened JsonNodes
  import opened JsonLists

  // ----- comparing names ----------------------------------------------------------------------

  // tolower in the C locale
  function ToLower(c: char): char {
    if 'A' <= c <= 'Z' then c - 'A' + 'a' else c
  }

  ghost function Lower(s: string): (r: string)
    ensures |r| == |s| && forall i :: 0 <= i < |s| ==> r[i] == ToLower(s[i])
  {
    seq(|s|, i requires 0 <= i < |s| => ToLower(s[i]))
  }

  // The bytes are the two cases of one letter, 32 apart.
  predicate TwoCases(c: char, d: char) {
    || ('A' <= c <= 'Z' && d as int == c as int + 32)
    || ('A' <= d <= 'Z' && c as int == d as int + 32)
  }

  // Names match exactly when they are of one length and each byte of one is that of the other, or the
  // other case of the same letter.
  lemma {:induction false} MatchIs(s: string, s': string)
    ensures Lower(s) == Lower(s') <==>
              |s| == |s'| && forall i :: 0 <= i < |s| ==> s[i] == s'[i] || TwoCases(s[i], s'[i])
  {
  }

  // The strings agree, without regard to case, up to offset k and differ there by r.
  ghost predicate DifferAt(s1: CString, s2: CString, k: nat, r: int) {
    && k <= |s1| && k <= |s2| && Lower(s1[..k]) == Lower(s2[..k])
    && r == ToLower(At(s1, k)) as int - ToLower(At(s2, k)) as int
  }

  ghost predicate SameName(name: Chars?, s: CString) {
    name != null && Lower(name.text) == Lower(s)
  }

  // cJSON_strcasecmp; each string may be missing.
  method StrCaseCmp(name: Chars?, other: Option<CString>) returns (r: int)
    ensures name == null || other.None? ==> r == if name == null && other.None? then 0 else 1
    ensures other.Some? ==> (r == 0 <==> SameName(name, other.value))
    ensures name != null && other.Some? && r != 0 ==> exists k: nat :: DifferAt(name.text, other.value, k, r)
  {
    if name == null {
      return if other.None? then 0 else 1;
    }
    if other.None? {
      return 1;
    }
    var s1, s2 := name.text, other.value;
    var k := 0;
    while ToLower(At(s1, k)) == ToLower(At(s2, k))
      invariant 0 <= k <= |s1| && k <= |s2|
      invariant forall i :: 0 <= i < k ==> ToLower(s1[i]) == ToLower(s2[i])
      decreases |s1| - k
    {
      if At(s1, k) == NUL {
        LowerNul(At(s2, k));
        assert k == |s1| && k == |s2|;
        assert Lower(s1) == Lower(s2);
        return 0;
      }
      LowerNul(At(s1, k));
      k := k + 1;
    }
    r := ToLower(At(s1, k)) as int - ToLower(At(s2, k)) as int;
    assert Lower(s1[..k]) == Lower(s2[..k]);
    assert DifferAt(s1, s2, k, r);
    DifferentNames(s1, s2, k, r);
  }

  lemma {:induction false} DifferentNames(s1: CString, s2: CString, k: nat, r: int)
    requires DifferAt(s1, s2, k, r) && r != 0
    ensures Lower(s1) != Lower(s2)
  {
    LowerNul(At(s1, k));
    LowerNul(At(s2, k));
    assert k < |s1| && k < |s2| ==> Lower(s1)[k] as int - Lower(s2)[k] as int == r;
  }

  lemma {:induction false} LowerNul(c: char)
    ensures ToLower(c) == NUL <==> c == NUL
  {
  }

  // ----- finding ------------------------------------------------------------------------------

  // `k` is the first child of the name; the number of children when there is none.
  ghost predicate FirstNamed(kids: seq<Shape>, s: CString, k: nat) {
    && k <= |kids| && (k < |kids| ==> SameName(kids[k].name, s))
    && forall i :: 0 <= i < k ==> !SameName(kids[i].name, s)
  }

  // The walk to the first child of the name, counting the children passed.
  method Find(ghost heap: Heap, list: Node, s: CString, ghost a: Shape, ghost deep: bool) returns (c: Node?, i: nat)
    requires list == a.node && Mirrors(a, deep) && (deep || !a.reference) && NamesAreLive(a, heap.live)
    ensures FirstNamed(a.kids, s, i) && c == NodeAt(Roots(a.kids), i)
  {
    hide Lower, SameName, Below, NodesOf, Nodes, AllMirror;
    MirrorParts(a, deep);
    assert allocated(NodesOf(a.kids, deep));
    c, i := list.child, 0;
    while c != null
      invariant AllMirror(a.kids, deep) && Chain(list.child, Roots(a.kids))
      invariant 0 <= i <= |a.kids| && c == NodeAt(Roots(a.kids), i)
      invariant forall j :: 0 <= j < i ==> !SameName(a.kids[j].name, s)
      decreases |a.kids| - i
    {
      assert LinkAt(Roots(a.kids), i);
      OneMirror(a.kids, i, deep);
      assert c.name == a.kids[i].name by {
        MirrorParts(a.kids[i], deep);
      }
      var r := StrCaseCmp(c.name, Some(s));
      if r == 0 {
        return;
      }
      i, c := i + 1, c.next;
    }
  }

  // There is only one such child.
  lemma {:induction false} FirstNamedUnique(kids: seq<Shape>, s: CString, i: nat, j: nat)
    requires FirstNamed(kids, s, i) && FirstNamed(kids, s, j)
    ensures i == j
  {
    hide SameName;
  }

  method GetArraySize(ghost heap: Heap, list: Node, ghost a: Shape, ghost deep: bool) returns (n: nat)
    requires list == a.node && Mirrors(a, deep) && (deep || !a.reference) && RowIsLive(a, heap.live)
    ensures n == |a.kids|
  {
    hide Below, NodesOf, Nodes, AllMirror;
    MirrorParts(a, deep);
    var c := list.child;
    n := 0;
    while c != null
      invariant 0 <= n <= |a.kids| && c == NodeAt(Roots(a.kids), n)
      decreases |a.kids| - n
    {
      assert LinkAt(Roots(a.kids), n);
      n, c := n + 1, c.next;
    }
  }

  method GetArrayItem(ghost heap: Heap, list: Node, item: int, ghost a: Shape, ghost deep: bool) returns (c: Node?)
    requires list == a.node && Mirrors(a, deep) && (deep || !a.reference) && RowIsLive(a, heap.live)
    ensures c == NodeAt(Roots(a.kids), Position(item))
  {
    hide Below, NodesOf, Nodes, AllMirror;
    MirrorParts(a, deep);
    c := Walk(list, item, Roots(a.kids));
  }

  method GetObjectItem(ghost heap: Heap, owner: Node, s: CString, ghost a: Shape, ghost deep: bool) returns (c: Node?)
    requires owner == a.node && Mirrors(a, deep) && (deep || !a.reference) && NamesAreLive(a, heap.live)
    ensures exists k: nat :: FirstNamed(a.kids, s, k) && c == NodeAt(Roots(a.kids), k)
  {
    hide FirstNamed, Mirrors;
    var i;
    c, i := Find(heap, owner, s, a, deep);
  }

  // ----- editing by name ----------------------------------------------------------------------

  method DetachItemFromObject(ghost heap: Heap, owner: Node, s: CString, ghost a: Shape, ghost deep: bool)
    returns (c: Node?, ghost k: nat)
    requires owner == a.node && Mirrors(a, deep) && (deep || !a.reference) && Apart(owner, a.kids, deep)
    requires NamesAreLive(a, heap.live)
    modifies owner`child, (set n: Node | n in Roots(a.kids))`next, (set n: Node | n in Roots(a.kids))`prev
    ensures FirstNamed(a.kids, s, k) && c == NodeAt(Roots(a.kids), k)
    ensures c == null ==> Mirrors(a, deep)
    ensures c != null ==>
              && Mirrors(a.(kids := Without(a.kids, k)), deep) && Mirrors(a.kids[k], deep)
              && c.next == null && c.prev == null
  {
    hide Mirrors, AllMirror, Below, NodesOf, Nodes, Apart, Chain, Roots, FirstNamed;
    var i;
    assert allocated(Below(a, deep));
    c, i := Find(heap, owner, s, a, deep);
    k := i;
    if c == null {
      return;
    }
    c := DetachItemFromArray(heap, owner, i, a, deep);
  }

  method DeleteItemFromObject(heap: Heap, owner: Node, s: CString, ghost a: Shape, ghost deep: bool) returns (ghost k: nat)
    requires owner == a.node && Mirrors(a, deep) && (deep || !a.reference) && Apart(owner, a.kids, deep)
    requires NamesAreLive(a, heap.live)
    requires Forest(a.kids) && OwnedOf(a.kids) <= heap.live
    modifies heap, owner`child, (set n: Node | n in Roots(a.kids))`next, (set n: Node | n in Roots(a.kids))`prev
    ensures FirstNamed(a.kids, s, k)
    ensures k == |a.kids| ==> Mirrors(a, deep) && heap.live == old(heap.live)
    ensures k < |a.kids| ==>
              Mirrors(a.(kids := Without(a.kids, k)), deep) && heap.live == old(heap.live) - Owned(a.kids[k])
  {
    hide Mirrors, AllMirror, Below, NodesOf, Nodes, Apart, Chain, Roots, Owned, OwnedOf, Forest;
    var c;
    c, k := DetachItemFromObject(heap, owner, s, a, deep);
    if c == null {
      NoForest();
      assert allocated(Below(a, deep));
      Delete(heap, null, []);
    } else {
      JustOne(a.kids, k, deep);
      assert allocated(Below(a.(kids := Without(a.kids, k)), deep));
      Delete(heap, c, [a.kids[k]]);
    }
  }

  // cJSON_strdup
  method StrDup(heap: Heap, s: CString) returns (copy: Chars)
    modifies heap
    ensures fresh(copy) && copy.text == s && heap.live == old(heap.live) + {copy}
  {
    copy := new Chars(s);
    heap.Malloc(copy);
  }

  // A node under a new name.
  method Rename(node: Node, name: Chars, ghost x: Shape, ghost deep: bool)
    requires node == x.node && Mirrors(x, deep) && node !in Below(x, deep)
    modifies node`name
    ensures node.name == name && Mirrors(x.(name := name), deep)
  {
    hide Mirrors, AllMirror, Below, NodesOf, Nodes, Chain, Roots;
    MirrorParts(x, deep);
    assert allocated(Below(x, deep)) && allocated(NodesOf(x.kids, deep));
    BelowIs(x, deep);
    node.name := name;
    MakeMirror(x.(name := name), deep);
  }

  lemma {:induction false} BelowIs(x: Shape, deep: bool)
    ensures deep || !x.reference ==>
              Below(x, deep) == NodesOf(x.kids, deep) && forall n <- Roots(x.kids) :: n in Below(x, deep)
  {
    RootsBelow(x.kids, deep);
  }

  // cJSON_AddItemToObject frees the name the item had, and appends it under its new one.
  method AddItemToObject(heap: Heap, owner: Node, s: CString, item: Node, ghost a: Shape, ghost x: Shape, ghost deep: bool)
    returns (ghost name: Chars)
    requires owner == a.node && Mirrors(a, deep) && (deep || !a.reference)
    requires item == x.node && Mirrors(x, deep) && item.next == null && item.prev == null
    requires Apart(owner, a.kids + [x], deep) && Opt(x.name) <= heap.live
    requires RowIsLive(a, heap.live) && item in heap.live
    modifies heap, owner`child, item`name, item`prev, (set n: Node | n in Roots(a.kids))`next
    ensures fresh(name) && name.text == s && Mirrors(a.(kids := a.kids + [x.(name := name)]), deep)
    ensures heap.live == old(heap.live) - Opt(x.name) + {name}
  {
    hide Mirrors, AllMirror, Below, NodesOf, Nodes, Apart, Chain, Roots;
    assert allocated(Below(a, deep)) && allocated(Below(x, deep));
    FieldsOf(x, deep);
    if item.name != null {
      heap.Free(item.name);
    }
    var copy := StrDup(heap, s);
    name := copy;
    ApartRenamed(owner, a, x, name, deep);
    NewIsOutside(owner, a, x, deep);
    Rename(item, copy, x, deep);
    AddItemToArray(heap, owner, item, a, x.(name := name), deep);
  }

  lemma {:induction false} FieldsOf(x: Shape, deep: bool)
    requires Mirrors(x, deep)
    ensures Fields(x)
  {
  }

  lemma {:induction false} SamePlace(x: Shape, name: Chars?, deep: bool)
    ensures Below(x.(name := name), deep) == Below(x, deep) && Nodes(x.(name := name), deep) == Nodes(x, deep)
  {
  }

  lemma {:induction false} NodesOfMore(kids: seq<Shape>, x: Shape, deep: bool)
    ensures NodesOf(kids + [x], deep) == NodesOf(kids, deep) + Nodes(x, deep)
  {
    hide Nodes;
    assert forall k :: k in kids + [x] <==> k in kids || k == x;
  }

  // Names take no part in how a list hangs together.
  lemma {:induction false} ApartRenamed(owner: Node, a: Shape, x: Shape, name: Chars?, deep: bool)
    requires Apart(owner, a.kids + [x], deep)
    ensures Apart(owner, a.kids + [x.(name := name)], deep)
  {
    var all, renamed := a.kids + [x], a.kids + [x.(name := name)];
    SamePlace(x, name, deep);
    NodesOfMore(a.kids, x, deep);
    NodesOfMore(a.kids, x.(name := name), deep);
    hide NodesOf, Below, Nodes;
    assert forall i :: 0 <= i < |all| ==> renamed[i].node == all[i].node && Below(renamed[i], deep) == Below(all[i], deep);
  }

  // The new item is none of the nodes of the list.
  lemma {:induction false} NewIsOutside(owner: Node, a: Shape, x: Shape, deep: bool)
    requires owner == a.node && Apart(owner, a.kids + [x], deep) && (deep || !a.reference)
    ensures x.node != owner && x.node !in Below(x, deep) && x.node !in Below(a, deep)
  {
    hide Below, Nodes, NodesOf;
    var all := a.kids + [x];
    assert all[|a.kids|] == x && x in all;
    assert Nodes(x, deep) <= NodesOf(all, deep);
    RootIsNode(x, deep);
    forall k | k in a.kids ensures x.node !in Nodes(k, deep) {
      var i :| 0 <= i < |a.kids| && a.kids[i] == k;
      assert all[i] == k;
      RootIsNode(k, deep);
    }
    hide Apart;
    Outside(a.kids, x.node, deep);
    BelowIs(a, deep);
  }

  lemma {:induction false} Outside(kids: seq<Shape>, n: Node, deep: bool)
    requires forall k <- kids :: n !in Nodes(k, deep)
    ensures n !in NodesOf(kids, deep)
  {
    hide Nodes;
  }

  lemma {:induction false} RootIsNode(x: Shape, deep: bool)
    ensures Nodes(x, deep) == {x.node} + Below(x, deep)
  {
  }

  // cJSON_ReplaceItemInObject gives the new item a copy of the name; a name it had before is not
  // freed.
  method ReplaceItemInObject(heap: Heap, owner: Node, s: CString, newItem: Node, ghost a: Shape, ghost x: Shape, ghost deep: bool)
    returns (ghost k: nat, ghost name: Chars?)
    requires owner == a.node && Mirrors(a, deep) && (deep || !a.reference)
    requires newItem == x.node && Mirrors(x, deep) && Apart(owner, a.kids + [x], deep)
    requires NamesAreLive(a, heap.live) && newItem in heap.live
    requires Forest(a.kids) && OwnedOf(a.kids) <= heap.live
    modifies heap, owner`child, newItem`next, newItem`prev, newItem`name
    modifies (set n: Node | n in Roots(a.kids))`next, (set n: Node | n in Roots(a.kids))`prev
    ensures FirstNamed(a.kids, s, k)
    ensures k == |a.kids| ==> Mirrors(a, deep) && heap.live == old(heap.live)
    ensures k < |a.kids| ==>
              && name != null && fresh(name) && name.text == s && Mirrors(a.(kids := a.kids[k := x.(name := name)]), deep)
              && heap.live == old(heap.live) + {name} - Owned(a.kids[k])
  {
    hide Mirrors, AllMirror, Below, NodesOf, Nodes, Apart, Chain, Roots, FirstNamed, Owned, OwnedOf, Forest;
    assert allocated(Below(a, deep)) && allocated(Below(x, deep));
    var c, i := Find(heap, owner, s, a, deep);
    k, name := i, null;
    if c != null {
      var copy := StrDup(heap, s);
      name := copy;
      ApartRenamed(owner, a, x, name, deep);
      NewIsOutside(owner, a, x, deep);
      Rename(newItem, copy, x, deep);
      ReplaceItemInArray(heap, owner, i, newItem, a, x.(name := name), deep);
    }
  }

  // ----- references in lists ------------------------------------------------------------------

  // Nothing of the list hangs below `x`.
  ghost predicate NoCycle(list: Node, kids: seq<Shape>, x: Shape) {
    list !in Below(x, true) && forall k <- kids :: k.node !in Below(x, true)
  }

  lemma {:induction false} OutsideEach(n: Node, kids: seq<Shape>, deep: bool)
    requires n !in NodesOf(kids, deep)
    ensures forall k <- kids :: n != k.node && n !in Below(k, deep)
  {
    hide *;
    forall k | k in kids ensures n != k.node && n !in Below(k, deep) {
      assert Nodes(k, deep) <= NodesOf(kids, deep);
      RootIsNode(k, deep);
    }
  }

  lemma {:induction false} ApartMore(list: Node, kids: seq<Shape>, r: Shape)
    requires Apart(list, kids, true) && NoCycle(list, kids, r) && list != r.node && r.node !in Below(r, true)
    requires r.node !in NodesOf(kids, true)
    ensures Apart(list, kids + [r], true)
  {
    hide NodesOf, Nodes, Below;
    OutsideEach(r.node, kids, true);
    NodesOfMore(kids, r, true);
    RootIsNode(r, true);
    var all := kids + [r];
    assert forall i :: 0 <= i < |kids| ==> all[i] == kids[i] && kids[i] in kids;
    assert all[|kids|] == r;
  }

  // cJSON_AddItemReferenceToArray: the list shows the value of the item, and owns one node more.
  method AddItemReferenceToArray(heap: Heap, list: Node, item: Node, ghost a: Shape, ghost x: Shape) returns (ghost ref: Shape)
    requires list == a.node && Mirrors(a, true) && item == x.node && Mirrors(x, true)
    requires Apart(list, a.kids, true) && NoCycle(list, a.kids, x) && RowIsLive(a, heap.live) && item in heap.live
    modifies heap, list`child, (set n: Node | n in Roots(a.kids))`next
    ensures fresh(ref.node) && ref == ReferenceTo(x, ref.node) && Owned(ref) == {ref.node} && Tree(ref)
    ensures heap.live == old(heap.live) + {ref.node}
    ensures Mirrors(a.(kids := a.kids + [ref]), true)
  {
    hide Mirrors, AllMirror, Below, NodesOf, Nodes, Apart, Chain, Roots, NoCycle, Owned, Tree, ReferenceTo;
    assert allocated(Below(a, true)) && allocated(Below(x, true)) && allocated(NodesOf(a.kids, true));
    var node := CreateReference(heap, item, x);
    ref := ReferenceTo(x, node);
    ReferenceIs(x, node);
    CycleSame(list, a.kids, x, ref);
    ApartMore(list, a.kids, ref);
    AddItemToArray(heap, list, node, a, ref, true);
  }

  lemma {:induction false} ReferenceIs(x: Shape, node: Node)
    ensures ReferenceTo(x, node).node == node && Below(ReferenceTo(x, node), true) == Below(x, true)
    ensures ReferenceTo(x, node) == ReferenceTo(x, ReferenceTo(x, node).node)
  {
  }

  lemma {:induction false} CycleSame(list: Node, kids: seq<Shape>, x: Shape, y: Shape)
    requires Below(x, true) == Below(y, true) && NoCycle(list, kids, x)
    ensures NoCycle(list, kids, y)
  {
    hide Below;
  }
}
