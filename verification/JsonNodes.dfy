/**
cJSON nodes in memory: links, ownership, and what is allocated.
*/
module JsonNodes {
  import opened CStrings
  import opened JsonText

  // The allocator behind cJSON_malloc and cJSON_free.
  class Heap {
    ghost var live: set<object>

    ghost method Malloc(o: object)
      requires o !in live
      modifies this
      ensures live == old(live) + {o}
    {
      live := live + {o};
    }

    // What is freed must be allocated: nothing is freed twice.
    method Free(o: object)
      requires o in live
      modifies this
      ensures live == old(live) - {o}
    {
      live := live - {o};
    }
  }

  // An allocated C string.
  class Chars {
    const text: CString

    constructor (text: CString)
      ensures this.text == text
    {
      this.text := text;
    }
  }

  datatype Kind = FalseKind | TrueKind | NullKind | NumberKind | StringKind | ArrayKind | ObjectKind

  // struct cJSON; `kind` and `reference` make up `type`, `text` is valuestring, `name` is string,
  // and mantissa * 10^exponent is the exact valuedouble.
  class Node {
    var next: Node?
    var prev: Node?
    var child: Node?
    var kind: Kind
    var reference: bool
    var text: Chars?
    var name: Chars?
    var mantissa: int
    var exponent: int

    // cJSON_New_Item: all fields zero
    constructor ()
      ensures next == null && prev == null && child == null && kind == FalseKind && !reference
      ensures text == null && name == null && mantissa == 0 && exponent == 0
    {
      next, prev, child, kind, reference := null, null, null, FalseKind, false;
      text, name, mantissa, exponent := null, null, 0, 0;
    }

    // memcpy
    constructor Copy(from: Node)
      ensures next == from.next && prev == from.prev && child == from.child && kind == from.kind
      ensures reference == from.reference && text == from.text && name == from.name
      ensures mantissa == from.mantissa && exponent == from.exponent
    {
      next, prev, child, kind, reference := from.next, from.prev, from.child, from.kind, from.reference;
      text, name, mantissa, exponent := from.text, from.name, from.mantissa, from.exponent;
    }
  }

  // A picture of a node and what hangs below it.  Below a reference hangs what it shares.
  datatype Shape = Shape(node: Node, kind: Kind, reference: bool, text: Chars?, name: Chars?,
                         mantissa: int, exponent: int, kids: seq<Shape>)

  ghost function Roots(kids: seq<Shape>): (r: seq<Node>)
    ensures |r| == |kids| && forall i :: 0 <= i < |kids| ==> r[i] == kids[i].node
  {
    seq(|kids|, i requires 0 <= i < |kids| => kids[i].node)
  }

  // ----- ownership ----------------------------------------------------------------------------

  ghost function Opt(c: Chars?): set<object> {
    if c == null then {} else {c}
  }

  // What cJSON_Delete frees with a node: a reference owns only itself and its name.
  ghost function Owned(sh: Shape): set<object>
    decreases sh
  {
    {sh.node} + Opt(sh.name) + (if sh.reference then {} else Opt(sh.text) + OwnedOf(sh.kids))
  }

  ghost function OwnedOf(kids: seq<Shape>): (os: set<object>)
    ensures forall k <- kids :: Owned(k) <= os
    decreases kids
  {
    set k, o | k in kids && o in Owned(k) :: o
  }

  // No owned object is reached twice.
  ghost predicate Tree(sh: Shape)
    decreases sh
  {
    && (sh.name != null ==> sh.name != sh.text || sh.reference)
    && (!sh.reference ==>
          && Forest(sh.kids) && sh.node !in OwnedOf(sh.kids)
          && (Opt(sh.name) + Opt(sh.text)) !! OwnedOf(sh.kids))
  }

  ghost predicate Forest(kids: seq<Shape>)
    decreases kids
  {
    && (forall k <- kids :: Tree(k))
    && (forall i, j :: 0 <= i < j < |kids| ==> Owned(kids[i]) !! Owned(kids[j]))
  }

  // ----- what reading follows -----------------------------------------------------------------

  // All that printing a node looks at: the nodes, names and texts below it, what references share
  // included.
  ghost function Seen(sh: Shape): set<object>
    decreases sh
  {
    {sh.node} + Opt(sh.name) + Opt(sh.text) + SeenOf(sh.kids)
  }

  ghost function SeenOf(kids: seq<Shape>): (os: set<object>)
    ensures forall k <- kids :: Seen(k) <= os
    decreases kids
  {
    set k, o | k in kids && o in Seen(k) :: o
  }

  // All that an operation on the children of `a` looks at: the node and its children ...
  ghost predicate RowIsLive(a: Shape, live: set<object>) {
    a.node in live && forall k <- a.kids :: k.node in live
  }

  // ... and their names, when it looks for one.
  ghost predicate NamesAreLive(a: Shape, live: set<object>) {
    RowIsLive(a, live) && forall k <- a.kids :: Opt(k.name) <= live
  }

  lemma {:induction false} SeenIs(sh: Shape)
    ensures sh.node in Seen(sh) && Opt(sh.name) <= Seen(sh) && Opt(sh.text) <= Seen(sh) && SeenOf(sh.kids) <= Seen(sh)
  {
    hide SeenOf;
  }

  // ----- links --------------------------------------------------------------------------------

  // The nodes a picture describes: with `deep`, also those a reference shares.
  ghost function Nodes(sh: Shape, deep: bool): set<Node>
    decreases sh
  {
    {sh.node} + Below(sh, deep)
  }

  ghost function Below(sh: Shape, deep: bool): set<Node>
    decreases sh, 0
  {
    if deep || !sh.reference then NodesOf(sh.kids, deep) else {}
  }

  ghost function NodesOf(kids: seq<Shape>, deep: bool): (ns: set<Node>)
    ensures forall k <- kids :: Nodes(k, deep) <= ns
    decreases kids
  {
    set k, n | k in kids && n in Nodes(k, deep) :: n
  }

  ghost function NodeAt(nodes: seq<Node>, k: int): Node? {
    if 0 <= k < |nodes| then nodes[k] else null
  }

  ghost predicate LinkAt(nodes: seq<Node>, k: nat)
    requires k < |nodes|
    reads (set n: Node | n in nodes)`next, (set n: Node | n in nodes)`prev
  {
    nodes[k].next == NodeAt(nodes, k + 1) && nodes[k].prev == NodeAt(nodes, k - 1)
  }

  // A sibling list: `next` and `prev` spell `nodes` in both directions.
  ghost predicate Chain(head: Node?, nodes: seq<Node>)
    reads (set n: Node | n in nodes)`next, (set n: Node | n in nodes)`prev
  {
    head == NodeAt(nodes, 0) && forall k :: 0 <= k < |nodes| ==> LinkAt(nodes, k)
  }

  ghost predicate Fields(sh: Shape)
    reads sh.node`kind, sh.node`reference, sh.node`text, sh.node`name, sh.node`mantissa, sh.node`exponent
  {
    && sh.node.kind == sh.kind && sh.node.reference == sh.reference && sh.node.text == sh.text
    && sh.node.name == sh.name && sh.node.mantissa == sh.mantissa && sh.node.exponent == sh.exponent
  }

  lemma {:induction false} RootsBelow(kids: seq<Shape>, deep: bool)
    ensures forall n <- Roots(kids) :: n in NodesOf(kids, deep)
  {
    forall i | 0 <= i < |kids| ensures Roots(kids)[i] in NodesOf(kids, deep) {
      assert Nodes(kids[i], deep) <= NodesOf(kids, deep);
    }
  }

  // The node looks as pictured; the place of the node among its own siblings is left open.
  ghost predicate Mirrors(sh: Shape, deep: bool)
    reads sh.node`kind, sh.node`reference, sh.node`text, sh.node`name, sh.node`mantissa, sh.node`exponent, sh.node`child
    reads Below(sh, deep)
    decreases sh
  {
    && Fields(sh)
    && (deep || !sh.reference ==>
          && (RootsBelow(sh.kids, deep); Chain(sh.node.child, Roots(sh.kids)))
          && AllMirror(sh.kids, deep))
  }

  ghost predicate AllMirror(kids: seq<Shape>, deep: bool)
    reads NodesOf(kids, deep)
    decreases kids
  {
    forall k <- kids :: Mirrors(k, deep)
  }

  // ----- the value a picture stands for -------------------------------------------------------

  // Strings have a text, and the children of objects have names.
  ghost predicate Named(sh: Shape)
    decreases sh
  {
    && (sh.kind == StringKind ==> sh.text != null)
    && (sh.kind == ObjectKind ==> forall k <- sh.kids :: k.name != null)
    && (sh.kind == ArrayKind || sh.kind == ObjectKind ==> forall k <- sh.kids :: Named(k))
  }

  ghost function ValueOf(sh: Shape): Json
    requires Named(sh)
    decreases sh
  {
    match sh.kind
    case FalseKind => False
    case TrueKind => True
    case NullKind => Null
    case NumberKind => Number(sh.mantissa, sh.exponent)
    case StringKind => Str(sh.text.text)
    case ArrayKind => Arr(ValuesOf(sh.kids))
    case ObjectKind => Obj(MembersOf(sh.kids))
  }

  ghost function ValuesOf(kids: seq<Shape>): (vs: seq<Json>)
    requires forall k <- kids :: Named(k)
    ensures |vs| == |kids|
    decreases kids
  {
    if kids == [] then [] else [ValueOf(kids[0])] + ValuesOf(kids[1..])
  }

  ghost function MembersOf(kids: seq<Shape>): (ms: seq<Member>)
    requires forall k <- kids :: Named(k) && k.name != null
    ensures |ms| == |kids|
    decreases kids
  {
    if kids == [] then [] else [Member(kids[0].name.text, ValueOf(kids[0]))] + MembersOf(kids[1..])
  }

  lemma {:induction false} ValuesAt(kids: seq<Shape>, i: nat)
    requires i < |kids| && forall k <- kids :: Named(k)
    ensures ValuesOf(kids)[i] == ValueOf(kids[i])
    decreases kids
  {
    if i > 0 {
      ValuesAt(kids[1..], i - 1);
    }
  }

  lemma {:induction false} MembersAt(kids: seq<Shape>, i: nat)
    requires i < |kids| && forall k <- kids :: Named(k) && k.name != null
    ensures MembersOf(kids)[i] == Member(kids[i].name.text, ValueOf(kids[i]))
    decreases kids
  {
    if i > 0 {
      MembersAt(kids[1..], i - 1);
    }
  }

  // ----- facts about pictures -----------------------------------------------------------------

  lemma {:induction false} NodesAreOwned(sh: Shape)
    ensures forall n <- Nodes(sh, false) :: n in Owned(sh)
    decreases sh
  {
    if !sh.reference {
      KidsAreOwned(sh.kids);
    }
    hide NodesOf, OwnedOf;
  }

  lemma {:induction false} KidsAreOwned(kids: seq<Shape>)
    ensures forall n <- NodesOf(kids, false) :: n in OwnedOf(kids)
    decreases kids
  {
    hide Owned, OwnedOf, Nodes;
    forall n | n in NodesOf(kids, false) ensures n in OwnedOf(kids) {
      var k :| k in kids && n in Nodes(k, false);
      KidOwned(kids, k, n);
    }
  }

  lemma {:induction false} KidOwned(kids: seq<Shape>, k: Shape, n: Node)
    requires k in kids && n in Nodes(k, false)
    ensures n in OwnedOf(kids)
    decreases kids, 0
  {
    hide *;
    NodesAreOwned(k);
    assert Owned(k) <= OwnedOf(kids);
  }

  // Seen without what references share, a picture of what is there holds as well.
  lemma {:induction false} DeepIsEnough(sh: Shape)
    requires Mirrors(sh, true)
    ensures Mirrors(sh, false)
    decreases sh
  {
    if !sh.reference {
      forall k | k in sh.kids ensures Mirrors(k, false) {
        DeepIsEnough(k);
      }
    }
  }

  // A root is not below another root of the same forest.
  lemma {:induction false} RootsApart(kids: seq<Shape>, i: nat, j: nat)
    requires Forest(kids) && i < |kids| && j < |kids|
    ensures kids[i].node !in Below(kids[j], false)
    ensures i != j ==> kids[i].node != kids[j].node && kids[i].node !in Nodes(kids[j], false)
  {
    NodesAreOwned(kids[j]);
    assert Tree(kids[j]);
    if i == j {
      BelowIsOwned(kids[j]);
    } else {
      assert Owned(kids[if i < j then i else j]) !! Owned(kids[if i < j then j else i]);
    }
  }

  lemma {:induction false} BelowIsOwned(sh: Shape)
    ensures !sh.reference ==> forall n <- Below(sh, false) :: n in OwnedOf(sh.kids)
  {
    KidsAreOwned(sh.kids);
  }

  // A sibling list never meets a node twice.
  lemma {:induction false} ChainDistinct(head: Node?, nodes: seq<Node>, i: nat, j: nat)
    requires Chain(head, nodes) && i < j < |nodes|
    ensures nodes[i] != nodes[j]
    decreases |nodes| - j
  {
    assert LinkAt(nodes, i) && LinkAt(nodes, j);
    if j + 1 < |nodes| {
      ChainDistinct(head, nodes, i + 1, j + 1);
    }
  }
}
