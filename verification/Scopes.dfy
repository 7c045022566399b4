/**
The scope tree of angular.js: sibling and child links under $new and $destroy, and the walk of
$broadcast.
*/
module Scopes {

  class Scope {
    const id: nat
    var parent: Scope?
    var nextSibling: Scope?
    var prevSibling: Scope?
    var childHead: Scope?
    var childTail: Scope?
    // the children, and the row of siblings the scope stands in
    ghost var kids: seq<Scope>
    ghost var row: seq<Scope>

    constructor (id: nat)
      ensures this.id == id && parent == null && nextSibling == null && prevSibling == null
      ensures childHead == null && childTail == null && kids == [] && row == [this]
    {
      this.id := id;
      parent, nextSibling, prevSibling, childHead, childTail := null, null, null, null, null;
      kids, row := [], [this];
    }
  }

  ghost function ScopeAt(r: seq<Scope>, i: int): Scope? {
    if 0 <= i < |r| then r[i] else null
  }

  ghost predicate Distinct(r: seq<Scope>) {
    forall i, j :: 0 <= i < j < |r| ==> r[i] != r[j]
  }

  // A row of siblings: the links in both directions, and one parent for all.
  ghost predicate Member(r: seq<Scope>, i: nat, parent: Scope?)
    requires i < |r|
    reads (set x: Scope | x in r)`nextSibling, (set x: Scope | x in r)`prevSibling
    reads (set x: Scope | x in r)`row, (set x: Scope | x in r)`parent
  {
    && r[i].nextSibling == ScopeAt(r, i + 1) && r[i].prevSibling == ScopeAt(r, i - 1)
    && r[i].row == r && r[i].parent == parent
  }

  ghost predicate Row(r: seq<Scope>, parent: Scope?)
    reads (set x: Scope | x in r)`nextSibling, (set x: Scope | x in r)`prevSibling
    reads (set x: Scope | x in r)`row, (set x: Scope | x in r)`parent
  {
    Distinct(r) && forall i :: 0 <= i < |r| ==> Member(r, i, parent)
  }

  class Tree {
    var uid: nat
    var root: Scope
    // all scopes ever made, destroyed ones too
    ghost var all: set<Scope>

    // A destroyed scope stands alone; the scopes that were below it keep their rows and still name
    // it as their parent, but are not among its children.
    ghost predicate ScopeOk(s: Scope)
      requires s in all
      reads this, all
    {
      && s.id < uid && (forall x <- s.row :: x in all) && (forall k <- s.kids :: k in all)
      && s in s.row && Row(s.row, s.parent) && Row(s.kids, s)
      && s.childHead == ScopeAt(s.kids, 0) && s.childTail == ScopeAt(s.kids, |s.kids| - 1)
      && (s.parent == null ==> s.row == [s])
      && (s.parent != null ==> s.parent in all && s.parent.id < s.id)
    }

    ghost predicate Valid()
      reads this, all
    {
      root in all && root.parent == null && forall s <- all :: ScopeOk(s)
    }

    constructor ()
      ensures Valid() && all == {root} && fresh(root) && root.kids == []
    {
      root := new Scope(0);
      uid := 1;
      new;
      all := {root};
    }

    // No other row, and no other scope's children, meet the children of `s`.
    ghost predicate KidsApart(s: Scope)
      reads this, all, s
    {
      && s !in s.kids
      && (forall x <- all, y <- x.row :: y in s.kids ==> x.row == s.kids)
      && (forall x <- all, y <- x.kids :: y in s.kids ==> x == s)
    }

    lemma {:induction false} RowsMeet(s: Scope)
      requires Valid() && s in all
      ensures KidsApart(s)
    {
      assert ScopeOk(s);
      if s in s.kids {
        RowOf(s.kids, s, s);
      }
      forall x, y | x in all && y in x.row && y in s.kids ensures x.row == s.kids {
        assert ScopeOk(x);
        RowOf(x.row, x.parent, y);
        RowOf(s.kids, s, y);
      }
      forall x, y | x in all && y in x.kids && y in s.kids ensures x == s {
        assert ScopeOk(x);
        RowOf(x.kids, x, y);
        RowOf(s.kids, s, y);
      }
    }

    // $new appends a child.
    method New(s: Scope) returns (child: Scope)
      requires Valid() && s in all
      modifies this`uid, this`all, s`childHead, s`childTail, s`kids
      modifies (set x: Scope | x in s.kids)`nextSibling, (set x: Scope | x in s.kids)`row
      ensures Valid() && fresh(child) && all == old(all) + {child} && root == old(root)
      ensures s.kids == old(s.kids) + [child] && child.parent == s && child.kids == []
      ensures forall x <- old(all) :: x.parent == old(x.parent) && (x != s ==> x.kids == old(x.kids))
    {
      ghost var before := s.kids;
      RowsMeet(s);
      assert ScopeOk(s);
      hide Row, KidsApart;
      child := new Scope(uid);
      uid := uid + 1;
      Append(s, child, before);
      RowOf(s.kids, s, child);
      all := all + {child};
      hide ScopeOk;
      Grown(s, child);
    }

    twostate lemma Grown(s: Scope, new child: Scope)
      requires old(Valid()) && s in old(all) && old(KidsApart(s)) && child !in old(all) && all == old(all) + {child}
      requires root == old(root) && uid == old(uid) + 1 && child.id == old(uid)
      requires s.kids == old(s.kids) + [child] && child.kids == [] && child.childHead == null && child.childTail == null
      requires Row(s.kids, s) && s.childHead == s.kids[0] && s.childTail == child
      requires child.parent == s && child.row == s.kids
      requires forall x <- old(all) :: x.parent == old(x.parent)
      requires forall x <- old(all) :: x != s ==>
                 x.kids == old(x.kids) && x.childHead == old(x.childHead) && x.childTail == old(x.childTail)
      requires forall x <- old(all) :: x !in old(s.kids) ==>
                 x.row == old(x.row) && x.nextSibling == old(x.nextSibling) && x.prevSibling == old(x.prevSibling)
      ensures Valid()
    {
      EmptyRow(child);
      hide Row;
      assert old(ScopeOk(s));
      forall x | x in all ensures ScopeOk(x) {
        if x in old(all) {
          assert old(ScopeOk(x));
          if x in old(s.kids) {
            RowOf(s.kids, s, x);
          } else if x == s {
            assert forall y <- x.row :: y !in old(s.kids);
          }
        }
      }
    }

    // The links of $new.
    method Append(s: Scope, child: Scope, ghost before: seq<Scope>)
      requires before == s.kids && Row(before, s) && child !in before && s !in before && s != child
      requires s.childHead == ScopeAt(before, 0) && s.childTail == ScopeAt(before, |before| - 1)
      requires child.nextSibling == null
      modifies s`childHead, s`childTail, s`kids, child`parent, child`prevSibling, child`row
      modifies (set x: Scope | x in before)`nextSibling, (set x: Scope | x in before)`row
      ensures s.kids == before + [child] && Row(s.kids, s)
      ensures s.childHead == s.kids[0] && s.childTail == child
    {
      ghost var row := before + [child];
      child.parent := s;
      child.prevSibling := s.childTail;
      if s.childHead != null {
        s.childTail.nextSibling := child;
        s.childTail := child;
      } else {
        s.childHead, s.childTail := child, child;
      }
      s.kids := row;
      forall x | x in row {
        x.row := row;
      }
      forall i: nat | i < |row| ensures Member(row, i, s) {
        if i < |before| {
          assert old(Member(before, i, s));
        }
      }
    }

    // No other row meets the row of `s`; of the lists of children only that of its parent may.
    ghost predicate RowApart(s: Scope)
      reads this, all, s
    {
      && (forall x <- all, y <- x.row :: y in s.row ==> x.row == s.row)
      && (forall x <- all, y <- x.kids :: y in s.row ==> x.kids == s.row && x == s.parent)
    }

    lemma {:induction false} RowStandsAlone(s: Scope)
      requires Valid() && s in all
      ensures RowApart(s)
    {
      assert ScopeOk(s);
      forall x, y | x in all && y in x.row && y in s.row ensures x.row == s.row {
        assert ScopeOk(x);
        RowOf(x.row, x.parent, y);
        RowOf(s.row, s.parent, y);
      }
      forall x, y | x in all && y in x.kids && y in s.row ensures x.kids == s.row && x == s.parent {
        assert ScopeOk(x);
        RowOf(x.kids, x, y);
        RowOf(s.row, s.parent, y);
      }
    }

    // $destroy: the ends of the parent's list.
    method MoveEnds(s: Scope, p: Scope, ghost r: seq<Scope>, ghost k: nat)
      requires Row(r, p) && k < |r| && r[k] == s
      requires p.childHead == ScopeAt(p.kids, 0) && p.childTail == ScopeAt(p.kids, |p.kids| - 1)
      requires p.kids == r || s !in p.kids
      modifies p`childHead, p`childTail, p`kids
      ensures p.kids == if old(p.kids) == r then Without(r, k) else old(p.kids)
      ensures p.childHead == ScopeAt(p.kids, 0) && p.childTail == ScopeAt(p.kids, |p.kids| - 1)
    {
      assert Member(r, k, p);
      if p.childHead == s {
        p.childHead := s.nextSibling;
      }
      if p.childTail == s {
        p.childTail := s.prevSibling;
      }
      if p.kids == r {
        p.kids := Without(r, k);
      }
    }

    // $destroy: the siblings close over the scope.
    method CutOut(s: Scope, ghost p: Scope, ghost r: seq<Scope>, ghost k: nat)
      requires Row(r, p) && k < |r| && r[k] == s
      modifies (set x: Scope | x in r)`nextSibling, (set x: Scope | x in r)`prevSibling
      ensures forall j: nat :: j < |r| && j != k ==> Closes(r, k, j)
      ensures s.nextSibling == null && s.prevSibling == null
    {
      assert Member(r, k, p);
      if s.prevSibling != null {
        s.prevSibling.nextSibling := s.nextSibling;
      }
      if s.nextSibling != null {
        s.nextSibling.prevSibling := s.prevSibling;
      }
      s.nextSibling, s.prevSibling := null, null;
      forall j: nat | j < |r| && j != k ensures Closes(r, k, j) {
        assert old(Member(r, j, p));
      }
    }

    // ... and the scope itself stands alone.
    method Unlink(s: Scope, ghost p: Scope, ghost r: seq<Scope>, ghost k: nat)
      requires Row(r, p) && k < |r| && r[k] == s
      modifies s`parent, s`childHead, s`childTail, s`kids
      modifies (set x: Scope | x in r)`nextSibling, (set x: Scope | x in r)`prevSibling, (set x: Scope | x in r)`row
      ensures Row(Without(r, k), p) && Row([s], null) && s.row == [s]
      ensures s.parent == null && s.kids == [] && s.childHead == null && s.childTail == null
    {
      RowParts(r, p);
      CutOut(s, p, r, k);
      hide Row, Closes;
      s.parent, s.childHead, s.childTail := null, null, null;
      s.kids := [];
      forall x | x in r {
        x.row := if x == s then [s] else Without(r, k);
      }
      RowCloses(r, k, p);
      AloneIsRow(s);
    }

    lemma {:induction false} RowParts(r: seq<Scope>, p: Scope?)
      requires Row(r, p)
      ensures Distinct(r) && forall j :: 0 <= j < |r| ==> r[j].parent == p
    {
      forall j | 0 <= j < |r| ensures r[j].parent == p {
        assert Member(r, j, p);
      }
    }

    lemma {:induction false} AloneIsRow(s: Scope)
      requires s.nextSibling == null && s.prevSibling == null && s.row == [s]
      ensures Row([s], s.parent)
    {
      assert Member([s], 0, s.parent);
    }

    // The links of the j-th scope of a row over the place of the k-th.
    ghost predicate Closes(r: seq<Scope>, k: nat, j: nat)
      requires j < |r|
      reads (set x: Scope | x in r)`nextSibling, (set x: Scope | x in r)`prevSibling
    {
      && r[j].nextSibling == ScopeAt(r, if j + 1 == k then k + 1 else j + 1)
      && r[j].prevSibling == ScopeAt(r, if j == k + 1 then k - 1 else j - 1)
    }

    lemma {:induction false} RowCloses(r: seq<Scope>, k: nat, p: Scope?)
      requires k < |r| && Distinct(r) && forall j: nat :: j < |r| && j != k ==> Closes(r, k, j)
      requires forall j: nat :: j < |r| && j != k ==> r[j].row == Without(r, k) && r[j].parent == p
      ensures Row(Without(r, k), p)
    {
      var r' := Without(r, k);
      forall i: nat | i < |r'| ensures Member(r', i, p) {
        assert Closes(r, k, if i < k then i else i + 1);
      }
    }

    // Every row and every list of children is one again, once the k-th scope of its row stands alone.
    twostate lemma RowsHold(s: Scope, new p: Scope, new k: nat)
      requires old(Valid()) && s in old(all) && old(RowApart(s)) && p == old(s.parent) && all == old(all)
      requires k < |old(s.row)| && old(s.row)[k] == s
      requires Row(Without(old(s.row), k), p) && Row([s], null) && s.row == [s] && s.parent == null && s.kids == []
      requires p.kids == (if old(p.kids) == old(s.row) then Without(old(s.row), k) else old(p.kids))
      requires forall x <- all :: x != s ==> x.parent == old(x.parent) && (x != p ==> x.kids == old(x.kids))
      requires forall x <- all :: x !in old(s.row) ==>
                 x.row == old(x.row) && x.nextSibling == old(x.nextSibling) && x.prevSibling == old(x.prevSibling)
      ensures forall x <- all :: Row(x.row, x.parent) && Row(x.kids, x) && x in x.row
      ensures forall x <- all :: (forall y <- x.row :: y in all) && (forall y <- x.kids :: y in all)
      ensures forall x <- all :: x.parent == null ==> x.row == [x]
    {
      EmptyRow(s);
      hide Row;
      ghost var r' := Without(old(s.row), k);
      assert old(ScopeOk(s)) && old(ScopeOk(p));
      assert forall y <- r' :: y in old(s.row) by {
        assert forall i :: 0 <= i < |r'| ==> r'[i] == old(s.row)[if i < k then i else i + 1];
      }
      forall x | x in all
        ensures Row(x.row, x.parent) && Row(x.kids, x) && x in x.row && (x.parent == null ==> x.row == [x])
        ensures (forall y <- x.row :: y in all) && forall y <- x.kids :: y in all
      {
        assert old(ScopeOk(x));
        if x != s && x in old(s.row) {
          Stays(old(s.row), k, x);
          RowOf(r', p, x);
        } else if x != s {
          assert forall y <- x.row :: y !in old(s.row);
        }
      }
    }

    twostate lemma Shrunk(s: Scope, new p: Scope, new k: nat)
      requires old(Valid()) && s in old(all) && old(RowApart(s)) && p == old(s.parent)
      requires k < |old(s.row)| && old(s.row)[k] == s && all == old(all) && root == old(root) && uid == old(uid) && s != root
      requires Row(Without(old(s.row), k), p) && Row([s], null) && s.row == [s]
      requires s.parent == null && s.kids == [] && s.childHead == null && s.childTail == null
      requires p.kids == (if old(p.kids) == old(s.row) then Without(old(s.row), k) else old(p.kids))
      requires p.childHead == ScopeAt(p.kids, 0) && p.childTail == ScopeAt(p.kids, |p.kids| - 1)
      requires forall x <- all :: x != s ==> x.parent == old(x.parent)
      requires forall x <- all :: x != s && x != p ==>
                 x.kids == old(x.kids) && x.childHead == old(x.childHead) && x.childTail == old(x.childTail)
      requires forall x <- all :: x !in old(s.row) ==>
                 x.row == old(x.row) && x.nextSibling == old(x.nextSibling) && x.prevSibling == old(x.prevSibling)
      ensures Valid()
    {
      hide Row, RowApart, Without;
      RowsHold(s, p, k);
      assert old(ScopeOk(s));
      forall x | x in all ensures ScopeOk(x) {
        assert old(ScopeOk(x));
      }
    }

    // $destroy behind its early returns.
    method Detach(s: Scope, parent: Scope, ghost r: seq<Scope>, ghost k: nat)
      requires Valid() && s in all && s != root && parent == s.parent && r == s.row && k < |r| && r[k] == s
      modifies all
      ensures Valid() && all == old(all) && root == old(root) && uid == old(uid)
      ensures s.parent == null && s.kids == []
      ensures forall x <- all :: x != s ==> x.parent == old(x.parent)
      ensures forall x <- all :: x != s && x != parent ==> x.kids == old(x.kids)
      ensures parent.kids == if old(parent.kids) == r then Without(r, k) else old(parent.kids)
    {
      hide *;
      DetachReady(s, parent);
      MoveEnds(s, parent, r, k);
      Unlink(s, parent, r, k);
      Shrunk(s, parent, k);
    }

    lemma {:induction false} DetachReady(s: Scope, parent: Scope)
      requires Valid() && s in all && parent == s.parent
      ensures RowApart(s) && Row(s.row, parent) && parent in all && parent != s && forall x <- s.row :: x in all
      ensures parent.childHead == ScopeAt(parent.kids, 0) && parent.childTail == ScopeAt(parent.kids, |parent.kids| - 1)
      ensures parent.kids == s.row || s !in parent.kids
    {
      assert ScopeOk(s) && ScopeOk(parent);
      RowStandsAlone(s);
    }

    // ----- the subtree and its order ----------------------------------------------------------

    // `s` is reached from `target` through lists of children.
    ghost predicate Within(s: Scope, target: Scope)
      requires Valid() && s in all
      reads this, all
      decreases s.id
    {
      assert ScopeOk(s);
      s == target || (s.parent != null && s.row == s.parent.kids && Within(s.parent, target))
    }

    // A scope before its children, the children in their order.
    ghost function Preorder(s: Scope): seq<Scope>
      requires Valid() && s in all
      reads this, all
      decreases uid - s.id
    {
      assert ScopeOk(s);
      KidsLater(s);
      [s] + Preorders(s, s.kids)
    }

    ghost function Preorders(s: Scope, row: seq<Scope>): seq<Scope>
      requires Valid() && s in all && forall k <- row :: k in all && s.id < k.id < uid
      reads this, all
      decreases uid - s.id, |row|
    {
      if row == [] then [] else Preorder(row[0]) + Preorders(s, row[1..])
    }

    lemma {:induction false} KidsLater(s: Scope)
      requires Valid() && s in all
      ensures s.id < uid && forall k <- s.kids :: k in all && s.id < k.id < uid && k.parent == s && k.row == s.kids
    {
      assert ScopeOk(s);
      forall k | k in s.kids ensures k in all && s.id < k.id < uid && k.parent == s && k.row == s.kids {
        RowOf(s.kids, s, k);
        assert ScopeOk(k);
      }
    }

    // What comes behind the subtree of `c` in the subtree of `target`.
    ghost function Later(c: Scope, target: Scope): seq<Scope>
      requires Valid() && c in all && Within(c, target)
      reads this, all
      decreases c.id
    {
      assert ScopeOk(c);
      if c == target then []
      else
        KidsLater(c.parent);
        Preorders(c.parent, c.row[Position(c.row, c) + 1..]) + Later(c.parent, target)
    }

    lemma {:induction false} RowLinks(c: Scope)
      requires Valid() && c in all
      ensures var k := Position(c.row, c);
              c in c.row && k < |c.row| && c.row[k] == c && c.nextSibling == ScopeAt(c.row, k + 1) && Distinct(c.row)
      ensures c.childHead == ScopeAt(c.kids, 0)
      ensures forall x <- c.row :: x in all && x.row == c.row && x.parent == c.parent
    {
      assert ScopeOk(c);
      assert Member(c.row, Position(c.row, c), c.parent);
      forall x | x in c.row ensures x.row == c.row && x.parent == c.parent {
        RowOf(c.row, c.parent, x);
      }
    }

    // Down to the first child ...
    lemma {:induction false} Descend(c: Scope, target: Scope)
      requires Valid() && c in all && Within(c, target) && c.kids != []
      requires forall k <- c.kids :: k in all && c.id < k.id < uid
      ensures c.kids[0] in all && Within(c.kids[0], target)
      ensures Preorders(c, c.kids) + Later(c, target) == Preorder(c.kids[0]) + Later(c.kids[0], target)
    {
      KidsLater(c);
      var k := c.kids[0];
      RowLinks(k);
      hide ScopeOk, Row;
      assert Position(k.row, k) == 0;
      assert Within(k, target);
      assert k != target by {
        WithinIsLater(c, target);
      }
      Assoc(Preorder(k), Preorders(c, c.kids[1..]), Later(c, target));
    }

    // ... or on to the next sibling ...
    lemma {:induction false} Sideways(c: Scope, target: Scope)
      requires Valid() && c in all && Within(c, target) && c != target && c.nextSibling != null
      ensures c.nextSibling in all && Within(c.nextSibling, target)
      ensures Later(c, target) == Preorder(c.nextSibling) + Later(c.nextSibling, target)
    {
      RowLinks(c);
      var n, k := c.nextSibling, Position(c.row, c);
      assert ScopeOk(c);
      KidsLater(c.parent);
      assert n == c.row[k + 1];
      assert n in c.row;
      PositionIs(c.row, k + 1);
      hide ScopeOk, Row;
      assert n != target by {
        WithinIsLater(c.parent, target);
      }
      var rest := c.row[k + 1..];
      assert rest[1..] == c.row[k + 2..];
      Assoc(Preorder(n), Preorders(c.parent, rest[1..]), Later(c.parent, target));
    }

    // ... or up.
    lemma {:induction false} Upwards(c: Scope, target: Scope)
      requires Valid() && c in all && Within(c, target) && c != target && c.nextSibling == null
      ensures c.parent != null && c.parent in all && c.parent.id < c.id && Within(c.parent, target)
      ensures Later(c, target) == Later(c.parent, target)
    {
      RowLinks(c);
      assert ScopeOk(c);
      KidsLater(c.parent);
      hide ScopeOk, Row;
      assert c.row[Position(c.row, c) + 1..] == [];
    }

    lemma {:induction false} WithinIsLater(s: Scope, target: Scope)
      requires Valid() && s in all && Within(s, target)
      ensures target.id <= s.id && target in all
      decreases s.id
    {
      assert ScopeOk(s);
      if s != target {
        WithinIsLater(s.parent, target);
      }
    }

    lemma {:induction false} Start(target: Scope)
      requires Valid() && target in all
      ensures Within(target, target) && Later(target, target) == []
    {
    }

    lemma {:induction false} Unfold(c: Scope)
      requires Valid() && c in all
      ensures forall k <- c.kids :: k in all && c.id < k.id < uid
      ensures c.id < uid && Preorder(c) == [c] + Preorders(c, c.kids)
      ensures c.kids == [] ==> Preorders(c, c.kids) == []
      ensures c.childHead == ScopeAt(c.kids, 0)
    {
      KidsLater(c);
      RowLinks(c);
    }

    // Where the walk goes after `c`, whose subtree is still to come but for itself.
    method Step(c: Scope, target: Scope) returns (next: Scope?)
      requires Valid() && c in all && Within(c, target)
      requires forall k <- c.kids :: k in all && c.id < k.id < uid
      ensures next == null ==> Preorders(c, c.kids) + Later(c, target) == []
      ensures next != null ==>
                && next in all && Within(next, target)
                && Preorders(c, c.kids) + Later(c, target) == Preorder(next) + Later(next, target)
    {
      hide *;
      Unfold(c);
      FirstOf(c.kids);
      ghost var rest := Later(c, target);
      WithinIsLater(c, target);
      Start(target);
      assert [] + rest == rest;
      if c.childHead != null {
        next := c.childHead;
        Descend(c, target);
      } else if c != target && c.nextSibling != null {
        next := c.nextSibling;
        Sideways(c, target);
      } else {
        next := null;
        var current := c;
        while current != target
          invariant current in all && Within(current, target) && Later(current, target) == rest && next == null
          decreases current.id
        {
          next := current.nextSibling;
          if next != null {
            Sideways(current, target);
            break;
          }
          Upwards(current, target);
          current := current.parent;
        }
      }
    }

    // ----- each scope of the subtree, once ------------------------------------------------------

    lemma {:induction false} WithinOne(k: Scope, s: Scope)
      requires Valid() && s in all && k in s.kids
      ensures k in all && Within(k, s) && k.parent == s && s.id < k.id < uid
    {
      KidsLater(s);
      assert Within(s, s);
    }

    lemma {:induction false} WithinMore(x: Scope, k: Scope, s: Scope)
      requires Valid() && x in all && k in all && Within(x, k) && Within(k, s)
      ensures Within(x, s)
      decreases x.id
    {
      assert ScopeOk(x);
      if x != k {
        WithinMore(x.parent, k, s);
      }
    }

    // No scope is below two children of one scope.
    lemma {:induction false} OneKid(x: Scope, s: Scope, a: Scope, b: Scope)
      requires Valid() && x in all && s in all && a in s.kids && b in s.kids
      requires a in all && b in all && Within(x, a) && Within(x, b)
      ensures a == b
      decreases x.id
    {
      WithinOne(a, s);
      WithinOne(b, s);
      assert ScopeOk(x);
      if x != a && x != b {
        OneKid(x.parent, s, a, b);
      } else if a != b {
        WithinIsLater(s, if x == a then b else a);
      }
    }

    // The child of `s` that `x` is below.
    lemma {:induction false} BelowKid(x: Scope, s: Scope) returns (k: Scope)
      requires Valid() && x in all && s in all && Within(x, s) && x != s
      ensures k in s.kids && k in all && Within(x, k)
      decreases x.id
    {
      assert ScopeOk(x);
      assert x in x.row;
      if x.parent == s {
        k := x;
      } else {
        k := BelowKid(x.parent, s);
      }
    }

    // Below one of the scopes of a row.
    ghost predicate WithinSome(x: Scope, row: seq<Scope>)
      requires Valid() && x in all && forall k <- row :: k in all
      reads this, all
    {
      exists k <- row :: Within(x, k)
    }

    lemma {:induction false} VisitsRow(s: Scope, row: seq<Scope>)
      requires Valid() && s in all && Distinct(row) && forall k <- row :: k in s.kids
      requires forall k <- row :: k in all && s.id < k.id < uid
      ensures Distinct(Preorders(s, row))
      ensures forall x :: x in Preorders(s, row) <==> x in all && WithinSome(x, row)
      decreases uid - s.id, |row|
    {
      hide ScopeOk, Row, Within;
      if row != [] {
        var k, rest := row[0], row[1..];
        assert k in row;
        VisitsOnce(k);
        VisitsRow(s, rest);
        var first, more := Preorder(k), Preorders(s, rest);
        hide Preorder, Preorders;
        forall x | x in first ensures x !in more {
          if x in more {
            assert WithinSome(x, rest);
            var i :| 0 <= i < |rest| && Within(x, rest[i]);
            assert rest[i] == row[i + 1];
            OneKid(x, s, k, rest[i]);
          }
        }
        DistinctSum(first, more);
        assert forall y :: y in row <==> y == k || y in rest;
      }
    }

    // A broadcast reaches every scope of the subtree, each once, and no other.
    lemma {:induction false} VisitsOnce(s: Scope)
      requires Valid() && s in all
      ensures Distinct(Preorder(s)) && forall x :: x in Preorder(s) <==> x in all && Within(x, s)
      decreases uid - s.id
    {
      Unfold(s);
      KidsDistinct(s);
      VisitsRow(s, s.kids);
      hide ScopeOk, Row, Preorders;
      Start(s);
      forall x | x in all ensures Within(x, s) <==> x == s || exists k <- s.kids :: Within(x, k) {
        if Within(x, s) && x != s {
          var k := BelowKid(x, s);
        }
        forall k | k in s.kids && Within(x, k) ensures Within(x, s) {
          WithinOne(k, s);
          WithinMore(x, k, s);
        }
      }
      forall k | k in s.kids ensures !Within(s, k) {
        WithinOne(k, s);
        if Within(s, k) {
          WithinIsLater(s, k);
        }
      }
      DistinctSum([s], Preorders(s, s.kids));
    }

    lemma {:induction false} KidsDistinct(s: Scope)
      requires Valid() && s in all
      ensures Distinct(s.kids)
    {
      assert ScopeOk(s);
    }

    // $broadcast visits the subtree of the target in preorder.
    method Broadcast(target: Scope) returns (visited: seq<Scope>)
      requires Valid() && target in all
      ensures visited == Preorder(target)
    {
      hide *;
      visited := [];
      var current := target;
      ghost var whole := Preorder(target);
      Start(target);
      assert [] + (whole + []) == whole;
      while true
        invariant current in all && Within(current, target)
        invariant visited + (Preorder(current) + Later(current, target)) == whole
        decreases |whole| - |visited|
      {
        // The scope is visited: its listeners run.
        Unfold(current);
        ghost var more := Preorders(current, current.kids) + Later(current, target);
        Assoc([current], Preorders(current, current.kids), Later(current, target));
        Assoc(visited, [current], more);
        visited := visited + [current];
        var next := Step(current, target);
        assert visited + more == whole && |visited| <= |whole|;
        if next == null {
          assert visited + [] == visited;
          return;
        }
        current := next;
      }
    }

    // What was below a destroyed scope is out of reach of the root.
    twostate lemma Silenced(s: Scope, new x: Scope)
      requires old(Valid()) && Valid() && all == old(all) && s in all && x in all && old(Within(x, s))
      requires s != root && s.parent == null && s.kids == [] && forall y <- all :: y != s ==> y.parent == old(y.parent)
      ensures !Within(x, root)
      decreases x.id
    {
      assert ScopeOk(x) && old(ScopeOk(x));
      if x != s && x.parent != s {
        Silenced(s, x.parent);
      }
    }

    // $destroy takes the scope out of its row; `ok` is false when it throws because the scope has no
    // parent any more.
    method Destroy(s: Scope) returns (ok: bool, visited: seq<Scope>)
      requires Valid() && s in all
      modifies all
      ensures Valid() && all == old(all) && root == old(root) && uid == old(uid)
      ensures ok <==> s == root || old(s.parent) != null
      ensures visited == if s == root then [] else old(Preorder(s))
      ensures s == root || !ok ==> forall x <- all :: x.parent == old(x.parent) && x.kids == old(x.kids)
      ensures s != root && ok ==>
                && s.parent == null && s.kids == [] && (forall x <- visited :: x in all && !Within(x, root))
                && (forall x <- all :: x != s ==> x.parent == old(x.parent))
                && (forall x <- all :: x != s && x != old(s.parent) ==> x.kids == old(x.kids))
                && (forall x <- all :: x == old(s.parent) ==> TakenOut(old(x.kids), s, x.kids))
    {
      visited := [];
      if root == s {
        return true, visited;
      }
      var parent := s.parent;
      assert allocated(Preorder(s));
      VisitsOnce(s);
      visited := Broadcast(s);
      if parent == null {
        return false, visited;
      }
      assert ScopeOk(s);
      ghost var r := s.row;
      ghost var k :| 0 <= k < |r| && r[k] == s;
      DetachReady(s, parent);
      hide ScopeOk, TakenOut;
      Detach(s, parent, r, k);
      Taken(r, k, s, old(parent.kids), parent.kids);
      forall x | x in visited ensures x in all && !Within(x, root) {
        assert x in old(Preorder(s)) && old(Within(x, s));
        Silenced(s, x);
      }
      ok := true;
    }
  }

  ghost function Position(r: seq<Scope>, x: Scope): (k: nat)
    requires x in r
    ensures k < |r| && r[k] == x
  {
    if r[0] == x then 0 else 1 + Position(r[1..], x)
  }

  lemma {:induction false} FirstOf(r: seq<Scope>)
    ensures ScopeAt(r, 0) == if r == [] then null else r[0]
  {
  }

  lemma {:induction false} DistinctSum(a: seq<Scope>, b: seq<Scope>)
    requires Distinct(a) && Distinct(b) && forall x <- a :: x !in b
    ensures Distinct(a + b)
  {
    forall i, j | 0 <= i < j < |a + b| ensures (a + b)[i] != (a + b)[j] {
      assert i < |a| ==> (a + b)[i] in a;
      assert j >= |a| ==> (a + b)[j] in b;
    }
  }

  lemma {:induction false} PositionIs(r: seq<Scope>, k: nat)
    requires k < |r| && Distinct(r)
    ensures r[k] in r && Position(r, r[k]) == k
  {
    assert r[Position(r, r[k])] == r[k];
  }

  lemma {:induction false} Assoc(a: seq<Scope>, b: seq<Scope>, c: seq<Scope>)
    ensures a + b + c == a + (b + c)
  {
  }

  // `now` is `was` without `x`, which it may hold once.
  ghost predicate TakenOut(was: seq<Scope>, x: Scope, now: seq<Scope>) {
    if x in was then exists k :: 0 <= k < |was| && was[k] == x && now == Without(was, k) else now == was
  }

  lemma {:induction false} Taken(r: seq<Scope>, k: nat, x: Scope, was: seq<Scope>, now: seq<Scope>)
    requires k < |r| && r[k] == x && (was == r || x !in was) && now == if was == r then Without(r, k) else was
    ensures TakenOut(was, x, now)
  {
  }

  lemma {:induction false} Stays(r: seq<Scope>, k: nat, x: Scope)
    requires k < |r| && x in r && x != r[k]
    ensures x in Without(r, k)
  {
    var i :| 0 <= i < |r| && r[i] == x;
    assert Without(r, k)[if i < k then i else i - 1] == x;
  }

  ghost function Without(s: seq<Scope>, k: nat): seq<Scope>
    requires k < |s|
  {
    s[..k] + s[k + 1..]
  }

  lemma {:induction false} EmptyRow(parent: Scope?)
    ensures Row([], parent)
  {
  }

  lemma {:induction false} RowOf(r: seq<Scope>, parent: Scope?, y: Scope)
    requires Row(r, parent) && y in r
    ensures y.row == r && y.parent == parent
  {
    var i :| 0 <= i < |r| && r[i] == y;
    assert Member(r, i, parent);
  }
}
