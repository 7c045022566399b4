/**
The recursive-descent parser as loops that fill cJSON nodes.
*/
module JsonParser {
  import opened CInts
  import opened CStrings
  import opened JsonText
  import opened JsonParse
  import opened JsonDocs
  import opened JsonLists
  import opened JsonNames
  import opened JsonNodes
  import opened JsonOwnership
  import opened JsonStrings

  // What the C functions return: the byte behind what was read, or 0.
  datatype Cursor = Behind(i: nat) | Failed

  ghost function CursorOf<T>(r: Parsed<T>): Cursor {
    if r.Ok? then Behind(r.next) else Failed
  }

  // ----- white space --------------------------------------------------------------------------

  method SkipSpace(t: CString, i: nat) returns (j: nat)
    requires i <= |t|
    ensures j == Skip(t, i)
  {
    j := i;
    while At(t, j) != NUL && At(t, j) as int <= 32
      invariant i <= j <= |t| && Skip(t, j) == Skip(t, i)
      decreases |t| - j
    {
      j := j + 1;
    }
    assert j < |t| ==> t[j] in t;
  }

  // ----- numbers ------------------------------------------------------------------------------

  // The digits from `i` on, read into a number.
  method ReadDigits(t: CString, i: nat, n: int) returns (m: int, j: nat)
    requires i <= |t|
    ensures j == DigitsEnd(t, i) && m == Accumulate(n, t, i, j)
  {
    m, j := n, i;
    while IsDigit(At(t, j))
      invariant i <= j <= |t| && DigitsEnd(t, j) == DigitsEnd(t, i)
      invariant Accumulate(n, t, i, DigitsEnd(t, i)) == Accumulate(m, t, j, DigitsEnd(t, i))
      decreases |t| - j
    {
      m := m * 10 + DigitValue(At(t, j));
      j := j + 1;
    }
  }

  // The sign and the integer part.
  method ReadWhole(t: CString, i: nat) returns (n: int, sign: int, num: nat)
    requires i <= |t|
    ensures ParseWhole(t, i) == (NumberParts(n, sign, 0, 0, 1), num) && num <= |t|
  {
    n, sign, num := 0, 1, i;
    if At(t, num) == '-' {
      sign, num := -1, num + 1;
    }
    if At(t, num) == '0' {
      num := num + 1;
    }
    if '1' <= At(t, num) <= '9' {
      n, num := ReadDigits(t, num, n);
    }
  }

  method ReadFraction(t: CString, i: nat, n: int, ghost sign: int) returns (m: int, scale: int, num: nat)
    requires i <= |t| && !ParseFraction(t, i, NumberParts(n, sign, 0, 0, 1)).Stray?
    ensures ParseFraction(t, i, NumberParts(n, sign, 0, 0, 1)) == Ok(NumberParts(m, sign, scale, 0, 1), num) && num <= |t|
  {
    m, scale, num := n, 0, i;
    if At(t, num) == '.' {
      num := num + 1;
      // the body of do ... while comes first, whatever the byte is
      m := m * 10 + DigitValue(At(t, num));
      var end;
      m, end := ReadDigits(t, num + 1, m);
      scale, num := -(end - num), end;
    }
  }

  method ReadExponent(t: CString, i: nat, ghost p: NumberParts) returns (subscale: int, signsubscale: int, num: nat)
    requires i <= |t| && p.subscale == 0 && p.signsubscale == 1
    ensures ParseExponent(t, i, p) == (p.(subscale := subscale, signsubscale := signsubscale), num) && num <= |t|
  {
    subscale, signsubscale, num := 0, 1, i;
    if At(t, num) == 'e' || At(t, num) == 'E' {
      num := num + 1;
      if At(t, num) == '+' {
        num := num + 1;
      } else if At(t, num) == '-' {
        signsubscale, num := -1, num + 1;
      }
      subscale, num := ReadDigits(t, num, subscale);
    }
  }

  // parse_number
  method ReadNumber(item: Node, t: CString, i: nat) returns (r: Cursor)
    requires i <= |t| && !ParseNumber(t, i).Stray?
    modifies item`kind, item`mantissa, item`exponent
    ensures r == CursorOf(ParseNumber(t, i))
    ensures item.kind == NumberKind && Number(item.mantissa, item.exponent) == ParseNumber(t, i).value
  {
    hide ParseWhole, ParseFraction, ParseExponent;
    var n, sign, num := ReadWhole(t, i);
    var scale, subscale, signsubscale;
    n, scale, num := ReadFraction(t, num, n, sign);
    subscale, signsubscale, num := ReadExponent(t, num, NumberParts(n, sign, scale, 0, 1));
    item.kind := NumberKind;
    item.mantissa, item.exponent := sign * n, scale + subscale * signsubscale;
    r := Behind(num);
  }

  // ----- strings ------------------------------------------------------------------------------

  lemma {:induction false} MeasureStep(t: CString, p: nat, len: nat)
    requires p <= |t| && !Measure(t, p).Stray? && At(t, p) != '\"' && p < |t|
    ensures var q := if t[p] == '\\' then p + 2 else p + 1;
            q <= |t| && Measure(t, q).Ok? && Measure(t, p) == Ok(Measure(t, q).value + 1, Measure(t, q).next)
  {
  }

  // The measuring loop: it counts one for each byte, but skips what follows a backslash.  The count
  // and one more stay within an int.
  method MeasureLiteral(t: CString, start: nat) returns (len: Int)
    requires start <= |t| && Measure(t, start).Ok? && Measure(t, start).value < INT_MAX
    ensures len == Measure(t, start).value && 0 <= len < INT_MAX
  {
    var ptr := start;
    len := 0;
    while At(t, ptr) != '\"' && ptr < |t|
      invariant start <= ptr <= |t| && Measure(t, ptr).Ok? && 0 <= len
      invariant len + Measure(t, ptr).value == Measure(t, start).value
      decreases |t| - ptr
    {
      MeasureStep(t, ptr, len);
      len := len + 1;
      ptr := if t[ptr] == '\\' then ptr + 2 else ptr + 1;
    }
  }

  // The fall-through switch: `uc` in UTF-8, written back to front.
  method WriteCode(out: array<char>, w: nat, uc: nat) returns (w': nat)
    requires w + |Transcode(uc)| <= out.Length
    modifies out
    ensures w' == w + |Transcode(uc)| && out[..w'] == old(out[..w]) + Transcode(uc)
  {
    hide Continuation, Leading;
    var len := 3;
    if uc < 0x80 {
      len := 1;
    } else if uc < 0x800 {
      len := 2;
    }
    w' := w + len;
    var ptr, rest := w', uc;
    if len >= 3 {
      ptr := ptr - 1;
      out[ptr] := Continuation(rest);
      rest := rest / 64;
    }
    if len >= 2 {
      ptr := ptr - 1;
      out[ptr] := Continuation(rest);
      rest := rest / 64;
    }
    ptr := ptr - 1;
    out[ptr] := Leading(rest, if len == 1 then 0x00 else if len == 2 then 0xC0 else 0xE0);
  }

  lemma {:induction false} DecodeStep(t: CString, p: nat)
    requires p < |t| && t[p] != '\"' && Decode(t, p).Ok?
    ensures t[p] != '\\' ==> Decode(t, p + 1).Ok? && Decode(t, p) == Ok([t[p]] + Decode(t, p + 1).value, Decode(t, p + 1).next)
    ensures t[p] == '\\' ==> p + 1 < |t|
    ensures t[p] == '\\' && t[p + 1] == 'u' ==>
              && p + 6 <= |t| && IsHex(t[p + 2]) && IsHex(t[p + 3]) && IsHex(t[p + 4]) && IsHex(t[p + 5])
              && Decode(t, p + 6).Ok?
              && Decode(t, p) == Ok(Transcode(HexNumber(t[p + 2], t[p + 3], t[p + 4], t[p + 5])) + Decode(t, p + 6).value,
                                    Decode(t, p + 6).next)
    ensures t[p] == '\\' && t[p + 1] != 'u' ==>
              Decode(t, p + 2).Ok? && Decode(t, p) == Ok([Unescaped(t[p + 1])] + Decode(t, p + 2).value, Decode(t, p + 2).next)
  {
    hide Transcode, HexNumber, Unescaped, IsHex;
  }

  // The body of the decoding loop.
  method DecodeOne(t: CString, ptr: nat, out: array<char>, w: nat) returns (ptr': nat, w': nat)
    requires ptr < |t| && t[ptr] != '\"' && Decode(t, ptr).Ok? && w + |Decode(t, ptr).value| < out.Length
    modifies out
    ensures ptr < ptr' <= |t| && Decode(t, ptr').Ok? && Decode(t, ptr').next == Decode(t, ptr).next
    ensures w' <= w + |Decode(t, ptr).value| && out[..w'] + Decode(t, ptr').value == old(out[..w]) + Decode(t, ptr).value
  {
    hide *;
    DecodeStep(t, ptr);
    if t[ptr] != '\\' {
      w' := Put(out, w, t[ptr]);
      ptr' := ptr + 1;
    } else if t[ptr + 1] == 'u' {
      var uc := HexNumber(t[ptr + 2], t[ptr + 3], t[ptr + 4], t[ptr + 5]);
      w' := WriteCode(out, w, uc);
      ptr' := ptr + 6;
    } else {
      w' := Put(out, w, Unescaped(t[ptr + 1]));
      ptr' := ptr + 2;
    }
  }

  // The decoding loop stays within the bytes that were measured.
  method DecodeLiteral(t: CString, start: nat, out: array<char>) returns (ptr: nat, w: nat)
    requires start <= |t| && Measure(t, start).Ok? && Decode(t, start).Ok? && out.Length == Measure(t, start).value + 1
    modifies out
    ensures w < out.Length && Ok(out[..w], ptr) == Decode(t, start)
  {
    DecodeFits(t, start);
    hide Measure;
    ptr, w := start, 0;
    assert out[..0] == [];
    while At(t, ptr) != '\"' && ptr < |t|
      invariant start <= ptr <= |t| && 0 <= w < out.Length && Decode(t, ptr).Ok?
      invariant Decode(t, ptr).next == Decode(t, start).next
      invariant out[..w] + Decode(t, ptr).value == Decode(t, start).value
      decreases |t| - ptr
    {
      hide Decode;
      LengthsAdd(out[..w], Decode(t, ptr).value, Decode(t, start).value);
      ptr, w := DecodeOne(t, ptr, out, w);
    }
    assert Decode(t, ptr) == Ok([], ptr) && out[..w] + [] == out[..w];
  }

  lemma {:induction false} LengthsAdd(a: string, b: string, c: string)
    requires a + b == c
    ensures |a| + |b| == |c|
  {
  }

  // ----- pictures of what has been built ------------------------------------------------------

  ghost predicate NoReferences(sh: Shape)
    decreases sh
  {
    !sh.reference && forall k <- sh.kids :: NoReferences(k)
  }

  // Without references the two views agree.
  lemma {:induction false} ShallowIsDeep(sh: Shape)
    requires NoReferences(sh) && Mirrors(sh, false)
    ensures Mirrors(sh, true)
    decreases sh
  {
    hide Nodes, NodesOf, Below;
    forall k | k in sh.kids ensures Mirrors(k, true) {
      ShallowIsDeep(k);
    }
  }

  // A node whose value has not been read yet.
  ghost predicate Blank(item: Node)
    reads item
  {
    item.child == null && item.text == null && !item.reference
  }

  // The node as it stands, over these children.
  ghost function Picture(item: Node, kids: seq<Shape>): Shape
    reads item
  {
    Shape(item, item.kind, item.reference, item.text, item.name, item.mantissa, item.exponent, kids)
  }

  // What reading a value adds to the node it is read into.
  ghost function Grown(sh: Shape): set<object> {
    Opt(sh.text) + OwnedOf(sh.kids)
  }

  // parse_string
  method ReadString(heap: Heap, item: Node, t: CString, i: nat) returns (r: Cursor)
    requires i <= |t| && !ParseString(t, i).Stray?
    modifies heap, item`kind, item`text
    ensures r == CursorOf(ParseString(t, i))
    ensures r.Failed? ==> item.kind == old(item.kind) && item.text == old(item.text) && heap.live == old(heap.live)
    ensures r.Behind? ==>
              && item.kind == StringKind && item.text != null && fresh(item.text)
              && item.text.text == ParseString(t, i).value && heap.live == old(heap.live) + {item.text}
  {
    if At(t, i) != '\"' {
      return Failed;
    }
    hide Measure, Decode, UpToNul;
    var len := MeasureLiteral(t, i + 1);
    var out := new char[len + 1];
    var ptr, w := DecodeLiteral(t, i + 1, out);
    out[w] := NUL;
    assert out[..w] == Decode(t, i + 1).value;
    if At(t, ptr) == '\"' {
      ptr := ptr + 1;
    }
    var text := new Chars(UpToNul(out[..w]));
    heap.Malloc(text);
    item.text := text;
    item.kind := StringKind;
    r := Behind(ptr);
  }

  // ----- children -----------------------------------------------------------------------------

  // The children read so far, as they hang below the node being filled.
  ghost predicate Growing(item: Node, kids: seq<Shape>)
    reads item`child, NodesOf(kids, false)
  {
    && (RootsBelow(kids, false); Chain(item.child, Roots(kids)))
    && AllMirror(kids, false) && Forest(kids) && item !in NodesOf(kids, false)
  }

  // The next child: a new node behind the last one.
  method AddChild(heap: Heap, item: Node, last: Node?, ghost kids: seq<Shape>) returns (child: Node)
    requires Growing(item, kids) && last == NodeAt(Roots(kids), |kids| - 1)
    modifies heap, item`child, (if last == null then {} else {last})`next
    ensures fresh(child) && heap.live == old(heap.live) + {child} && Blank(child) && child.name == null && child.next == null
    ensures Chain(item.child, Roots(kids) + [child]) && AllMirror(kids, false)
  {
    hide Mirrors, AllMirror, Forest, Nodes, NodesOf, Below, Chain, Roots;
    assert allocated(NodesOf(kids, false)) && forall k <- kids :: allocated(Below(k, false));
    MirrorEach(kids, false);
    LastIsRoot(item, kids);
    child := new Node();
    heap.Malloc(child);
    LinkLast(item, last, child, Roots(kids));
    forall k | k in kids ensures Mirrors(k, false) {
      assert old(Mirrors(k, false));
    }
    MirrorEach(kids, false);
  }

  lemma {:induction false} LastIsRoot(item: Node, kids: seq<Shape>)
    requires item !in NodesOf(kids, false) && Forest(kids)
    ensures forall k <- kids :: item != k.node && item !in Below(k, false)
    ensures kids != [] ==> forall k <- kids :: Roots(kids)[|kids| - 1] !in Below(k, false)
  {
    hide *;
    OutsideEach(item, kids, false);
    forall k | k in kids ensures Roots(kids)[|kids| - 1] !in Below(k, false) {
      var j :| 0 <= j < |kids| && kids[j] == k;
      RootsApart(kids, |kids| - 1, j);
    }
  }

  // The first child hangs below its parent, each other one behind its sibling.
  method LinkLast(item: Node, last: Node?, child: Node, ghost nodes: seq<Node>)
    requires Chain(item.child, nodes) && last == NodeAt(nodes, |nodes| - 1)
    requires child !in nodes && child.next == null && child.prev == null
    modifies item`child, child`prev, (if last == null then {} else {last})`next
    ensures Chain(item.child, nodes + [child])
  {
    AllDistinct(item.child, nodes);
    if last == null {
      item.child := child;
    } else {
      last.next := child;
      child.prev := last;
    }
    forall k: nat | k < |nodes| + 1 ensures LinkAt(nodes + [child], k) {
      if k < |nodes| {
        assert old(LinkAt(nodes, k));
      }
    }
  }

  // ----- values -------------------------------------------------------------------------------

  // What is left of a node a value was read into, whether or not reading came to an end.
  ghost predicate Built(sh: Shape)
    reads sh.node, Below(sh, false)
  {
    && Mirrors(sh, false) && NoReferences(sh) && Forest(sh.kids)
    && Opt(sh.text) !! OwnedOf(sh.kids) && sh.node !in OwnedOf(sh.kids)
  }

  // parse_value
  method ReadItem(heap: Heap, item: Node, t: CString, i: nat) returns (r: Cursor, ghost sh: Shape)
    requires i <= |t| && !ParseValue(t, i).Stray? && Blank(item)
    modifies heap, item`kind, item`text, item`child, item`mantissa, item`exponent
    ensures r == CursorOf(ParseValue(t, i)) && sh == Picture(item, sh.kids) && Built(sh)
    ensures heap.live == old(heap.live) + Grown(sh) && forall o <- Grown(sh) :: fresh(o)
    ensures r.Behind? ==> Named(sh) && ValueOf(sh) == ParseValue(t, i).value
    decreases |t| - i, 1
  {
    hide *;
    BlankIs(item);
    CursorIs(ParseValue(t, i));
    WordStands(t, i);
    WordIs(t, i);
    if !IsWord(t, i) {
      ValueCases(t, i);
    }
    if Stands(t, i, "null") {
      item.kind := NullKind;
      r := Behind(i + 4);
    } else if Stands(t, i, "false") {
      item.kind := FalseKind;
      r := Behind(i + 5);
    } else if Stands(t, i, "true") {
      item.kind := TrueKind;
      r := Behind(i + 4);
    } else if At(t, i) == '\"' {
      r := ReadString(heap, item, t, i);
      CursorIs(ParseString(t, i));
    } else if StartsNumber(At(t, i)) {
      r := ReadNumber(item, t, i);
      CursorIs(ParseNumber(t, i));
    } else if At(t, i) == '[' {
      r, sh := ReadArray(heap, item, t, i);
      return;
    } else if At(t, i) == '{' {
      r, sh := ReadObject(heap, item, t, i);
      return;
    } else {
      r := Failed;
    }
    sh := Picture(item, []);
    Leaf(item);
  }

  // A node without children.
  lemma {:induction false} Leaf(item: Node)
    requires item.child == null && !item.reference
    ensures Built(Picture(item, [])) && Picture(item, []).kids == []
    ensures Grown(Picture(item, [])) == if item.text == null then {} else {item.text}
    ensures (item.kind == StringKind ==> item.text != null) ==> Named(Picture(item, []))
    ensures item.kind == NullKind ==> ValueOf(Picture(item, [])) == Null
    ensures item.kind == FalseKind ==> ValueOf(Picture(item, [])) == False
    ensures item.kind == TrueKind ==> ValueOf(Picture(item, [])) == True
    ensures item.kind == NumberKind ==> ValueOf(Picture(item, [])) == Number(item.mantissa, item.exponent)
    ensures item.kind == StringKind && item.text != null ==> ValueOf(Picture(item, [])) == Str(item.text.text)
    ensures item.kind == ArrayKind ==> ValueOf(Picture(item, [])) == Arr([])
    ensures item.kind == ObjectKind ==> ValueOf(Picture(item, [])) == Obj([])
  {
  }

  lemma {:induction false} BlankIs(item: Node)
    ensures Blank(item) <==> item.child == null && item.text == null && !item.reference
  {
  }

  lemma {:induction false} CursorIs<T>(r: Parsed<T>)
    ensures CursorOf(r) == if r.Ok? then Behind(r.next) else Failed
  {
  }

  lemma {:induction false} WordIs(t: CString, i: nat)
    ensures IsWord(t, i) <==> Stands(t, i, "null") || Stands(t, i, "false") || Stands(t, i, "true")
  {
    hide Stands;
  }

  ghost predicate IsWord(t: CString, i: nat) {
    Stands(t, i, "null") || Stands(t, i, "false") || Stands(t, i, "true")
  }

  // parse_value behind the three words.
  lemma {:induction false} ValueCases(t: CString, i: nat)
    requires i <= |t| && !IsWord(t, i)
    ensures At(t, i) == '\"' ==>
              && ParseString(t, i).Stray? == ParseValue(t, i).Stray? && ParseString(t, i).Ok? == ParseValue(t, i).Ok?
              && (ParseString(t, i).Ok? ==> ParseValue(t, i) == Ok(Str(ParseString(t, i).value), ParseString(t, i).next))
    ensures At(t, i) != '\"' && StartsNumber(At(t, i)) ==> ParseValue(t, i) == ParseNumber(t, i)
    ensures At(t, i) != '\"' && !StartsNumber(At(t, i)) && At(t, i) != '[' && At(t, i) != '{' ==> ParseValue(t, i).Fail?
    ensures !StartsNumber('[') && !StartsNumber('{')
  {
    hide ParseString, ParseNumber, Stands, Skip, ParseItems, ParseMembers;
  }

  // ... and the white space behind it.
  ghost function AfterValue(t: CString, r: Parsed<Json>): Cursor {
    if r.Ok? && r.next <= |t| then Behind(Skip(t, r.next)) else Failed
  }

  // One element, with the white space before and behind it, into a node of its own.
  method ReadElement(heap: Heap, item: Node, last: Node?, t: CString, p: nat, ghost kids: seq<Shape>)
    returns (r: Cursor, child: Node, ghost kid: Shape)
    requires p <= |t| && !ParseValue(t, Skip(t, p)).Stray?
    requires last == NodeAt(Roots(kids), |kids| - 1) && Growing(item, kids)
    modifies heap, item`child, (if last == null then {} else {last})`next
    ensures r == AfterValue(t, ParseValue(t, Skip(t, p)))
    ensures r.Behind? ==> ParseValue(t, Skip(t, p)).Ok? && Named(kid) && ValueOf(kid) == ParseValue(t, Skip(t, p)).value
    ensures child == kid.node && fresh(child) && NoReferences(kid) && forall o <- Owned(kid) :: fresh(o)
    ensures heap.live == old(heap.live) + Owned(kid) && OwnedOf(kids + [kid]) == OwnedOf(kids) + Owned(kid)
    ensures child == NodeAt(Roots(kids + [kid]), |kids|) && Growing(item, kids + [kid])
    decreases |t| - p, 2
  {
    hide *;
    assert allocated(NodesOf(kids, false)) && allocated(OwnedOf(kids));
    GrowingIs(item, kids);
    child := AddChild(heap, item, last, kids);
    var q := SkipSpace(t, p);
    assert q == Skip(t, p);
    r, kid := ReadItem(heap, child, t, q);
    AfterIs(t, ParseValue(t, q));
    PictureIs(child, kid);
    BuiltTree(kid);
    NodesAreOwned(kid);
    Grew(item, kids, child, kid);
    assert allocated(NodesOf(kids + [kid], false));
    if r.Behind? {
      var k := SkipSpace(t, r.i);
      r := Behind(k);
    }
  }

  lemma {:induction false} GrowingIs(item: Node, kids: seq<Shape>)
    requires Growing(item, kids)
    ensures Forest(kids) && item !in NodesOf(kids, false) && AllMirror(kids, false) && Chain(item.child, Roots(kids))
  {
  }

  lemma {:induction false} PictureIs(item: Node, sh: Shape)
    requires sh == Picture(item, sh.kids)
    ensures sh.node == item && sh.name == item.name && sh.text == item.text && sh.kind == item.kind
  {
  }

  lemma {:induction false} AfterIs(t: CString, r: Parsed<Json>)
    requires r.Ok? ==> r.next <= |t|
    ensures CursorOf(r) == (if r.Ok? then Behind(r.next) else Failed)
    ensures AfterValue(t, r) == if r.Ok? then Behind(Skip(t, r.next)) else Failed
  {
  }

  lemma {:induction false} BuiltTree(sh: Shape)
    requires Built(sh) && (sh.name != null ==> sh.name != sh.text && sh.name !in OwnedOf(sh.kids))
    ensures Tree(sh) && Mirrors(sh, false) && NoReferences(sh) && !sh.reference
    ensures Owned(sh) == {sh.node} + Opt(sh.name) + Grown(sh)
    ensures sh.name == null ==> Owned(sh) == {sh.node} + Grown(sh)
  {
    hide Mirrors, Below, Forest, OwnedOf;
    OwnedUnfold(sh);
    hide Owned;
    assert !sh.reference;
    MakeTree(sh);
  }

  lemma {:induction false} Grew(item: Node, kids: seq<Shape>, child: Node, kid: Shape)
    requires Chain(item.child, Roots(kids) + [child]) && AllMirror(kids, false) && Forest(kids)
    requires item !in NodesOf(kids, false) && kid.node == child && Mirrors(kid, false) && Tree(kid)
    requires OwnedOf(kids) !! Owned(kid) && item !in Nodes(kid, false)
    ensures Growing(item, kids + [kid]) && OwnedOf(kids + [kid]) == OwnedOf(kids) + Owned(kid)
    ensures child == NodeAt(Roots(kids + [kid]), |kids|)
  {
    hide *;
    RootsMore(kids, kid);
    ForestMore(kids, kid);
    AllMirrorMore(kids, kid);
    NodesOfMore(kids, kid, false);
    MakeGrowing(item, kids + [kid]);
    NodeIs(Roots(kids + [kid]), |kids|);
  }

  lemma {:induction false} AllMirrorMore(kids: seq<Shape>, x: Shape)
    requires AllMirror(kids, false) && Mirrors(x, false)
    ensures AllMirror(kids + [x], false)
  {
  }

  lemma {:induction false} RootsMore(kids: seq<Shape>, x: Shape)
    ensures Roots(kids + [x]) == Roots(kids) + [x.node]
  {
  }

  lemma {:induction false} NodeIs(nodes: seq<Node>, k: nat)
    requires k < |nodes|
    ensures NodeAt(nodes, k) == nodes[k]
  {
  }

  lemma {:induction false} MakeGrowing(item: Node, kids: seq<Shape>)
    requires Forest(kids) && item !in NodesOf(kids, false) && AllMirror(kids, false) && Chain(item.child, Roots(kids))
    ensures Growing(item, kids)
  {
  }

  // ----- arrays -------------------------------------------------------------------------------

  // What is still to come behind the elements read so far.
  ghost function RestOf(vs: seq<Json>, t: CString, r: Cursor): Parsed<seq<Json>>
    requires r.Behind? ==> r.i <= |t|
  {
    match r
    case Failed => Fail
    case Behind(k) =>
      if At(t, k) != ',' then Ok(vs, k)
      else
        match ParseItems(t, k + 1)
        case Ok(more, n) => Ok(vs + more, n)
        case Fail => Fail
        case Stray => Stray
  }

  lemma {:induction false} FirstItem(t: CString, k: nat)
    requires k <= |t| && !ParseItems(t, k).Stray?
    ensures !ParseValue(t, Skip(t, k)).Stray?
    ensures var v := ParseValue(t, Skip(t, k));
            && ParseItems(t, k) == RestOf(if v.Ok? then [v.value] else [], t, AfterValue(t, v))
            && (!v.Ok? ==> ParseItems(t, k).Fail?)
  {
    hide ParseValue, Skip;
  }

  lemma {:induction false} NextItem(vs: seq<Json>, t: CString, k: nat)
    requires k < |t| && At(t, k) == ',' && !RestOf(vs, t, Behind(k)).Stray?
    ensures !ParseValue(t, Skip(t, k + 1)).Stray?
    ensures var v := ParseValue(t, Skip(t, k + 1));
            && RestOf(vs, t, Behind(k)) == RestOf(if v.Ok? then vs + [v.value] else vs, t, AfterValue(t, v))
            && (!v.Ok? ==> RestOf(vs, t, Behind(k)).Fail?)
  {
    hide ParseValue, Skip, ParseItems;
    FirstItem(t, k + 1);
    var v := ParseValue(t, Skip(t, k + 1));
    if v.Ok? && RestOf([v.value], t, AfterValue(t, v)).Ok? {
      var rest := RestOf([v.value], t, AfterValue(t, v)).value;
      assert At(t, Skip(t, v.next)) == ',' ==> vs + ([v.value] + ParseItems(t, Skip(t, v.next) + 1).value)
                                               == vs + [v.value] + ParseItems(t, Skip(t, v.next) + 1).value;
    }
  }

  lemma {:induction false} ArrayCases(t: CString, i: nat)
    requires i <= |t| && At(t, i) == '[' && !ParseValue(t, i).Stray?
    ensures i < |t|
    ensures var k := Skip(t, i + 1);
            && (At(t, k) == ']' ==> ParseValue(t, i) == Ok(Arr([]), k + 1))
            && (At(t, k) != ']' ==>
                  && !ParseItems(t, k).Stray?
                  && ParseValue(t, i) == match ParseItems(t, k)
                                         case Ok(items, n) => (if At(t, n) == ']' then Ok(Arr(items), n + 1) else Fail)
                                         case Fail => Fail
                                         case Stray => Stray)
  {
    NoWord(t, i);
    hide ParseItems, Skip, Stands;
  }

  // The elements of an array, up to what is not a comma.
  method ReadElements(heap: Heap, item: Node, t: CString, start: nat) returns (r: Cursor, ghost kids: seq<Shape>)
    requires start <= |t| && !ParseItems(t, start).Stray? && item.child == null
    modifies heap, item`child
    ensures r.Failed? ==> ParseItems(t, start).Fail?
    ensures r.Behind? ==> (forall k <- kids :: Named(k)) && ParseItems(t, start) == Ok(ValuesOf(kids), r.i)
    ensures (forall k <- kids :: NoReferences(k)) && forall o <- OwnedOf(kids) :: fresh(o)
    ensures heap.live == old(heap.live) + OwnedOf(kids) && Growing(item, kids)
    decreases |t| - start, 4
  {
    hide *;
    NoChildren(item);
    FirstItem(t, start);
    var child;
    ghost var kid;
    r, child, kid := ReadElement(heap, item, null, t, start, []);
    kids := [kid];
    assert [] + [kid] == kids;
    AfterIs(t, ParseValue(t, Skip(t, start)));
    if r.Behind? {
      OneValue(kid);
    }
    while r.Behind? && At(t, r.i) == ','
      invariant r.Behind? ==> start <= r.i <= |t|
      invariant Growing(item, kids) && kids != [] && child == NodeAt(Roots(kids), |kids| - 1) && fresh(child)
      invariant forall k <- kids :: NoReferences(k)
      invariant heap.live == old(heap.live) + OwnedOf(kids) && forall o <- OwnedOf(kids) :: fresh(o)
      invariant r.Failed? ==> ParseItems(t, start).Fail?
      invariant r.Behind? ==> (forall k <- kids :: Named(k)) && RestOf(ValuesOf(kids), t, r) == ParseItems(t, start)
      decreases if r.Behind? then |t| - r.i + 1 else 0
    {
      AtEnd(t, r.i);
      NextItem(ValuesOf(kids), t, r.i);
      AfterIs(t, ParseValue(t, Skip(t, r.i + 1)));
      r, child, kid := ReadElement(heap, item, child, t, r.i + 1, kids);
      if r.Behind? {
        MoreValues(kids, kid);
      }
      kids := kids + [kid];
    }
    if r.Behind? {
      RestIs(ValuesOf(kids), t, r.i);
    }
  }

  // parse_array
  method ReadArray(heap: Heap, item: Node, t: CString, i: nat) returns (r: Cursor, ghost sh: Shape)
    requires i <= |t| && At(t, i) == '[' && !ParseValue(t, i).Stray? && Blank(item)
    modifies heap, item`kind, item`text, item`child, item`mantissa, item`exponent
    ensures r == CursorOf(ParseValue(t, i)) && sh == Picture(item, sh.kids) && Built(sh)
    ensures heap.live == old(heap.live) + Grown(sh) && forall o <- Grown(sh) :: fresh(o)
    ensures r.Behind? ==> Named(sh) && ValueOf(sh) == ParseValue(t, i).value
    decreases |t| - i, 0
  {
    hide *;
    BlankIs(item);
    CursorIs(ParseValue(t, i));
    ArrayCases(t, i);
    item.kind := ArrayKind;
    var start := SkipSpace(t, i + 1);
    if At(t, start) == ']' {
      sh := Picture(item, []);
      Leaf(item);
      AtEnd(t, start);
      return Behind(start + 1), sh;
    }
    ghost var kids;
    r, kids := ReadElements(heap, item, t, start);
    sh := Picture(item, kids);
    ArrayBuilt(item, kids);
    if r.Behind? {
      ArrayMeans(sh);
    }
    if r.Behind? && At(t, r.i) == ']' {
      r := Behind(r.i + 1);
    } else {
      r := Failed;
    }
  }

  lemma {:induction false} AtEnd(t: CString, k: nat)
    requires k <= |t| && At(t, k) != '\0'
    ensures k < |t|
  {
  }

  lemma {:induction false} NoChildren(item: Node)
    requires item.child == null
    ensures Growing(item, []) && Roots([]) == [] && NodeAt([], -1) == null && OwnedOf([]) == {}
  {
  }

  lemma {:induction false} OneValue(kid: Shape)
    requires Named(kid)
    ensures ValuesOf([kid]) == [ValueOf(kid)]
  {
  }

  lemma {:induction false} MoreValues(kids: seq<Shape>, kid: Shape)
    requires (forall k <- kids :: Named(k)) && Named(kid)
    ensures (forall k <- kids + [kid] :: Named(k)) && ValuesOf(kids + [kid]) == ValuesOf(kids) + [ValueOf(kid)]
  {
    hide ValueOf, Named;
    if kids != [] {
      assert (kids + [kid])[1..] == kids[1..] + [kid];
      MoreValues(kids[1..], kid);
    }
  }

  lemma {:induction false} RestIs(vs: seq<Json>, t: CString, k: nat)
    requires k <= |t| && At(t, k) != ','
    ensures RestOf(vs, t, Behind(k)) == Ok(vs, k)
  {
  }

  lemma {:induction false} ArrayBuilt(item: Node, kids: seq<Shape>)
    requires Growing(item, kids) && item.kind == ArrayKind && item.text == null && !item.reference
    requires (forall k <- kids :: NoReferences(k)) && item !in OwnedOf(kids)
    ensures var sh := Picture(item, kids);
            Built(sh) && Grown(sh) == OwnedOf(kids) && sh.kids == kids && sh.kind == ArrayKind
  {
    GrowingIs(item, kids);
    hide Mirrors, AllMirror, NodesOf, OwnedOf, Growing, Forest, Chain, Nodes, Below, NoReferences, Named, ValueOf;
    var sh := Picture(item, kids);
    MakeMirror(sh, false);
    MakeBuilt(sh);
  }

  lemma {:induction false} MakeBuilt(sh: Shape)
    requires Mirrors(sh, false) && !sh.reference && (forall k <- sh.kids :: NoReferences(k)) && Forest(sh.kids)
    requires sh.text == null && sh.node !in OwnedOf(sh.kids)
    ensures Built(sh) && Grown(sh) == OwnedOf(sh.kids)
  {
    hide Mirrors, OwnedOf, Forest;
  }

  lemma {:induction false} ArrayMeans(sh: Shape)
    requires sh.kind == ArrayKind && forall k <- sh.kids :: Named(k)
    ensures Named(sh) && ValueOf(sh) == Arr(ValuesOf(sh.kids))
  {
  }

  // ----- objects ------------------------------------------------------------------------------

  ghost function AfterMember(t: CString, r: Parsed<Member>): Cursor {
    if r.Ok? && r.next <= |t| then Behind(Skip(t, r.next)) else Failed
  }

  lemma {:induction false} MemberCases(t: CString, p: nat)
    requires p <= |t| && !ParseMember(t, p).Stray?
    ensures var s := ParseString(t, Skip(t, p));
            && !s.Stray? && (s.Fail? ==> ParseMember(t, p).Fail?)
            && (s.Ok? ==>
                  var k := Skip(t, s.next);
                  && (At(t, k) != ':' ==> ParseMember(t, p).Fail?)
                  && (At(t, k) == ':' ==>
                        k < |t| && p < k + 1 &&
                        var v := ParseValue(t, Skip(t, k + 1));
                        && !v.Stray? && (v.Fail? ==> ParseMember(t, p).Fail?)
                        && (v.Ok? ==> ParseMember(t, p) == Ok(Member(s.value, v.value), v.next))))
    ensures AfterMember(t, ParseMember(t, p))
            == if ParseMember(t, p).Ok? then Behind(Skip(t, ParseMember(t, p).next)) else Failed
  {
    hide ParseString, ParseValue, Skip;
  }

  // The name of a member up to its colon: what was read as a text becomes the name.
  method ReadName(heap: Heap, child: Node, t: CString, p: nat) returns (r: Cursor)
    requires p <= |t| && !ParseString(t, Skip(t, p)).Stray? && Blank(child) && child.name == null
    modifies heap, child`kind, child`text, child`name
    ensures Blank(child) && (child.name == null || fresh(child.name))
    ensures heap.live == old(heap.live) + if child.name == null then {} else {child.name}
    ensures r.Behind? ==>
              var s := ParseString(t, Skip(t, p));
              && s.Ok? && r.i == Skip(t, s.next) && At(t, r.i) == ':' && child.name != null && child.name.text == s.value
    ensures r.Failed? ==> var s := ParseString(t, Skip(t, p)); s.Fail? || At(t, Skip(t, s.next)) != ':'
  {
    hide ParseString, Skip;
    var q := SkipSpace(t, p);
    r := ReadString(heap, child, t, q);
    if r.Behind? {
      var k := SkipSpace(t, r.i);
      child.name := child.text;
      child.text := null;
      r := if At(t, k) == ':' then Behind(k) else Failed;
    }
  }

  // One member, read into a node that has nothing yet.
  method ReadPair(heap: Heap, child: Node, t: CString, p: nat) returns (r: Cursor, ghost kid: Shape)
    requires p <= |t| && !ParseMember(t, p).Stray? && Blank(child) && child.name == null
    modifies heap, child`kind, child`text, child`name, child`child, child`mantissa, child`exponent
    ensures r == AfterMember(t, ParseMember(t, p))
    ensures r.Behind? ==>
              && ParseMember(t, p).Ok? && Named(kid) && kid.name != null
              && Member(kid.name.text, ValueOf(kid)) == ParseMember(t, p).value
    ensures kid.node == child && NoReferences(kid) && Mirrors(kid, false) && Tree(kid)
    ensures heap.live == old(heap.live) + (Owned(kid) - {child}) && forall o <- Owned(kid) :: o == child || fresh(o)
    decreases |t| - p, 2
  {
    hide *;
    MemberCases(t, p);
    r := ReadName(heap, child, t, p);
    BlankIs(child);
    if r.Failed? {
      kid := Picture(child, []);
      Leaf(child);
    } else {
      var v := SkipSpace(t, r.i + 1);
      CursorIs(ParseValue(t, v));
      r, kid := ReadItem(heap, child, t, v);
    }
    PictureIs(child, kid);
    NotGrown(kid);
    BuiltTree(kid);
    OptIs(kid.name);
    assert allocated(Below(kid, false));
    if r.Behind? {
      var n := SkipSpace(t, r.i);
      r := Behind(n);
    }
  }

  // One more member behind the last one.
  method ReadMember(heap: Heap, item: Node, last: Node?, t: CString, p: nat, ghost kids: seq<Shape>)
    returns (r: Cursor, child: Node, ghost kid: Shape)
    requires p <= |t| && !ParseMember(t, p).Stray?
    requires last == NodeAt(Roots(kids), |kids| - 1) && Growing(item, kids)
    modifies heap, item`child, (if last == null then {} else {last})`next
    ensures r == AfterMember(t, ParseMember(t, p))
    ensures r.Behind? ==>
              && ParseMember(t, p).Ok? && Named(kid) && kid.name != null
              && Member(kid.name.text, ValueOf(kid)) == ParseMember(t, p).value
    ensures child == kid.node && fresh(child) && NoReferences(kid) && forall o <- Owned(kid) :: fresh(o)
    ensures heap.live == old(heap.live) + Owned(kid) && OwnedOf(kids + [kid]) == OwnedOf(kids) + Owned(kid)
    ensures child == NodeAt(Roots(kids + [kid]), |kids|) && Growing(item, kids + [kid])
    decreases |t| - p, 3
  {
    hide *;
    assert allocated(NodesOf(kids, false)) && allocated(OwnedOf(kids));
    GrowingIs(item, kids);
    child := AddChild(heap, item, last, kids);
    r, kid := ReadPair(heap, child, t, p);
    OwnedParts(kid);
    NodesAreOwned(kid);
    Grew(item, kids, child, kid);
  }

  lemma {:induction false} NotGrown(sh: Shape)
    ensures sh.name != null && sh.name !in Grown(sh) ==> sh.name != sh.text && sh.name !in OwnedOf(sh.kids)
  {
    hide OwnedOf;
  }

  lemma {:induction false} OptIs(c: Chars?)
    ensures Opt(c) == if c == null then {} else {c}
  {
  }

  ghost function RestOfMembers(ms: seq<Member>, t: CString, r: Cursor): Parsed<seq<Member>>
    requires r.Behind? ==> r.i <= |t|
  {
    match r
    case Failed => Fail
    case Behind(k) =>
      if At(t, k) != ',' then Ok(ms, k)
      else
        match ParseMembers(t, k + 1)
        case Ok(more, n) => Ok(ms + more, n)
        case Fail => Fail
        case Stray => Stray
  }

  lemma {:induction false} FirstMember(t: CString, k: nat)
    requires k <= |t| && !ParseMembers(t, k).Stray?
    ensures !ParseMember(t, k).Stray?
    ensures var m := ParseMember(t, k);
            && ParseMembers(t, k) == RestOfMembers(if m.Ok? then [m.value] else [], t, AfterMember(t, m))
            && (!m.Ok? ==> ParseMembers(t, k).Fail?)
  {
    hide ParseMember, Skip;
  }

  lemma {:induction false} NextMember(ms: seq<Member>, t: CString, k: nat)
    requires k < |t| && At(t, k) == ',' && !RestOfMembers(ms, t, Behind(k)).Stray?
    ensures !ParseMember(t, k + 1).Stray?
    ensures var m := ParseMember(t, k + 1);
            && RestOfMembers(ms, t, Behind(k)) == RestOfMembers(if m.Ok? then ms + [m.value] else ms, t, AfterMember(t, m))
            && (!m.Ok? ==> RestOfMembers(ms, t, Behind(k)).Fail?)
  {
    hide ParseMember, Skip, ParseMembers;
    FirstMember(t, k + 1);
    var m := ParseMember(t, k + 1);
    if m.Ok? && RestOfMembers([m.value], t, AfterMember(t, m)).Ok? {
      assert At(t, Skip(t, m.next)) == ',' ==> ms + ([m.value] + ParseMembers(t, Skip(t, m.next) + 1).value)
                                               == ms + [m.value] + ParseMembers(t, Skip(t, m.next) + 1).value;
    }
  }

  lemma {:induction false} ObjectCases(t: CString, i: nat)
    requires i <= |t| && At(t, i) == '{' && !ParseValue(t, i).Stray?
    ensures i < |t|
    ensures var k := Skip(t, i + 1);
            && (At(t, k) == '}' ==> ParseValue(t, i) == Ok(Obj([]), k + 1))
            && (At(t, k) != '}' ==>
                  && !ParseMembers(t, k).Stray?
                  && ParseValue(t, i) == match ParseMembers(t, k)
                                         case Ok(members, n) => (if At(t, n) == '}' then Ok(Obj(members), n + 1) else Fail)
                                         case Fail => Fail
                                         case Stray => Stray)
  {
    NoWord(t, i);
    hide ParseMembers, Skip, Stands;
  }

  // The members of an object, up to what is not a comma.
  method ReadMembers(heap: Heap, item: Node, t: CString, start: nat) returns (r: Cursor, ghost kids: seq<Shape>)
    requires start <= |t| && !ParseMembers(t, start).Stray? && item.child == null
    modifies heap, item`child
    ensures r.Failed? ==> ParseMembers(t, start).Fail?
    ensures r.Behind? ==> (forall k <- kids :: Named(k) && k.name != null) && ParseMembers(t, start) == Ok(MembersOf(kids), r.i)
    ensures (forall k <- kids :: NoReferences(k)) && forall o <- OwnedOf(kids) :: fresh(o)
    ensures heap.live == old(heap.live) + OwnedOf(kids) && Growing(item, kids)
    decreases |t| - start, 4
  {
    hide *;
    NoChildren(item);
    FirstMember(t, start);
    var child;
    ghost var kid;
    r, child, kid := ReadMember(heap, item, null, t, start, []);
    kids := [kid];
    assert [] + [kid] == kids;
    MemberCases(t, start);
    if r.Behind? {
      OneMember(kid);
    }
    while r.Behind? && At(t, r.i) == ','
      invariant r.Behind? ==> start <= r.i <= |t|
      invariant Growing(item, kids) && kids != [] && child == NodeAt(Roots(kids), |kids| - 1) && fresh(child)
      invariant forall k <- kids :: NoReferences(k)
      invariant heap.live == old(heap.live) + OwnedOf(kids) && forall o <- OwnedOf(kids) :: fresh(o)
      invariant r.Failed? ==> ParseMembers(t, start).Fail?
      invariant r.Behind? ==> (forall k <- kids :: Named(k) && k.name != null) && RestOfMembers(MembersOf(kids), t, r) == ParseMembers(t, start)
      decreases if r.Behind? then |t| - r.i + 1 else 0
    {
      AtEnd(t, r.i);
      NextMember(MembersOf(kids), t, r.i);
      MemberCases(t, r.i + 1);
      r, child, kid := ReadMember(heap, item, child, t, r.i + 1, kids);
      if r.Behind? {
        MoreMembers(kids, kid);
      }
      kids := kids + [kid];
    }
    if r.Behind? {
      RestOfMembersIs(MembersOf(kids), t, r.i);
    }
  }

  // parse_object
  method ReadObject(heap: Heap, item: Node, t: CString, i: nat) returns (r: Cursor, ghost sh: Shape)
    requires i <= |t| && At(t, i) == '{' && !ParseValue(t, i).Stray? && Blank(item)
    modifies heap, item`kind, item`text, item`child, item`mantissa, item`exponent
    ensures r == CursorOf(ParseValue(t, i)) && sh == Picture(item, sh.kids) && Built(sh)
    ensures heap.live == old(heap.live) + Grown(sh) && forall o <- Grown(sh) :: fresh(o)
    ensures r.Behind? ==> Named(sh) && ValueOf(sh) == ParseValue(t, i).value
    decreases |t| - i, 0
  {
    hide *;
    BlankIs(item);
    CursorIs(ParseValue(t, i));
    ObjectCases(t, i);
    item.kind := ObjectKind;
    var start := SkipSpace(t, i + 1);
    if At(t, start) == '}' {
      sh := Picture(item, []);
      Leaf(item);
      AtEnd(t, start);
      return Behind(start + 1), sh;
    }
    ghost var kids;
    r, kids := ReadMembers(heap, item, t, start);
    sh := Picture(item, kids);
    ObjectBuilt(item, kids);
    if r.Behind? {
      ObjectMeans(sh);
    }
    if r.Behind? && At(t, r.i) == '}' {
      r := Behind(r.i + 1);
    } else {
      r := Failed;
    }
  }

  lemma {:induction false} OneMember(kid: Shape)
    requires Named(kid) && kid.name != null
    ensures MembersOf([kid]) == [Member(kid.name.text, ValueOf(kid))]
  {
  }

  lemma {:induction false} MoreMembers(kids: seq<Shape>, kid: Shape)
    requires (forall k <- kids :: Named(k) && k.name != null) && Named(kid) && kid.name != null
    ensures forall k <- kids + [kid] :: Named(k) && k.name != null
    ensures MembersOf(kids + [kid]) == MembersOf(kids) + [Member(kid.name.text, ValueOf(kid))]
  {
    hide ValueOf, Named;
    if kids != [] {
      assert (kids + [kid])[1..] == kids[1..] + [kid];
      MoreMembers(kids[1..], kid);
    }
  }

  lemma {:induction false} RestOfMembersIs(ms: seq<Member>, t: CString, k: nat)
    requires k <= |t| && At(t, k) != ','
    ensures RestOfMembers(ms, t, Behind(k)) == Ok(ms, k)
  {
  }

  lemma {:induction false} ObjectBuilt(item: Node, kids: seq<Shape>)
    requires Growing(item, kids) && item.kind == ObjectKind && item.text == null && !item.reference
    requires (forall k <- kids :: NoReferences(k)) && item !in OwnedOf(kids)
    ensures var sh := Picture(item, kids);
            Built(sh) && Grown(sh) == OwnedOf(kids) && sh.kids == kids && sh.kind == ObjectKind
  {
    GrowingIs(item, kids);
    hide Mirrors, AllMirror, NodesOf, OwnedOf, Growing, Forest, Chain, Nodes, Below, NoReferences;
    var sh := Picture(item, kids);
    MakeMirror(sh, false);
    MakeBuilt(sh);
  }

  lemma {:induction false} ObjectMeans(sh: Shape)
    requires sh.kind == ObjectKind && forall k <- sh.kids :: Named(k) && k.name != null
    ensures Named(sh) && ValueOf(sh) == Obj(MembersOf(sh.kids))
  {
  }

  // ----- cJSON_Parse --------------------------------------------------------------------------

  // The tree for the text, all of it newly allocated; a failed parse leaves nothing allocated.
  method ParseText(heap: Heap, t: CString) returns (c: Node?, ghost sh: Shape)
    requires !Parse(t).Stray?
    modifies heap
    ensures c != null <==> Parse(t).Ok?
    ensures c == null ==> heap.live == old(heap.live)
    ensures c != null ==>
              && fresh(c) && c == sh.node && c.next == null && c.prev == null
              && Mirrors(sh, true) && Mirrors(sh, false) && Tree(sh) && NoReferences(sh)
              && Named(sh) && ValueOf(sh) == Parse(t).value
              && heap.live == old(heap.live) + Owned(sh) && forall o <- Owned(sh) :: fresh(o)
  {
    hide *;
    c := new Node();
    heap.Malloc(c);
    BlankIs(c);
    ParseIs(t);
    var i := SkipSpace(t, 0);
    CursorIs(ParseValue(t, i));
    var r;
    r, sh := ReadItem(heap, c, t, i);
    PictureIs(c, sh);
    BuiltTree(sh);
    if r.Failed? {
      Alone(sh);
      NextAlone(c);
      Delete(heap, c, [sh]);
      return null, sh;
    }
    ShallowIsDeep(sh);
  }

  lemma {:induction false} NextAlone(c: Node)
    requires c.next == null
    ensures Nexts(c, [c])
  {
  }
}
