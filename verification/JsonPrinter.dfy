/**
The two-pass printer: every buffer is measured first and then written within its bounds.
*/
module JsonPrinter {
  import opened CInts
  import opened CStrings
  import opened JsonText
  import opened JsonNodes
  import opened JsonLists
  import opened JsonSizes

  // The numbers are printed with "%d", and every size that is measured fits an int.
  ghost predicate Prints(j: Json, depth: nat, fmt: bool) {
    Printable(j) && FitsInt(j, depth, fmt)
  }

  // The buffer holds the text as a C string.
  ghost predicate Holds(b: array<char>, text: string)
    reads b
  {
    |text| < b.Length && b[..|text|] == text && b[|text|] == NUL
  }

  // ----- the C library ------------------------------------------------------------------------

  lemma {:induction false} TerminatorAt(b: array<char>, text: CString, i: nat)
    requires Holds(b, text) && i <= |text|
    ensures b[i] == NUL <==> i == |text|
    ensures i < |text| ==> b[i] == text[i]
  {
    assert i < |text| ==> b[i] == b[..|text|][i] && text[i] in text;
  }

  method StrLen(b: array<char>, ghost text: CString) returns (n: nat)
    requires Holds(b, text)
    ensures n == |text|
  {
    n := 0;
    while b[n] != NUL
      invariant 0 <= n <= |text|
      decreases |text| - n
    {
      TerminatorAt(b, text, n);
      n := n + 1;
    }
    TerminatorAt(b, text, n);
  }

  // strcpy to an offset of the destination
  method StrCpy(dst: array<char>, at: nat, src: array<char>, ghost text: CString)
    requires Holds(src, text) && dst != src && at + |text| < dst.Length
    modifies dst
    ensures dst[..at + |text|] == old(dst[..at]) + text && dst[at + |text|] == NUL
  {
    var i := 0;
    while src[i] != NUL
      invariant 0 <= i <= |text| && dst[..at + i] == old(dst[..at]) + text[..i]
      decreases |text| - i
    {
      TerminatorAt(src, text, i);
      dst[at + i] := src[i];
      i := i + 1;
    }
    TerminatorAt(src, text, i);
    dst[at + i] := NUL;
    assert text[..i] == text;
  }

  // The terminator is written, and nothing before it changes.
  method Terminate(b: array<char>, w: nat)
    requires w < b.Length
    modifies b
    ensures b[..w] == old(b[..w]) && b[w] == NUL
  {
    b[w] := NUL;
  }

  // malloc
  method NewBuffer(heap: Heap, size: nat) returns (b: array<char>)
    modifies heap
    ensures fresh(b) && b.Length == size && heap.live == old(heap.live) + {b}
  {
    b := new char[size];
    heap.Malloc(b);
  }

  // cJSON_strdup; also sprintf into a buffer of the given size
  method Write(heap: Heap, s: CString, size: nat) returns (b: array<char>)
    requires |s| < size
    modifies heap
    ensures fresh(b) && b.Length == size && Holds(b, s) && heap.live == old(heap.live) + {b}
  {
    b := NewBuffer(heap, size);
    var i := 0;
    while i < |s|
      invariant 0 <= i <= |s| && b[..i] == s[..i] && heap.live == old(heap.live) + {b}
    {
      b[i] := s[i];
      i := i + 1;
    }
    assert s[..i] == s;
    b[i] := NUL;
    assert b[..|s|] == s;
  }

  // ----- numbers and strings ------------------------------------------------------------------

  method PrintNumber(heap: Heap, m: int) returns (out: array<char>)
    requires INT_MIN <= m <= INT_MAX
    modifies heap
    ensures fresh(out) && Holds(out, IntText(m)) && heap.live == old(heap.live) + {out}
  {
    NumberFits(m);
    out := Write(heap, IntText(m), NUMBER_BUFFER);
  }

  lemma {:induction false} EscapeStep(s: CString, p: nat)
    requires p < |s|
    ensures IsByte(s[p]) && s[p] != NUL && Escape(s[p..]) == Escaped(s[p]) + Escape(s[p + 1..])
    ensures Plain(s[p]) ==> Escaped(s[p]) == [s[p]]
  {
    assert s[p] in s;
    assert s[p..][0] == s[p] && s[p..][1..] == s[p + 1..];
  }

  // How many bytes the first loop adds for one byte.
  lemma {:induction false} EscapedSize(c: char)
    requires IsByte(c) && c != NUL
    ensures |Escaped(c)| == 1 + (if c in "\"\\" + [BACKSPACE, FORM_FEED] + "\n\r\t" then 1 else if c as int < 32 then 5 else 0)
  {
  }

  // The count stays an int, as long as the text with its quotes and terminator fits one.
  method MeasureString(s: CString) returns (len: Int)
    requires |Quote(s)| + 1 <= INT_MAX
    ensures len == |Escape(s)| && len + 3 <= INT_MAX
  {
    hide Escape, Escaped, Quote, Plain;
    QuoteIs(s);
    var p := 0;
    len := 0;
    assert s[0..] == s;
    while p < |s|
      invariant 0 <= p <= |s| && 0 <= len && len + |Escape(s[p..])| == |Escape(s)|
    {
      EscapeStep(s, p);
      EscapedSize(s[p]);
      len := len + 1;
      if s[p] in "\"\\" + [BACKSPACE, FORM_FEED] + "\n\r\t" {
        len := len + 1;
      } else if s[p] as int < 32 {
        len := len + 5;
      }
      p := p + 1;
    }
    NothingToEscape(s, p);
  }

  lemma {:induction false} NothingToEscape(s: CString, p: nat)
    requires p == |s|
    ensures Escape(s[p..]) == []
  {
  }

  // The body of the second loop.
  method WriteByte(out: array<char>, w: nat, c: char) returns (w': nat)
    requires IsByte(c) && c != NUL && w + |Escaped(c)| < out.Length
    modifies out
    ensures w' == w + |Escaped(c)| && out[..w'] == old(out[..w]) + Escaped(c)
  {
    if Plain(c) {
      w' := Put(out, w, c);
    } else {
      w' := WriteEscape(out, w, c);
    }
  }

  method WriteEscape(out: array<char>, w: nat, c: char) returns (w': nat)
    requires IsByte(c) && c != NUL && !Plain(c) && w + |Escaped(c)| < out.Length
    modifies out
    ensures w' == w + |Escaped(c)| && out[..w'] == old(out[..w]) + Escaped(c)
  {
    out[w] := '\\';
    w' := w + 2;
    if c == '\\' {
      out[w + 1] := '\\';
    } else if c == '\"' {
      out[w + 1] := '\"';
    } else if c == BACKSPACE {
      out[w + 1] := 'b';
    } else if c == FORM_FEED {
      out[w + 1] := 'f';
    } else if c == '\n' {
      out[w + 1] := 'n';
    } else if c == '\r' {
      out[w + 1] := 'r';
    } else if c == '\t' {
      out[w + 1] := 't';
    } else {
      w' := WriteHex(out, w, c);
    }
  }

  // The four hex digits, and the terminator sprintf writes behind them.
  method WriteHex(out: array<char>, w: nat, c: char) returns (w': nat)
    requires IsByte(c) && w + 6 < out.Length && out[w] == '\\'
    modifies out
    ensures w' == w + 6
    ensures out[..w'] == old(out[..w]) + ("\\u00" + [HexDigit(c as int / 16), HexDigit(c as int % 16)])
  {
    out[w + 1], out[w + 2], out[w + 3] := 'u', '0', '0';
    out[w + 4], out[w + 5], out[w + 6] := HexDigit(c as int / 16), HexDigit(c as int % 16), NUL;
    w' := w + 6;
  }

  // The second loop writes the bytes that were measured, no more and no fewer.
  method WriteString(out: array<char>, s: CString)
    requires out.Length == |Quote(s)| + 1
    modifies out
    ensures out[..|Quote(s)|] == Quote(s) && out[|Quote(s)|] == NUL
  {
    hide Escape, Escaped, Quote;
    QuoteIs(s);
    var w := Put(out, 0, '\"');
    var p := 0;
    assert s[0..] == s;
    while p < |s|
      invariant 0 <= p <= |s| && 1 <= w && w + |Escape(s[p..])| + 2 == out.Length
      invariant out[..w] + Escape(s[p..]) == ['\"'] + Escape(s)
    {
      EscapeStep(s, p);
      Regroup(out[..w], Escaped(s[p]), Escape(s[p + 1..]));
      w := WriteByte(out, w, s[p]);
      p := p + 1;
    }
    QuoteEnd(s, p, out[..w]);
    w := Put(out, w, '\"');
    Terminate(out, w);
  }

  // print_string_ptr allocates exactly the bytes it writes.
  method PrintStringPtr(heap: Heap, str: Chars?) returns (out: array<char>)
    requires Opt(str) <= heap.live && (str != null ==> |Quote(str.text)| + 1 <= INT_MAX)
    modifies heap
    ensures fresh(out) && heap.live == old(heap.live) + {out}
    ensures str == null ==> Holds(out, "")
    ensures str != null ==> Holds(out, Quote(str.text)) && out.Length == |Quote(str.text)| + 1
  {
    if str == null {
      out := Write(heap, "", 1);
      return;
    }
    hide Escape, Quote;
    QuoteIs(str.text);
    var len := MeasureString(str.text);
    out := NewBuffer(heap, len + 3);
    WriteString(out, str.text);
  }

  lemma {:induction false} Regroup(a: string, b: string, c: string)
    ensures a + b + c == a + (b + c)
  {
  }

  lemma {:induction false} QuoteIs(s: CString)
    ensures Quote(s) == ['\"'] + Escape(s) + ['\"'] && |Quote(s)| == |Escape(s)| + 2
  {
    hide Escape;
  }

  lemma {:induction false} QuoteEnd(s: CString, p: nat, body: string)
    requires p == |s| && body + Escape(s[p..]) == ['\"'] + Escape(s)
    ensures body == ['\"'] + Escape(s) && Escape(s[p..]) == []
  {
    assert body + [] == body;
  }

  // ----- values -------------------------------------------------------------------------------

  // print_value: the bytes are those of the print functions, and of all that was allocated only the
  // result is left.
  method PrintItem(heap: Heap, item: Node, ghost sh: Shape, depth: nat, fmt: bool) returns (out: array<char>)
    requires item == sh.node && Mirrors(sh, true) && Named(sh) && Prints(ValueOf(sh), depth, fmt) && Seen(sh) <= heap.live
    modifies heap
    ensures fresh(out) && heap.live == old(heap.live) + {out} && Holds(out, PrintValue(ValueOf(sh), depth, fmt))
    decreases sh, 2
  {
    hide Nodes, NodesOf, Below, Chain, AllMirror, Escape, IntText, Seen;
    SeenIs(sh);
    match item.kind
    case NullKind => out := Write(heap, "null", 5);
    case FalseKind => out := Write(heap, "false", 6);
    case TrueKind => out := Write(heap, "true", 5);
    case NumberKind => out := PrintNumber(heap, IntOf(item.mantissa, item.exponent));
    case StringKind => out := PrintStringPtr(heap, item.text);
    case ArrayKind => out := PrintArray(heap, item, sh, depth, fmt);
    case ObjectKind => out := PrintObject(heap, item, sh, depth, fmt);
  }

  // ----- the entries of arrays and objects ----------------------------------------------------

  ghost predicate AllHold(bufs: seq<array<char>>, parts: seq<CString>)
    reads bufs
  {
    |bufs| == |parts| && forall k :: 0 <= k < |bufs| ==> Holds(bufs[k], parts[k])
  }

  ghost function Objects(bufs: seq<array<char>>): set<object> {
    set b | b in bufs :: b
  }

  ghost predicate Distinct(bufs: seq<array<char>>) {
    forall i, j :: 0 <= i < j < |bufs| ==> bufs[i] != bufs[j]
  }

  // The array of C strings names these buffers.
  ghost predicate Lists(entries: array<array?<char>>, bufs: seq<array<char>>)
    reads entries
  {
    |bufs| <= entries.Length && forall k :: 0 <= k < |bufs| ==> entries[k] == bufs[k]
  }

  lemma {:induction false} OneMoreBuffer(bufs: seq<array<char>>, b: array<char>, parts: seq<CString>, text: CString)
    requires AllHold(bufs, parts) && Distinct(bufs) && b !in bufs && Holds(b, text)
    ensures AllHold(bufs + [b], parts + [text]) && Distinct(bufs + [b]) && Objects(bufs + [b]) == Objects(bufs) + {b}
  {
    assert forall x :: x in bufs + [b] <==> x in bufs || x == b;
  }

  ghost predicate Texts(kids: seq<Shape>, parts: seq<CString>, depth: nat, fmt: bool) {
    && |parts| == |kids|
    && forall i :: 0 <= i < |kids| ==>
         Named(kids[i]) && Prints(ValueOf(kids[i]), depth, fmt) && parts[i] == PrintValue(ValueOf(kids[i]), depth, fmt)
  }

  lemma {:induction false} SizeStep(parts: seq<CString>, i: nat, fmt: bool)
    requires i < |parts|
    ensures EntriesSize(parts[i..], fmt) == |parts[i]| + 2 + Flag(fmt) + EntriesSize(parts[i + 1..], fmt)
    ensures parts[..i + 1] == parts[..i] + [parts[i]]
  {
    assert parts[i..][1..] == parts[i + 1..];
  }

  // An entry and its length.
  method PrintMeasured(heap: Heap, item: Node, ghost sh: Shape, depth: nat, fmt: bool) returns (ret: array<char>, n: nat)
    requires item == sh.node && Mirrors(sh, true) && Named(sh) && Prints(ValueOf(sh), depth, fmt) && Seen(sh) <= heap.live
    modifies heap
    ensures fresh(ret) && heap.live == old(heap.live) + {ret}
    ensures Holds(ret, PrintValue(ValueOf(sh), depth, fmt)) && n == |PrintValue(ValueOf(sh), depth, fmt)|
    decreases sh, 3
  {
    hide *;
    ret := PrintItem(heap, item, sh, depth, fmt);
    n := StrLen(ret, PrintValue(ValueOf(sh), depth, fmt));
  }

  // The printing loop of print_array.
  method PrintEntries(heap: Heap, list: Node, entries: array<array?<char>>, ghost kids: seq<Shape>,
                      ghost parts: seq<CString>, depth: nat, fmt: bool)
    returns (len: Int, ghost bufs: seq<array<char>>)
    requires Chain(list.child, Roots(kids)) && AllMirror(kids, true) && Texts(kids, parts, depth, fmt)
    requires entries.Length == |kids| && SeenOf(kids) <= heap.live
    modifies heap, entries
    ensures len == ToInt32(5 + EntriesSize(parts, fmt))
    ensures |bufs| == |parts| && AllHold(bufs, parts) && Distinct(bufs) && Lists(entries, bufs)
    ensures (forall b <- bufs :: fresh(b)) && forall o <- Objects(bufs) :: fresh(o)
    ensures heap.live == old(heap.live) + Objects(bufs)
    decreases kids
  {
    hide *;
    var child, i := list.child, 0;
    len, bufs := ToInt32(5), [];
    ghost var size := 5;
    assert allocated(NodesOf(kids, true));
    NoBuffers();
    NoneListed(entries);
    TextsWhole(kids, parts, depth, fmt);
    ChainStart(list.child, Roots(kids));
    while child != null
      invariant 0 <= i <= |kids| && child == NodeAt(Roots(kids), i) && Chain(list.child, Roots(kids)) && AllMirror(kids, true)
      invariant len == ToInt32(size) && size + EntriesSize(parts[i..], fmt) == 5 + EntriesSize(parts, fmt)
      invariant |bufs| == i && AllHold(bufs, parts[..i]) && Distinct(bufs) && Lists(entries, bufs)
      invariant forall b <- bufs :: fresh(b)
      invariant heap.live == old(heap.live) + Objects(bufs)
      decreases |kids| - i
    {
      NodeIn(Roots(kids), i);
      OneMirror(kids, i, true);
      assert Seen(kids[i]) <= SeenOf(kids);
      TextAt(kids, parts, i, depth, fmt);
      SizeStep(parts, i, fmt);
      var ret, n := PrintMeasured(heap, child, kids[i], depth, fmt);
      SetEntry(entries, i, ret, bufs);
      IntAdds(size, n + 2 + Flag(fmt));
      len, size := ToInt32(len + n + 2 + Flag(fmt)), size + n + 2 + Flag(fmt);
      OneMoreBuffer(bufs, ret, parts[..i], parts[i]);
      bufs := bufs + [ret];
      ChainStep(list.child, Roots(kids), i);
      i, child := i + 1, child.next;
    }
    NodeIn(Roots(kids), i);
    SizeDone(parts, i, fmt);
    FreshObjects(bufs);
  }

  lemma {:induction false} TextsWhole(kids: seq<Shape>, parts: seq<CString>, depth: nat, fmt: bool)
    requires Texts(kids, parts, depth, fmt)
    ensures |parts| == |kids| && parts[0..] == parts && parts[..0] == []
  {
  }

  lemma {:induction false} TextAt(kids: seq<Shape>, parts: seq<CString>, i: nat, depth: nat, fmt: bool)
    requires Texts(kids, parts, depth, fmt) && i < |kids| == |parts|
    ensures Named(kids[i]) && Prints(ValueOf(kids[i]), depth, fmt) && parts[i] == PrintValue(ValueOf(kids[i]), depth, fmt)
  {
  }

  lemma {:induction false} SizeDone(parts: seq<CString>, i: nat, fmt: bool)
    requires i == |parts|
    ensures parts[..i] == parts && EntriesSize(parts[i..], fmt) == 0
  {
  }

  lemma {:induction false} NodeIn(nodes: seq<Node>, i: nat)
    ensures NodeAt(nodes, i) != null <==> i < |nodes|
    ensures i < |nodes| ==> NodeAt(nodes, i) == nodes[i]
  {
  }

  lemma {:induction false} ChainStart(head: Node?, nodes: seq<Node>)
    requires Chain(head, nodes)
    ensures head == NodeAt(nodes, 0)
  {
  }

  lemma {:induction false} ChainStep(head: Node?, nodes: seq<Node>, i: nat)
    requires Chain(head, nodes) && i < |nodes|
    ensures nodes[i].next == NodeAt(nodes, i + 1)
  {
    assert LinkAt(nodes, i);
  }

  lemma {:induction false} NoneListed(entries: array<array?<char>>)
    ensures Lists(entries, [])
  {
  }

  // One more text is entered in the array.
  method SetEntry(entries: array<array?<char>>, i: nat, ret: array<char>, ghost bufs: seq<array<char>>)
    requires Lists(entries, bufs) && i == |bufs| < entries.Length
    modifies entries
    ensures Lists(entries, bufs + [ret])
  {
    entries[i] := ret;
  }

  twostate lemma FreshObjects(new bufs: seq<array<char>>)
    requires forall b <- bufs :: fresh(b)
    ensures forall o <- Objects(bufs) :: fresh(o)
  {
  }

  lemma {:induction false} NoBuffers()
    ensures AllHold([], []) && Distinct([]) && Objects([]) == {}
  {
  }

  lemma {:induction false} JoinStep(parts: seq<CString>, i: nat, sep: CString)
    requires i < |parts|
    ensures i + 1 < |parts| ==> Join(parts[i..], sep) == parts[i] + (sep + Join(parts[i + 1..], sep))
    ensures i + 1 == |parts| ==> Join(parts[i..], sep) == parts[i] && Join(parts[i + 1..], sep) == []
  {
    assert parts[i..][1..] == parts[i + 1..];
  }

  lemma {:induction false} BufferAt(entries: array<array?<char>>, bufs: seq<array<char>>, parts: seq<CString>, i: nat)
    requires Lists(entries, bufs) && AllHold(bufs, parts) && i < |bufs|
    ensures entries[i] != null && entries[i] == bufs[i] && Holds(bufs[i], parts[i])
  {
  }

  lemma {:induction false} ObjectsSplit(bufs: seq<array<char>>, i: nat)
    requires Distinct(bufs) && i < |bufs|
    ensures Objects(bufs[i..]) == {bufs[i]} + Objects(bufs[i + 1..]) && bufs[i] !in Objects(bufs[i + 1..]) && bufs[i] in Objects(bufs)
    ensures Objects(bufs[i + 1..]) <= Objects(bufs)
  {
    var tail := bufs[i + 1..];
    assert forall j :: 0 <= j < |tail| ==> tail[j] == bufs[i + 1 + j] != bufs[i];
    assert bufs[i..] == [bufs[i]] + tail;
    ObjectsCons(bufs[i], tail);
    assert bufs[i] in bufs;
    assert forall j :: 0 <= j < |tail| ==> tail[j] in bufs;
  }

  lemma {:induction false} ObjectsCons(b: array<char>, tail: seq<array<char>>)
    ensures Objects([b] + tail) == {b} + Objects(tail)
  {
    var all := [b] + tail;
    assert forall x :: x in all <==> x == b || x in tail;
    assert forall x <- all :: x as object in {b as object} + Objects(tail);
    assert b in all;
    assert forall x <- tail :: x in all;
  }

  method WriteSeparator(out: array<char>, w: nat, fmt: bool) returns (w': nat)
    requires w + |Separator(fmt)| < out.Length
    modifies out
    ensures w' == w + |Separator(fmt)| && out[..w'] == old(out[..w]) + Separator(fmt)
  {
    w' := Put(out, w, ',');
    if fmt {
      w' := Put(out, w', ' ');
    }
    Terminate(out, w');
  }

  // One entry: its text, and the separator unless it is the last.
  method WriteEntry(out: array<char>, w: nat, entry: array<char>, ghost parts: seq<CString>, i: nat, last: bool, fmt: bool)
    returns (w': nat)
    requires i < |parts| && last == (i + 1 == |parts|) && entry != out && Holds(entry, parts[i])
    requires w + |Join(parts[i..], Separator(fmt))| < out.Length
    modifies out
    ensures w' >= w && w' + |Join(parts[i + 1..], Separator(fmt))| == w + |Join(parts[i..], Separator(fmt))|
    ensures out[..w'] + Join(parts[i + 1..], Separator(fmt)) == old(out[..w]) + Join(parts[i..], Separator(fmt))
  {
    hide Join, Holds, Separator;
    JoinStep(parts, i, Separator(fmt));
    StrCpy(out, w, entry, parts[i]);
    var n := StrLen(entry, parts[i]);
    w' := w + n;
    Regroup(old(out[..w]) + parts[i], Separator(fmt), Join(parts[i + 1..], Separator(fmt)));
    Regroup(old(out[..w]), parts[i], Separator(fmt) + Join(parts[i + 1..], Separator(fmt)));
    if !last {
      w' := WriteSeparator(out, w', fmt);
    }
  }

  method ComposeArray(heap: Heap, out: array<char>, entries: array<array?<char>>, ghost bufs: seq<array<char>>,
                      ghost parts: seq<CString>, fmt: bool)
    requires Lists(entries, bufs) && AllHold(bufs, parts) && Distinct(bufs) && entries.Length == |bufs| == |parts|
    requires out !in bufs && out.Length == 5 + EntriesSize(parts, fmt) && Objects(bufs) <= heap.live
    modifies heap, out
    ensures Holds(out, ArrayText(parts, fmt)) && heap.live == old(heap.live) - Objects(bufs)
  {
    ArrayFits(parts, fmt);
    hide Join, Holds, AllHold, Lists, Objects, Distinct, Separator, EntriesSize;
    var w := Put(out, 0, '[');
    Terminate(out, w);
    var i := 0;
    assert parts[0..] == parts && bufs[0..] == bufs;
    while i < entries.Length
      invariant 0 <= i <= entries.Length && 1 <= w
      invariant Lists(entries, bufs) && AllHold(bufs, parts)
      invariant w + |Join(parts[i..], Separator(fmt))| == 1 + |Join(parts, Separator(fmt))|
      invariant out[..w] + Join(parts[i..], Separator(fmt)) == ['['] + Join(parts, Separator(fmt))
      invariant heap.live == old(heap.live) - Objects(bufs) + Objects(bufs[i..])
    {
      BufferAt(entries, bufs, parts, i);
      ObjectsSplit(bufs, i);
      w := WriteEntry(out, w, entries[i], parts, i, i == entries.Length - 1, fmt);
      heap.Free(entries[i]);
      i := i + 1;
    }
    JoinNone(parts, i, Separator(fmt), out[..w]);
    NoneLeft(bufs, i);
    w := Put(out, w, ']');
    Terminate(out, w);
    Regroup(['['], Join(parts, Separator(fmt)), [']']);
    HoldsIt(out, w, ArrayText(parts, fmt));
  }

  lemma {:induction false} NoneLeft(bufs: seq<array<char>>, i: nat)
    requires i == |bufs|
    ensures Objects(bufs[i..]) == {}
  {
  }

  lemma {:induction false} JoinNone(parts: seq<CString>, i: nat, sep: CString, body: string)
    requires i == |parts|
    ensures Join(parts[i..], sep) == [] && body + Join(parts[i..], sep) == body
  {
    assert body + [] == body;
  }

  lemma {:induction false} HoldsIt(out: array<char>, w: nat, text: string)
    requires w < out.Length && out[..w] == text && out[w] == NUL
    ensures Holds(out, text)
  {
    assert |out[..w]| == w;
  }

  ghost function ItemTexts(sh: Shape, depth: nat, fmt: bool): seq<CString>
    requires Named(sh) && sh.kind == ArrayKind
  {
    PrintItems(ValuesOf(sh.kids), depth + 1, fmt)
  }

  lemma {:induction false} ItemTextsAre(sh: Shape, depth: nat, fmt: bool)
    requires Named(sh) && sh.kind == ArrayKind && Prints(ValueOf(sh), depth, fmt)
    ensures Texts(sh.kids, ItemTexts(sh, depth, fmt), depth + 1, fmt) && |ItemTexts(sh, depth, fmt)| == |sh.kids|
    ensures PrintValue(ValueOf(sh), depth, fmt) == ArrayText(ItemTexts(sh, depth, fmt), fmt)
  {
    hide PrintValue;
    var values := ValuesOf(sh.kids);
    forall i: nat | i < |sh.kids|
      ensures Prints(ValueOf(sh.kids[i]), depth + 1, fmt) && Named(sh.kids[i])
      ensures ItemTexts(sh, depth, fmt)[i] == PrintValue(ValueOf(sh.kids[i]), depth + 1, fmt)
    {
      ValuesAt(sh.kids, i);
      PrintItemsAt(values, i, depth + 1, fmt);
      assert values[i] in values;
    }
    ArrayPrints(values, depth, fmt);
  }

  lemma {:induction false} ArrayPrints(items: seq<Json>, depth: nat, fmt: bool)
    ensures PrintValue(Arr(items), depth, fmt) == ArrayText(PrintItems(items, depth + 1, fmt), fmt)
  {
  }

  lemma {:induction false} PrintItemsAt(items: seq<Json>, i: nat, depth: nat, fmt: bool)
    requires i < |items|
    ensures PrintItems(items, depth, fmt)[i] == PrintValue(items[i], depth, fmt)
    decreases items
  {
    hide PrintValue;
    if i > 0 {
      PrintItemsAt(items[1..], i - 1, depth, fmt);
    }
  }

  lemma {:induction false} ArraySize(sh: Shape, depth: nat, fmt: bool)
    requires Named(sh) && sh.kind == ArrayKind && Prints(ValueOf(sh), depth, fmt)
    ensures var size := 5 + EntriesSize(ItemTexts(sh, depth, fmt), fmt); 0 <= size <= INT_MAX && ToInt32(size) == size
  {
    hide ToInt32, EntriesSize, PrintItems, Printable;
  }

  method PrintArray(heap: Heap, item: Node, ghost sh: Shape, depth: nat, fmt: bool) returns (out: array<char>)
    requires item == sh.node && sh.kind == ArrayKind && Mirrors(sh, true) && Named(sh) && Prints(ValueOf(sh), depth, fmt)
    requires SeenOf(sh.kids) <= heap.live
    modifies heap
    ensures fresh(out) && heap.live == old(heap.live) + {out} && Holds(out, PrintValue(ValueOf(sh), depth, fmt))
    decreases sh, 0
  {
    hide *;
    MirrorParts(sh, true);
    ItemTextsAre(sh, depth, fmt);
    ghost var parts := ItemTexts(sh, depth, fmt);
    assert allocated(NodesOf(sh.kids, true));
    var n := GetSize(item, Roots(sh.kids));
    var entries := new array?<char>[n](_ => null);
    heap.Malloc(entries);
    var len;
    ghost var bufs;
    len, bufs := PrintEntries(heap, item, entries, sh.kids, parts, depth + 1, fmt);
    ArraySize(sh, depth, fmt);
    out := NewBuffer(heap, len);
    ComposeArray(heap, out, entries, bufs, parts, fmt);
    heap.Free(entries);
  }

  // The counting walk over the children.
  method GetSize(list: Node, ghost nodes: seq<Node>) returns (n: nat)
    requires Chain(list.child, nodes)
    ensures n == |nodes|
  {
    var child := list.child;
    n := 0;
    while child != null
      invariant 0 <= n <= |nodes| && child == NodeAt(nodes, n)
      decreases |nodes| - n
    {
      assert LinkAt(nodes, n);
      n, child := n + 1, child.next;
    }
  }

  // ----- objects ------------------------------------------------------------------------------

  ghost predicate MemberTexts(kids: seq<Shape>, members: seq<Member>, depth: nat, fmt: bool) {
    && |members| == |kids|
    && forall i :: 0 <= i < |kids| ==>
         && kids[i].name != null && Named(kids[i]) && Prints(ValueOf(kids[i]), depth, fmt)
         && |Quote(kids[i].name.text)| + 1 <= INT_MAX
         && members[i] == Member(kids[i].name.text, ValueOf(kids[i]))
  }

  ghost function NameTexts(members: seq<Member>): (r: seq<CString>)
    ensures |r| == |members| && forall i :: 0 <= i < |r| ==> r[i] == Quote(members[i].name)
  {
    seq(|members|, i requires 0 <= i < |members| => Quote(members[i].name))
  }

  ghost function ValueTexts(members: seq<Member>, depth: nat, fmt: bool): (r: seq<CString>)
    ensures |r| == |members| && forall i :: 0 <= i < |r| ==> r[i] == PrintValue(members[i].value, depth, fmt)
  {
    seq(|members|, i requires 0 <= i < |members| => PrintValue(members[i].value, depth, fmt))
  }

  lemma {:induction false} MemberTextAt(kids: seq<Shape>, members: seq<Member>, i: nat, depth: nat, fmt: bool)
    requires MemberTexts(kids, members, depth, fmt) && i < |kids| == |members|
    ensures kids[i].name != null && Named(kids[i]) && Prints(ValueOf(kids[i]), depth, fmt)
    ensures |Quote(kids[i].name.text)| + 1 <= INT_MAX
    ensures members[i] == Member(kids[i].name.text, ValueOf(kids[i]))
    ensures NameTexts(members)[..i + 1] == NameTexts(members)[..i] + [Quote(members[i].name)]
    ensures ValueTexts(members, depth, fmt)[..i + 1]
            == ValueTexts(members, depth, fmt)[..i] + [PrintValue(members[i].value, depth, fmt)]
    ensures MembersSize(members[i..], depth, fmt)
            == MemberSize(Quote(members[i].name), PrintValue(members[i].value, depth, fmt), depth, fmt)
               + MembersSize(members[i + 1..], depth, fmt)
  {
    hide NameTexts, ValueTexts, Quote, PrintValue, MemberSize;
    assert members[i..][1..] == members[i + 1..];
  }

  lemma {:induction false} MembersWhole(kids: seq<Shape>, members: seq<Member>, depth: nat, fmt: bool)
    requires MemberTexts(kids, members, depth, fmt)
    ensures |members| == |kids| && members[0..] == members
    ensures NameTexts(members)[..0] == [] && ValueTexts(members, depth, fmt)[..0] == []
    ensures NameTexts(members)[..|members|] == NameTexts(members)
    ensures ValueTexts(members, depth, fmt)[..|members|] == ValueTexts(members, depth, fmt)
    ensures MembersSize(members[|members|..], depth, fmt) == 0
  {
  }

  // The name and the value of one member, and what they add to `len`.
  method PrintPair(heap: Heap, child: Node, ghost sh: Shape, depth: nat, fmt: bool)
    returns (name: array<char>, ret: array<char>, size: nat)
    requires child == sh.node && Mirrors(sh, true) && sh.name != null && Named(sh) && Prints(ValueOf(sh), depth, fmt)
    requires |Quote(sh.name.text)| + 1 <= INT_MAX
    requires Seen(sh) <= heap.live
    modifies heap
    ensures fresh(name) && fresh(ret) && name != ret && heap.live == old(heap.live) + {name, ret}
    ensures Holds(name, Quote(sh.name.text)) && Holds(ret, PrintValue(ValueOf(sh), depth, fmt))
    ensures size == MemberSize(Quote(sh.name.text), PrintValue(ValueOf(sh), depth, fmt), depth, fmt)
    decreases sh, 4
  {
    hide *;
    NameField(sh);
    SeenIs(sh);
    assert allocated(Below(sh, true));
    name := PrintStringPtr(heap, child.name);
    var m;
    ret, m := PrintMeasured(heap, child, sh, depth, fmt);
    var n := StrLen(name, Quote(sh.name.text));
    size := m + n + 2 + if fmt then 2 + depth else 0;
    MemberSizeIs(Quote(sh.name.text), PrintValue(ValueOf(sh), depth, fmt), depth, fmt);
  }

  ghost function DepthSize(depth: nat, fmt: bool): nat {
    if fmt then depth else 0
  }

  // The printing loop of print_object.
  method PrintPairs(heap: Heap, list: Node, names: array<array?<char>>, entries: array<array?<char>>,
                    ghost kids: seq<Shape>, ghost members: seq<Member>, depth: nat, fmt: bool)
    returns (len: Int, ghost nameBufs: seq<array<char>>, ghost bufs: seq<array<char>>)
    requires Chain(list.child, Roots(kids)) && AllMirror(kids, true) && MemberTexts(kids, members, depth, fmt)
    requires names.Length == entries.Length == |kids| && names != entries && SeenOf(kids) <= heap.live
    modifies heap, names, entries
    ensures len == ToInt32(7 + DepthSize(depth, fmt) + MembersSize(members, depth, fmt))
    ensures |nameBufs| == |members| && AllHold(nameBufs, NameTexts(members)) && Distinct(nameBufs) && Lists(names, nameBufs)
    ensures |bufs| == |members| && AllHold(bufs, ValueTexts(members, depth, fmt)) && Distinct(bufs) && Lists(entries, bufs)
    ensures (forall b <- nameBufs + bufs :: fresh(b)) && Objects(nameBufs) !! Objects(bufs)
    ensures forall o <- Objects(nameBufs) + Objects(bufs) :: fresh(o)
    ensures heap.live == old(heap.live) + Objects(nameBufs) + Objects(bufs)
    decreases kids
  {
    hide *;
    ghost var quoted, printed := NameTexts(members), ValueTexts(members, depth, fmt);
    var child, i := list.child, 0;
    len, nameBufs, bufs := ToInt32(7 + if fmt then depth else 0), [], [];
    ghost var total := 7 + DepthSize(depth, fmt);
    DepthSizeIs(depth, fmt);
    assert allocated(NodesOf(kids, true));
    NoBuffers();
    NoneListed(names);
    NoneListed(entries);
    MembersWhole(kids, members, depth, fmt);
    ChainStart(list.child, Roots(kids));
    while child != null
      invariant 0 <= i <= |kids| && child == NodeAt(Roots(kids), i) && Chain(list.child, Roots(kids)) && AllMirror(kids, true)
      invariant len == ToInt32(total)
      invariant total + MembersSize(members[i..], depth, fmt) == 7 + DepthSize(depth, fmt) + MembersSize(members, depth, fmt)
      invariant |nameBufs| == i && AllHold(nameBufs, quoted[..i]) && Distinct(nameBufs) && Lists(names, nameBufs)
      invariant |bufs| == i && AllHold(bufs, printed[..i]) && Distinct(bufs) && Lists(entries, bufs)
      invariant (forall b <- nameBufs :: fresh(b)) && (forall b <- bufs :: fresh(b)) && Objects(nameBufs) !! Objects(bufs)
      invariant Objects(nameBufs) + Objects(bufs) <= heap.live
      invariant heap.live == old(heap.live) + Objects(nameBufs) + Objects(bufs)
      decreases |kids| - i
    {
      NodeIn(Roots(kids), i);
      OneMirror(kids, i, true);
      assert Seen(kids[i]) <= SeenOf(kids);
      MemberTextAt(kids, members, i, depth, fmt);
      var name, ret, size := EnterPair(heap, child, names, entries, i, kids[i], depth, fmt, nameBufs, bufs);
      IntAdds(total, size);
      len, total := ToInt32(len + size), total + size;
      OneMoreBuffer(nameBufs, name, quoted[..i], quoted[i]);
      OneMoreBuffer(bufs, ret, printed[..i], printed[i]);
      nameBufs, bufs := nameBufs + [name], bufs + [ret];
      ChainStep(list.child, Roots(kids), i);
      i, child := i + 1, child.next;
    }
    NodeIn(Roots(kids), i);
    FreshObjects(nameBufs);
    FreshObjects(bufs);
  }

  // One member: its texts are entered in the two arrays.
  method EnterPair(heap: Heap, child: Node, names: array<array?<char>>, entries: array<array?<char>>, i: nat,
                   ghost sh: Shape, depth: nat, fmt: bool, ghost nameBufs: seq<array<char>>, ghost bufs: seq<array<char>>)
    returns (name: array<char>, ret: array<char>, size: nat)
    requires child == sh.node && Mirrors(sh, true) && sh.name != null && Named(sh) && Prints(ValueOf(sh), depth, fmt)
    requires |Quote(sh.name.text)| + 1 <= INT_MAX && Seen(sh) <= heap.live
    requires names != entries && Lists(names, nameBufs) && i == |nameBufs| < names.Length
    requires Lists(entries, bufs) && i == |bufs| < entries.Length
    modifies heap, names, entries
    ensures fresh(name) && fresh(ret) && name != ret && heap.live == old(heap.live) + {name, ret}
    ensures Holds(name, Quote(sh.name.text)) && Holds(ret, PrintValue(ValueOf(sh), depth, fmt))
    ensures size == MemberSize(Quote(sh.name.text), PrintValue(ValueOf(sh), depth, fmt), depth, fmt)
    ensures Lists(names, nameBufs + [name]) && Lists(entries, bufs + [ret])
    decreases sh, 5
  {
    hide *;
    name, ret, size := PrintPair(heap, child, sh, depth, fmt);
    SetEntries(names, entries, i, name, ret, nameBufs, bufs);
  }

  // The texts of one member, entered in the two arrays.
  method SetEntries(names: array<array?<char>>, entries: array<array?<char>>, i: nat, name: array<char>, ret: array<char>,
                    ghost nameBufs: seq<array<char>>, ghost bufs: seq<array<char>>)
    requires names != entries && Lists(names, nameBufs) && i == |nameBufs| < names.Length
    requires Lists(entries, bufs) && i == |bufs| < entries.Length
    modifies names, entries
    ensures Lists(names, nameBufs + [name]) && Lists(entries, bufs + [ret])
  {
    names[i] := name;
    entries[i] := ret;
  }

  lemma {:induction false} DepthSizeIs(depth: nat, fmt: bool)
    ensures DepthSize(depth, fmt) == if fmt then depth else 0
  {
  }

  lemma {:induction false} MemberSizeIs(name: CString, value: CString, depth: nat, fmt: bool)
    ensures MemberSize(name, value, depth, fmt) == |value| + |name| + 2 + if fmt then 2 + depth else 0
  {
  }

  lemma {:induction false} NameField(sh: Shape)
    requires Mirrors(sh, true)
    ensures sh.node.name == sh.name
  {
  }

  lemma {:induction false} TabsMore(n: nat)
    ensures Tabs(n + 1) == Tabs(n) + ['\t']
  {
    if n > 0 {
      TabsMore(n - 1);
      Regroup("\t", Tabs(n - 1), ['\t']);
    }
  }

  // As many tabs as the depth asks for.
  method WriteTabs(out: array<char>, w: nat, n: nat) returns (w': nat)
    requires w + n <= out.Length
    modifies out
    ensures w' == w + n && out[..w'] == old(out[..w]) + Tabs(n)
  {
    hide Tabs;
    w' := w;
    NoTabs();
    for j := 0 to n
      invariant w' == w + j && out[..w'] == old(out[..w]) + Tabs(j)
    {
      TabsMore(j);
      w' := Put(out, w', '\t');
    }
  }

  lemma {:induction false} NoTabs()
    ensures Tabs(0) == []
  {
  }

  // One member: the tabs, the name, the colon and the value.
  method WriteMember(out: array<char>, w: nat, name: array<char>, value: array<char>, ghost m: Member, depth: nat, fmt: bool)
    returns (w': nat)
    requires Holds(name, Quote(m.name)) && Holds(value, PrintValue(m.value, depth, fmt)) && name != out && value != out
    requires w + |PrintMember(m, depth, fmt)| < out.Length
    modifies out
    ensures w' == w + |PrintMember(m, depth, fmt)| && out[..w'] == old(out[..w]) + PrintMember(m, depth, fmt)
  {
    hide Holds, Quote, PrintValue, Tabs;
    ghost var quoted, printed, colon := Quote(m.name), PrintValue(m.value, depth, fmt), if fmt then ":\t" else ":";
    assert PrintMember(m, depth, fmt) == Indent(depth, fmt) + (quoted + (colon + printed));
    assert |Indent(depth, fmt)| == if fmt then depth else 0;
    w' := w;
    if fmt {
      w' := WriteTabs(out, w', depth);
    }
    IndentWritten(old(out[..w]), out[..w'], depth, fmt);
    hide PrintMember, Indent;
    StrCpy(out, w', name, quoted);
    var n := StrLen(name, quoted);
    w' := w' + n;
    w' := Put(out, w', ':');
    if fmt {
      w' := Put(out, w', '\t');
    }
    assert out[..w'] == old(out[..w]) + Indent(depth, fmt) + quoted + colon;
    StrCpy(out, w', value, printed);
    n := StrLen(value, printed);
    w' := w' + n;
    RegroupMember(old(out[..w]), Indent(depth, fmt), quoted, colon, printed);
  }

  lemma {:induction false} IndentWritten(before: string, after: string, depth: nat, fmt: bool)
    requires after == if fmt then before + Tabs(depth) else before
    ensures after == before + Indent(depth, fmt)
  {
    assert before + [] == before;
  }

  lemma {:induction false} RegroupMember(a: string, b: string, c: string, d: string, e: string)
    ensures a + b + c + d + e == a + (b + (c + (d + e)))
  {
  }

  lemma {:induction false} MembersStep(members: seq<Member>, i: nat, depth: nat, fmt: bool)
    requires i < |members|
    ensures PrintMembers(members[i..], depth, fmt)
            == PrintMember(members[i], depth, fmt)
               + ((if i + 1 < |members| then "," else "") + (NewLine(fmt) + PrintMembers(members[i + 1..], depth, fmt)))
  {
    hide PrintMember;
    assert members[i..][1..] == members[i + 1..];
  }

  // The body of the composing loop of print_object.
  method WriteLine(out: array<char>, w: nat, name: array<char>, value: array<char>, ghost members: seq<Member>,
                   i: nat, last: bool, depth: nat, fmt: bool)
    returns (w': nat)
    requires i < |members| && last == (i + 1 == |members|) && name != out && value != out
    requires Holds(name, Quote(members[i].name)) && Holds(value, PrintValue(members[i].value, depth, fmt))
    requires w + |PrintMembers(members[i..], depth, fmt)| < out.Length
    modifies out
    ensures w' >= w && w' + |PrintMembers(members[i + 1..], depth, fmt)| == w + |PrintMembers(members[i..], depth, fmt)|
    ensures out[..w'] + PrintMembers(members[i + 1..], depth, fmt) == old(out[..w]) + PrintMembers(members[i..], depth, fmt)
  {
    hide Holds, Quote, PrintValue, PrintMember, PrintMembers;
    ghost var text, rest := PrintMember(members[i], depth, fmt), PrintMembers(members[i + 1..], depth, fmt);
    MembersStep(members, i, depth, fmt);
    w' := WriteMember(out, w, name, value, members[i], depth, fmt);
    if !last {
      w' := Put(out, w', ',');
    }
    if fmt {
      w' := Put(out, w', '\n');
    }
    Terminate(out, w');
    LineWritten(old(out[..w]), text, if last then "" else ",", NewLine(fmt), rest, out[..w']);
  }

  lemma {:induction false} LineWritten(before: string, text: string, comma: string, newLine: string, rest: string, after: string)
    requires after == (if newLine == [] then (if comma == [] then before + text else before + text + comma)
                       else (if comma == [] then before + text else before + text + comma) + newLine)
    ensures after + rest == before + (text + (comma + (newLine + rest)))
  {
    assert after == before + text + comma + newLine;
  }

  lemma {:induction false} ObjectPrints(members: seq<Member>, depth: nat, fmt: bool)
    ensures PrintValue(Obj(members), depth, fmt)
            == ['{'] + ((NewLine(fmt) + (PrintMembers(members, depth + 1, fmt) + Indent(depth, fmt))) + ['}'])
    ensures |Indent(depth, fmt)| == (if fmt then depth else 0) && |NewLine(fmt)| == if fmt then 1 else 0
    ensures PrintMembers([], depth + 1, fmt) == []
  {
  }

  // The composing loop of print_object, `depth` being that of the members.
  method WriteLines(heap: Heap, out: array<char>, w: nat, names: array<array?<char>>, entries: array<array?<char>>,
                    ghost nameBufs: seq<array<char>>, ghost bufs: seq<array<char>>,
                    ghost members: seq<Member>, depth: nat, fmt: bool)
    returns (w': nat)
    requires Lists(names, nameBufs) && AllHold(nameBufs, NameTexts(members)) && Distinct(nameBufs)
    requires Lists(entries, bufs) && AllHold(bufs, ValueTexts(members, depth, fmt)) && Distinct(bufs)
    requires names.Length == entries.Length == |nameBufs| == |bufs| == |members|
    requires out !in nameBufs && out !in bufs && Objects(nameBufs) !! Objects(bufs)
    requires w + |PrintMembers(members, depth, fmt)| < out.Length
    requires Objects(nameBufs) + Objects(bufs) <= heap.live
    modifies heap, out
    ensures w' == w + |PrintMembers(members, depth, fmt)|
    ensures out[..w'] == old(out[..w]) + PrintMembers(members, depth, fmt)
    ensures heap.live == old(heap.live) - Objects(nameBufs) - Objects(bufs)
  {
    hide *;
    ghost var all, head := PrintMembers(members, depth, fmt), out[..w];
    var i := 0;
    w' := w;
    assert members[0..] == members && nameBufs[0..] == nameBufs && bufs[0..] == bufs;
    while i < entries.Length
      invariant 0 <= i <= entries.Length && w <= w'
      invariant Lists(names, nameBufs) && AllHold(nameBufs, NameTexts(members))
      invariant Lists(entries, bufs) && AllHold(bufs, ValueTexts(members, depth, fmt))
      invariant w' + |PrintMembers(members[i..], depth, fmt)| == w + |all|
      invariant out[..w'] + PrintMembers(members[i..], depth, fmt) == head + all
      invariant heap.live == old(heap.live) - Objects(nameBufs) - Objects(bufs) + Objects(nameBufs[i..]) + Objects(bufs[i..])
    {
      BufferAt(names, nameBufs, NameTexts(members), i);
      BufferAt(entries, bufs, ValueTexts(members, depth, fmt), i);
      ObjectsSplit(nameBufs, i);
      ObjectsSplit(bufs, i);
      w' := WriteLine(out, w', names[i], entries[i], members, i, i == entries.Length - 1, depth, fmt);
      ghost var was := heap.live;
      heap.Free(names[i]);
      heap.Free(entries[i]);
      FreedPair(old(heap.live), was, heap.live, Objects(nameBufs), Objects(bufs), names[i], entries[i],
                Objects(nameBufs[i + 1..]), Objects(bufs[i + 1..]));
      i := i + 1;
    }
    NoneLeft(nameBufs, i);
    NoneLeft(bufs, i);
    NoneToPrint(members, i, depth, fmt, out[..w']);
  }

  lemma {:induction false} NoneToPrint(members: seq<Member>, i: nat, depth: nat, fmt: bool, body: string)
    requires i == |members|
    ensures PrintMembers(members[i..], depth, fmt) == [] && body + PrintMembers(members[i..], depth, fmt) == body
  {
    assert body + [] == body;
  }

  method ComposeObject(heap: Heap, out: array<char>, names: array<array?<char>>, entries: array<array?<char>>,
                       ghost nameBufs: seq<array<char>>, ghost bufs: seq<array<char>>,
                       ghost members: seq<Member>, depth: nat, fmt: bool)
    requires Lists(names, nameBufs) && AllHold(nameBufs, NameTexts(members)) && Distinct(nameBufs)
    requires Lists(entries, bufs) && AllHold(bufs, ValueTexts(members, depth + 1, fmt)) && Distinct(bufs)
    requires names.Length == entries.Length == |nameBufs| == |bufs| == |members|
    requires out !in nameBufs && out !in bufs && Objects(nameBufs) !! Objects(bufs)
    requires out.Length == 7 + DepthSize(depth + 1, fmt) + MembersSize(members, depth + 1, fmt)
    requires Objects(nameBufs) + Objects(bufs) <= heap.live
    modifies heap, out
    ensures Holds(out, PrintValue(Obj(members), depth, fmt))
    ensures heap.live == old(heap.live) - Objects(nameBufs) - Objects(bufs)
  {
    hide *;
    ghost var all := PrintMembers(members, depth + 1, fmt);
    ObjectFits(members, depth, fmt);
    ObjectPrints(members, depth, fmt);
    DepthSizeIs(depth + 1, fmt);
    var w := Put(out, 0, '{');
    if fmt {
      w := Put(out, w, '\n');
    }
    Terminate(out, w);
    ghost var head := out[..w];
    HeadWritten(head, fmt);
    w := WriteLines(heap, out, w, names, entries, nameBufs, bufs, members, depth + 1, fmt);
    ghost var body := out[..w];
    if fmt {
      w := WriteTabs(out, w, depth);
    }
    IndentWritten(body, out[..w], depth, fmt);
    w := Put(out, w, '}');
    Terminate(out, w);
    ObjectWritten(head, all, Indent(depth, fmt), NewLine(fmt));
    HoldsIt(out, w, PrintValue(Obj(members), depth, fmt));
  }

  lemma {:induction false} FreedPair(before: set<object>, was: set<object>, now: set<object>, ns: set<object>, bs: set<object>,
                                     n: object, b: object, ns': set<object>, bs': set<object>)
    requires ns !! bs && n in ns && b in bs && ns' <= ns && bs' <= bs && n !in ns' && b !in bs'
    requires was == before - ns - bs + ({n} + ns') + ({b} + bs') && now == was - {n} - {b}
    ensures now == before - ns - bs + ns' + bs'
  {
  }

  lemma {:induction false} HeadWritten(head: string, fmt: bool)
    requires head == if fmt then [] + ['{'] + ['\n'] else [] + ['{']
    ensures head == ['{'] + NewLine(fmt)
  {
  }

  lemma {:induction false} ObjectWritten(head: string, all: string, indent: string, newLine: string)
    requires head == ['{'] + newLine
    ensures head + all + indent + ['}'] == ['{'] + ((newLine + (all + indent)) + ['}'])
  {
  }

  lemma {:induction false} MemberTextsAre(sh: Shape, depth: nat, fmt: bool)
    requires Named(sh) && sh.kind == ObjectKind && Prints(ValueOf(sh), depth, fmt)
    ensures forall k <- sh.kids :: Named(k) && k.name != null
    ensures MemberTexts(sh.kids, MembersOf(sh.kids), depth + 1, fmt) && |MembersOf(sh.kids)| == |sh.kids|
    ensures ValueOf(sh) == Obj(MembersOf(sh.kids))
  {
    hide Prints, Quote;
    var members := MembersOf(sh.kids);
    forall i: nat | i < |sh.kids|
      ensures sh.kids[i].name != null && Prints(ValueOf(sh.kids[i]), depth + 1, fmt) && Named(sh.kids[i])
      ensures |Quote(sh.kids[i].name.text)| + 1 <= INT_MAX
      ensures members[i] == Member(sh.kids[i].name.text, ValueOf(sh.kids[i]))
    {
      MembersAt(sh.kids, i);
      MemberPrints(members, i, depth, fmt);
    }
  }

  lemma {:induction false} MemberPrints(members: seq<Member>, i: nat, depth: nat, fmt: bool)
    requires i < |members| && Prints(Obj(members), depth, fmt)
    ensures Prints(members[i].value, depth + 1, fmt) && |Quote(members[i].name)| + 1 <= INT_MAX
  {
    hide Quote, MembersSize;
    assert members[i] in members;
    assert FitsMember(members[i], depth + 1, fmt);
  }

  lemma {:induction false} ObjectSize(sh: Shape, depth: nat, fmt: bool)
    requires Named(sh) && sh.kind == ObjectKind && Prints(ValueOf(sh), depth, fmt) && ValueOf(sh) == Obj(MembersOf(sh.kids))
    ensures var size := 7 + DepthSize(depth + 1, fmt) + MembersSize(MembersOf(sh.kids), depth + 1, fmt);
            0 <= size <= INT_MAX && ToInt32(size) == size
  {
    hide ToInt32, MembersSize, Printable, ValueOf, Named;
  }

  lemma {:induction false} AllFreed(before: set<object>, now: set<object>, out: object, ns: set<object>, bs: set<object>)
    requires before !! ns && before !! bs && out !in ns && out !in bs
    requires now == before + ns + bs + {out} - ns - bs
    ensures now == before + {out}
  {
  }

  // The texts of the members, collected in the two arrays and put together.
  method PrintCollected(heap: Heap, item: Node, names: array<array?<char>>, entries: array<array?<char>>,
                        ghost sh: Shape, depth: nat, fmt: bool)
    returns (out: array<char>)
    requires item == sh.node && sh.kind == ObjectKind && Mirrors(sh, true) && Named(sh) && Prints(ValueOf(sh), depth, fmt)
    requires names.Length == entries.Length == |sh.kids| && names != entries && SeenOf(sh.kids) <= heap.live
    modifies heap, names, entries
    ensures fresh(out) && heap.live == old(heap.live) + {out} && Holds(out, PrintValue(ValueOf(sh), depth, fmt))
    decreases sh, 0
  {
    hide *;
    MirrorParts(sh, true);
    MemberTextsAre(sh, depth, fmt);
    ghost var members := MembersOf(sh.kids);
    var len;
    ghost var nameBufs, bufs;
    len, nameBufs, bufs := PrintPairs(heap, item, names, entries, sh.kids, members, depth + 1, fmt);
    ObjectSize(sh, depth, fmt);
    out := NewBuffer(heap, len);
    ComposeObject(heap, out, names, entries, nameBufs, bufs, members, depth, fmt);
    AllFreed(old(heap.live), heap.live, out, Objects(nameBufs), Objects(bufs));
  }

  // print_object
  method PrintObject(heap: Heap, item: Node, ghost sh: Shape, depth: nat, fmt: bool) returns (out: array<char>)
    requires item == sh.node && sh.kind == ObjectKind && Mirrors(sh, true) && Named(sh) && Prints(ValueOf(sh), depth, fmt)
    requires SeenOf(sh.kids) <= heap.live
    modifies heap
    ensures fresh(out) && heap.live == old(heap.live) + {out} && Holds(out, PrintValue(ValueOf(sh), depth, fmt))
    decreases sh, 1
  {
    hide *;
    MirrorParts(sh, true);
    assert allocated(NodesOf(sh.kids, true)) && allocated(Below(sh, true));
    var n := GetSize(item, Roots(sh.kids));
    var entries := new array?<char>[n](_ => null);
    heap.Malloc(entries);
    var names := new array?<char>[n](_ => null);
    heap.Malloc(names);
    out := PrintCollected(heap, item, names, entries, sh, depth, fmt);
    heap.Free(names);
    heap.Free(entries);
  }

  // cJSON_Print (fmt) and cJSON_PrintUnformatted (!fmt)
  method PrintText(heap: Heap, item: Node, ghost sh: Shape, fmt: bool) returns (out: array<char>)
    requires item == sh.node && Mirrors(sh, true) && Named(sh) && Prints(ValueOf(sh), 0, fmt) && Seen(sh) <= heap.live
    modifies heap
    ensures fresh(out) && heap.live == old(heap.live) + {out} && Holds(out, Print(ValueOf(sh), fmt))
  {
    hide Mirrors, PrintValue, Named, Prints, ValueOf, Seen;
    out := PrintItem(heap, item, sh, 0, fmt);
  }
}
