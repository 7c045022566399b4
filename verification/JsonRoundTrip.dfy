/**
What cJSON prints is a text of the grammar, and parsing it gives back the tree.
*/
module JsonRoundTrip {
  import opened CInts
  import opened CStrings
  import opened JsonText
  import opened JsonParse
  import opened JsonLayout
  import opened JsonGrammar
  import opened JsonDocs
  import opened JsonSizes
  import opened JsonValues

  // ----- numbers ------------------------------------------------------------------------------

  lemma {:induction false} NatTextIsDecimal(n: nat)
    ensures Digits(NatText(n)) && Decimal(NatText(n)) == n
    ensures NatText(n)[0] == '0' <==> n == 0
    ensures n == 0 ==> NatText(n) == "0"
    decreases n
  {
    if n >= 10 {
      NatTextIsDecimal(n / 10);
      var s := NatText(n);
      assert s[..|s| - 1] == NatText(n / 10);
    } else {
      assert NatText(n)[..0] == [];
    }
  }

  ghost function IntLit(n: int): NumLit {
    NumLit(n < 0, NatText(if n < 0 then -n else n), "", "", NoSign, "")
  }

  lemma {:induction false} IntLitText(n: int)
    ensures NumberText(IntLit(n)) == IntText(n)
  {
    var sign, whole := if n < 0 then "-" else "", NatText(if n < 0 then -n else n);
    assert NumberText(IntLit(n)) == sign + (whole + ("" + ("" + ("" + ""))));
    assert IntText(n) == sign + whole;
    hide NatText, NumberText, IntText;
  }

  lemma {:induction false} IntLitMeaning(n: int)
    ensures NumberMeaning(IntLit(n)) == Number(n, 0)
  {
    var whole := NatText(if n < 0 then -n else n);
    NatTextIsDecimal(if n < 0 then -n else n);
    assert whole + [] == whole && Decimal([]) == 0;
    hide NatText, Decimal, Digits;
  }

  lemma {:induction false} IntReads(n: int)
    ensures LegalNumber(IntLit(n)) && NumberText(IntLit(n)) == IntText(n) && NumberMeaning(IntLit(n)) == Number(n, 0)
  {
    hide *;
    IntLitLegal(n);
    IntLitText(n);
    IntLitMeaning(n);
  }

  lemma {:induction false} IntLitLegal(n: int)
    ensures LegalNumber(IntLit(n))
  {
    NatTextIsDecimal(if n < 0 then -n else n);
    hide NatText, Decimal;
  }

  // ----- strings ------------------------------------------------------------------------------

  ghost function PieceOf(c: char): Piece
    requires IsByte(c) && c != NUL
  {
    if Plain(c) then Raw(c)
    else if |Escaped(c)| == 2 then Esc(Escaped(c)[1])
    else Hex('0', '0', HexDigit(c as int / 16), HexDigit(c as int % 16))
  }

  ghost function PiecesOf(s: CString): seq<Piece> {
    if s == [] then [] else [PieceOf(s[0])] + PiecesOf(s[1..])
  }

  lemma {:induction false} HexDigitValue(d: nat)
    requires d < 16
    ensures IsHex(HexDigit(d)) && HexValue(HexDigit(d)) == d
  {
  }

  // Every way print_string_ptr writes a byte is an escape of section 7 that means the byte.
  lemma {:induction false} PieceReads(c: char)
    requires IsByte(c) && c != NUL
    ensures LegalPiece(PieceOf(c)) && PieceText(PieceOf(c)) == Escaped(c) && PieceMeaning(PieceOf(c)) == [c]
    ensures (if PieceOf(c).Hex? then 5 else 1) <= |Escaped(c)|
  {
    if !Plain(c) && |Escaped(c)| != 2 {
      HexDigitValue(c as int / 16);
      HexDigitValue(c as int % 16);
      HexDigitValue(0);
      assert HexNumber('0', '0', HexDigit(c as int / 16), HexDigit(c as int % 16)) == c as int;
    }
  }

  // No way to write the byte that section 7 allows is shorter.
  lemma {:induction false} ShortestEscape(c: char, piece: Piece)
    requires IsByte(c) && c != NUL && LegalPiece(piece) && PieceMeaning(piece) == [c]
    ensures |Escaped(c)| <= |PieceText(piece)|
  {
    match piece
    case Raw(x) =>
      hide Escaped;
      RawEscape(x);
    case Esc(x) => EscEscape(x);
    case Hex(_, _, _, _) =>
      hide PieceMeaning;
  }

  lemma {:induction false} RawEscape(c: char)
    requires RawChar(c) && IsByte(c)
    ensures Escaped(c) == [c]
  {
  }

  lemma {:induction false} EscEscape(x: char)
    requires x in "\"\\/bfnrt"
    ensures IsByte(EscMeaning(x)) && EscMeaning(x) != NUL && |Escaped(EscMeaning(x))| <= 2
  {
  }

  lemma {:induction false} PiecesRead(s: CString)
    ensures CleanPieces(PiecesOf(s)) && GrammarPieces(PiecesOf(s)) && Count(PiecesOf(s)) <= |Escape(s)|
    ensures PiecesText(PiecesOf(s)) == Escape(s) && PiecesMeaning(PiecesOf(s)) == s
  {
    hide PieceOf, LegalPiece, PieceText, PieceMeaning, Escaped;
    if s != [] {
      assert s[0] in s;
      PieceReads(s[0]);
      PiecesRead(s[1..]);
      assert PiecesOf(s)[1..] == PiecesOf(s[1..]);
      assert s == [s[0]] + s[1..];
      FirstPiece(PiecesOf(s));
      assert Count(PiecesOf(s)) == (if PieceOf(s[0]).Hex? then 5 else 1) + Count(PiecesOf(s[1..]));
    }
    LegalIsGrammar(PiecesOf(s));
  }

  lemma {:induction false} LegalIsGrammar(ps: seq<Piece>)
    ensures CleanPieces(ps) ==> GrammarPieces(ps)
  {
    assert forall p <- ps :: LegalPiece(p) ==> GrammarPiece(p);
  }

  lemma {:induction false} FirstPiece(ps: seq<Piece>)
    requires ps != [] && LegalPiece(ps[0]) && CleanPieces(ps[1..])
    ensures CleanPieces(ps)
  {
    assert forall p <- ps :: p == ps[0] || p in ps[1..];
  }

  lemma {:induction false} QuoteReads(s: CString)
    requires |Quote(s)| < INT_MAX
    ensures LegalPieces(PiecesOf(s)) && StringText(PiecesOf(s)) == Quote(s) && NoNuls(PiecesOf(s)) == s
  {
    PiecesRead(s);
  }

  // ----- values -------------------------------------------------------------------------------

  ghost function DocOf(j: Json, depth: nat, fmt: bool): Doc
    decreases j
  {
    match j
    case Null => DNull
    case False => DFalse
    case True => DTrue
    case Number(m, _) => DNumber(IntLit(m))
    case Str(s) => DString(PiecesOf(s))
    case Arr(items) => DArray("", ItemDocs(items, depth + 1, fmt, true))
    case Obj(members) => DObject(NewLine(fmt) + Indent(depth, fmt), MemberDocs(members, depth + 1, fmt))
  }

  ghost function Gap(fmt: bool, first: bool): string {
    if fmt && !first then " " else ""
  }

  ghost function ItemDocs(items: seq<Json>, depth: nat, fmt: bool, first: bool): seq<DItem>
    decreases items
  {
    if items == [] then []
    else [DItem(Gap(fmt, first), DocOf(items[0], depth, fmt), "")] + ItemDocs(items[1..], depth, fmt, false)
  }

  // The line break and tabs in front of the closing brace belong to the last member.
  ghost function MemberDoc(m: Member, depth: nat, fmt: bool, last: bool): DMember
    requires depth > 0
    decreases m
  {
    DMember(NewLine(fmt) + Indent(depth, fmt), PiecesOf(m.name), "", if fmt then "\t" else "",
            DocOf(m.value, depth, fmt), if last then NewLine(fmt) + Indent(depth - 1, fmt) else "")
  }

  ghost function MemberDocs(members: seq<Member>, depth: nat, fmt: bool): seq<DMember>
    requires depth > 0
    decreases members
  {
    if members == [] then []
    else [MemberDoc(members[0], depth, fmt, |members| == 1)] + MemberDocs(members[1..], depth, fmt)
  }

  ghost predicate Reads(d: Doc, text: string, j: Json) {
    Legal(d) && Text(d) == text && Meaning(d) == j
  }

  ghost predicate ItemsRead(ds: seq<DItem>, text: string, items: seq<Json>) {
    (forall x <- ds :: LegalItem(x)) && ItemsText(ds) == text && ItemsMeaning(ds) == items
  }

  ghost predicate MembersRead(ds: seq<DMember>, text: string, members: seq<Member>) {
    (forall x <- ds :: LegalMember(x)) && MembersText(ds) == text && MembersMeaning(ds) == members
  }

  // Every number is held as a 32-bit integer.
  ghost predicate Integral(j: Json) {
    match j
    case Number(m, e) => e == 0 && INT_MIN <= m <= INT_MAX
    case Arr(items) => forall x <- items :: Integral(x)
    case Obj(members) => forall x <- members :: Integral(x.value)
    case _ => true
  }

  ghost predicate Readable(j: Json, depth: nat, fmt: bool) {
    Integral(j) && FitsInt(j, depth, fmt)
  }

  ghost predicate ReadableMember(m: Member, depth: nat, fmt: bool) {
    Readable(m.value, depth, fmt) && |Quote(m.name)| < INT_MAX
  }

  lemma {:induction false} DocReads(j: Json, depth: nat, fmt: bool)
    requires Readable(j, depth, fmt)
    ensures Reads(DocOf(j, depth, fmt), PrintValue(j, depth, fmt), j)
    decreases j
  {
    hide Reads;
    match j
    case Arr(items) => hide *; ArrReads(j, depth, fmt);
    case Obj(members) => hide *; ObjReads(j, depth, fmt);
    case _ => hide *; ScalarReads(j, depth, fmt);
  }

  lemma {:induction false} ScalarReads(j: Json, depth: nat, fmt: bool)
    requires Readable(j, depth, fmt) && !j.Arr? && !j.Obj?
    ensures Reads(DocOf(j, depth, fmt), PrintValue(j, depth, fmt), j)
  {
    hide IntLit, PiecesOf, LegalNumber, NumberText, NumberMeaning, LegalPieces, StringText, NoNuls, IntText, Quote;
    match j
    case Number(m, e) =>
      assert IntOf(m, 0) == m;
      IntReads(m);
    case Str(s) => QuoteReads(s);
    case _ =>
  }

  lemma {:induction false} AllReadable(j: Json, depth: nat, fmt: bool)
    requires Readable(j, depth, fmt)
    ensures j.Arr? ==> forall x <- j.items :: Readable(x, depth + 1, fmt)
    ensures j.Obj? ==> forall m <- j.members :: ReadableMember(m, depth + 1, fmt)
  {
    hide Quote, PrintItems, EntriesSize, MembersSize;
    if j.Obj? {
      forall m | m in j.members ensures ReadableMember(m, depth + 1, fmt) {
        assert FitsMember(m, depth + 1, fmt);
      }
    }
  }

  lemma {:induction false} ArrUnfold(items: seq<Json>, depth: nat, fmt: bool)
    ensures var inside := Join(PrintItems(items, depth + 1, fmt), Separator(fmt));
            PrintValue(Arr(items), depth, fmt) == ['['] + (inside + [']']) && (items == [] ==> inside == [])
    ensures DocOf(Arr(items), depth, fmt) == DArray("", ItemDocs(items, depth + 1, fmt, true)) && Gap(fmt, true) == []
  {
  }

  lemma {:induction false} ObjUnfold(members: seq<Member>, depth: nat, fmt: bool)
    ensures PrintValue(Obj(members), depth, fmt)
            == ['{'] + (ObjectInside(PrintMembers(members, depth + 1, fmt), depth, fmt) + ['}'])
    ensures DocOf(Obj(members), depth, fmt) == DObject(NewLine(fmt) + Indent(depth, fmt), MemberDocs(members, depth + 1, fmt))
    ensures members == [] ==>
              && MemberDocs(members, depth + 1, fmt) == []
              && ObjectInside(PrintMembers(members, depth + 1, fmt), depth, fmt) == NewLine(fmt) + Indent(depth, fmt)
  {
    assert [] + Indent(depth, fmt) == Indent(depth, fmt);
    hide Indent, NewLine;
  }

  lemma {:induction false} ArrReads(j: Json, depth: nat, fmt: bool)
    requires j.Arr? && Readable(j, depth, fmt)
    ensures Reads(DocOf(j, depth, fmt), PrintValue(j, depth, fmt), j)
    decreases j, 0
  {
    hide *;
    var items := j.items;
    var inside := Join(PrintItems(items, depth + 1, fmt), Separator(fmt));
    ArrUnfold(items, depth, fmt);
    AllReadable(j, depth, fmt);
    assert [] + inside == inside;
    ItemsReads(items, depth + 1, fmt, true);
    ArrayDoc(ItemDocs(items, depth + 1, fmt, true), inside, items);
  }

  lemma {:induction false} ArrayDoc(ds: seq<DItem>, text: string, items: seq<Json>)
    requires ItemsRead(ds, text, items)
    ensures Reads(DArray("", ds), ['['] + (text + [']']), Arr(items))
  {
    hide LegalItem, ItemsMeaning;
    assert ds == [] ==> text == [];
    hide ItemsText;
  }

  lemma {:induction false} ObjReads(j: Json, depth: nat, fmt: bool)
    requires j.Obj? && Readable(j, depth, fmt)
    ensures Reads(DocOf(j, depth, fmt), PrintValue(j, depth, fmt), j)
    decreases j, 0
  {
    hide *;
    var members := j.members;
    var open := NewLine(fmt) + Indent(depth, fmt);
    var inside := ObjectInside(PrintMembers(members, depth + 1, fmt), depth, fmt);
    ObjUnfold(members, depth, fmt);
    AllReadable(j, depth, fmt);
    WhiteIndent(depth, fmt);
    if members == [] {
      EmptyObject(open);
    } else {
      MembersReads(members, depth + 1, fmt);
      ObjectDoc(open, MemberDocs(members, depth + 1, fmt), inside, members);
    }
  }

  lemma {:induction false} WhiteIndent(depth: nat, fmt: bool)
    ensures White(Indent(depth, fmt)) && White(NewLine(fmt) + Indent(depth, fmt))
  {
    if fmt && depth > 0 {
      WhiteIndent(depth - 1, fmt);
    }
  }

  lemma {:induction false} EmptyObject(open: string)
    requires White(open)
    ensures Reads(DObject(open, []), ['{'] + (open + ['}']), Obj([]))
  {
  }

  lemma {:induction false} ObjectDoc(open: string, ds: seq<DMember>, text: string, members: seq<Member>)
    requires MembersRead(ds, text, members) && White(open) && members != []
    ensures Reads(DObject(open, ds), ['{'] + (text + ['}']), Obj(members))
  {
    assert ds == [] ==> members == [];
    hide LegalMember, MembersMeaning, MembersText;
  }

  // ----- array elements -----------------------------------------------------------------------

  lemma {:induction false} ItemsCons(before: string, d: Doc, text: string, j: Json, ds: seq<DItem>, rest: string, items: seq<Json>)
    requires White(before) && Reads(d, text, j) && ItemsRead(ds, rest, items)
    ensures ItemsRead([DItem(before, d, "")] + ds,
                      before + text + (if ds == [] then "" else "," + rest), [j] + items)
  {
    var x := DItem(before, d, "");
    var all := [x] + ds;
    assert all[1..] == ds;
    assert ItemText(x) == before + text;
    assert LegalItem(x);
    assert forall y <- all :: y == x || y in ds;
    assert ItemsMeaning(all) == [j] + items;
    assert ItemsText(all) == ItemText(x) + ((if ds == [] then "" else ",") + rest);
    hide ItemsText, ItemText, LegalItem, ItemsMeaning;
  }

  lemma {:induction false} ItemsUnfold(items: seq<Json>, depth: nat, fmt: bool, first: bool)
    requires items != []
    ensures ItemDocs(items, depth, fmt, first)
            == [DItem(Gap(fmt, first), DocOf(items[0], depth, fmt), "")] + ItemDocs(items[1..], depth, fmt, false)
    ensures ItemDocs(items[1..], depth, fmt, false) == [] <==> |items| == 1
    ensures var head := PrintValue(items[0], depth, fmt);
            Join(PrintItems(items, depth, fmt), Separator(fmt))
            == if |items| == 1 then head
               else head + (Separator(fmt) + Join(PrintItems(items[1..], depth, fmt), Separator(fmt)))
  {
    hide DocOf, PrintValue;
    assert PrintItems(items, depth, fmt)[1..] == PrintItems(items[1..], depth, fmt);
  }

  lemma {:induction false} Gaps(fmt: bool, first: bool)
    ensures White(Gap(fmt, first)) && Separator(fmt) == "," + Gap(fmt, false)
  {
  }

  lemma {:induction false} NoItems(depth: nat, fmt: bool, first: bool)
    ensures ItemsRead(ItemDocs([], depth, fmt, first), "", [])
  {
  }

  lemma {:induction false} ItemsReads(items: seq<Json>, depth: nat, fmt: bool, first: bool)
    requires forall x <- items :: Readable(x, depth, fmt)
    ensures ItemsRead(ItemDocs(items, depth, fmt, first),
                      if items == [] then "" else Gap(fmt, first) + Join(PrintItems(items, depth, fmt), Separator(fmt)),
                      items)
    decreases items
  {
    hide *;
    if items == [] {
      NoItems(depth, fmt, first);
    } else {
      assert items[0] in items && items == [items[0]] + items[1..];
      DocReads(items[0], depth, fmt);
      ItemsReads(items[1..], depth, fmt, false);
      ItemsUnfold(items, depth, fmt, first);
      Gaps(fmt, first);
      var head := PrintValue(items[0], depth, fmt);
      var ds := ItemDocs(items[1..], depth, fmt, false);
      if |items| == 1 {
        ItemsCons(Gap(fmt, first), DocOf(items[0], depth, fmt), head, items[0], ds, "", []);
        assert Gap(fmt, first) + head + "" == Gap(fmt, first) + head;
      } else {
        var more := Join(PrintItems(items[1..], depth, fmt), Separator(fmt));
        ItemsCons(Gap(fmt, first), DocOf(items[0], depth, fmt), head, items[0], ds, Gap(fmt, false) + more, items[1..]);
        Regroup(Gap(fmt, first), head, ",", Gap(fmt, false), more);
      }
    }
  }

  lemma {:induction false} Regroup(a: string, b: string, c: string, d: string, e: string)
    ensures a + b + (c + (d + e)) == a + (b + ((c + d) + e))
  {
  }

  // ----- object members -----------------------------------------------------------------------

  lemma {:induction false} MembersCons(x: DMember, text: string, m: Member, ds: seq<DMember>, rest: string, members: seq<Member>)
    requires LegalMember(x) && MemberText(x) == text && NoNuls(x.name) == m.name && Meaning(x.value) == m.value
    requires MembersRead(ds, rest, members)
    ensures MembersRead([x] + ds, text + (if ds == [] then "" else "," + rest), [m] + members)
  {
    var all := [x] + ds;
    assert all[1..] == ds;
    assert forall y <- all :: y == x || y in ds;
    assert MembersMeaning(all) == [m] + members;
    assert MembersText(all) == text + ((if ds == [] then "" else ",") + rest);
    hide MembersText, MemberText, LegalMember, MembersMeaning, NoNuls, Meaning;
  }

  lemma {:induction false} NoMembers()
    ensures MembersRead([], "", [])
  {
  }

  lemma {:induction false} MembersUnfold(members: seq<Member>, depth: nat, fmt: bool)
    requires members != [] && depth > 0
    ensures MemberDocs(members, depth, fmt)
            == [MemberDoc(members[0], depth, fmt, |members| == 1)] + MemberDocs(members[1..], depth, fmt)
    ensures MemberDocs(members[1..], depth, fmt) == [] <==> |members| == 1
    ensures PrintMembers(members, depth, fmt)
            == PrintMember(members[0], depth, fmt)
               + (if |members| == 1 then NewLine(fmt)
                  else "," + (NewLine(fmt) + PrintMembers(members[1..], depth, fmt)))
  {
    hide MemberDoc, PrintMember;
    if |members| == 1 {
      assert members[1..] == [];
      var end := NewLine(fmt);
      assert [] + (end + []) == end;
    }
  }

  ghost function MemberEnd(depth: nat, fmt: bool, last: bool): string
    requires depth > 0
  {
    if last then NewLine(fmt) + Indent(depth - 1, fmt) else ""
  }

  // One member, with the line break in front of it.
  lemma {:induction false} MemberReads(m: Member, depth: nat, fmt: bool, last: bool)
    requires depth > 0 && Reads(DocOf(m.value, depth, fmt), PrintValue(m.value, depth, fmt), m.value)
    requires |Quote(m.name)| < INT_MAX
    ensures var x := MemberDoc(m, depth, fmt, last);
            && LegalMember(x) && MemberText(x) == NewLine(fmt) + PrintMember(m, depth, fmt) + MemberEnd(depth, fmt, last)
            && NoNuls(x.name) == m.name && Meaning(x.value) == m.value
  {
    hide *;
    var gap, after := if fmt then "\t" else "", MemberEnd(depth, fmt, last);
    var value := PrintValue(m.value, depth, fmt);
    PrintMemberIs(m, depth, fmt);
    MemberDocIs(m, depth, fmt, last);
    WhiteAround(depth, fmt, last);
    QuoteReads(m.name);
    MemberMade(NewLine(fmt) + Indent(depth, fmt), PiecesOf(m.name), gap, DocOf(m.value, depth, fmt), after, value, m.value);
    RegroupMember(NewLine(fmt), Indent(depth, fmt), Quote(m.name), gap, value, after);
  }

  lemma {:induction false} PrintMemberIs(m: Member, depth: nat, fmt: bool)
    ensures PrintMember(m, depth, fmt)
            == Indent(depth, fmt) + (Quote(m.name) + ((":" + (if fmt then "\t" else "")) + PrintValue(m.value, depth, fmt)))
  {
    assert (if fmt then ":\t" else ":") == ":" + if fmt then "\t" else "";
    hide Indent, Quote, PrintValue;
  }

  lemma {:induction false} MemberDocIs(m: Member, depth: nat, fmt: bool, last: bool)
    requires depth > 0
    ensures MemberDoc(m, depth, fmt, last)
            == DMember(NewLine(fmt) + Indent(depth, fmt), PiecesOf(m.name), "", if fmt then "\t" else "",
                       DocOf(m.value, depth, fmt), MemberEnd(depth, fmt, last))
  {
    hide Indent, NewLine, PiecesOf, DocOf;
  }

  lemma {:induction false} WhiteAround(depth: nat, fmt: bool, last: bool)
    requires depth > 0
    ensures White(NewLine(fmt) + Indent(depth, fmt)) && White(MemberEnd(depth, fmt, last))
    ensures White(if fmt then "\t" else "") && White("")
  {
    WhiteIndent(depth, fmt);
    WhiteIndent(depth - 1, fmt);
    hide Indent;
  }

  lemma {:induction false} MemberMade(before: string, name: seq<Piece>, gap: string, d: Doc, after: string, text: string, v: Json)
    requires White(before) && White("") && White(gap) && White(after) && LegalPieces(name) && Reads(d, text, v)
    ensures var x := DMember(before, name, "", gap, d, after);
            && LegalMember(x) && Legal(d) && Meaning(d) == v
            && MemberText(x) == before + (StringText(name) + ("" + (":" + (gap + (text + after)))))
  {
    hide White, LegalPieces, StringText, Text, Legal, Meaning;
  }

  lemma {:induction false} RegroupMember(nl: string, indent: string, name: string, gap: string, value: string, end: string)
    ensures (nl + indent) + (name + ("" + (":" + (gap + (value + end)))))
            == nl + (indent + (name + ((":" + gap) + value))) + end
  {
    assert (":" + (gap + (value + end))) == ((":" + gap) + value) + end;
    var v := (":" + gap) + value;
    assert "" + (v + end) == v + end;
    assert (nl + indent) + (name + (v + end)) == nl + (indent + (name + v)) + end;
  }

  lemma {:induction false} MembersReads(members: seq<Member>, depth: nat, fmt: bool)
    requires depth > 0 && members != [] && forall m <- members :: ReadableMember(m, depth, fmt)
    ensures MembersRead(MemberDocs(members, depth, fmt),
                        ObjectInside(PrintMembers(members, depth, fmt), depth - 1, fmt), members)
    decreases members
  {
    hide *;
    var m, last := members[0], |members| == 1;
    assert m in members && members == [m] + members[1..];
    MemberIs(m, depth, fmt);
    DocReads(m.value, depth, fmt);
    MemberReads(m, depth, fmt, last);
    MembersUnfold(members, depth, fmt);
    var nl, indent, text := NewLine(fmt), Indent(depth - 1, fmt), PrintMember(m, depth, fmt);
    var ds := MemberDocs(members[1..], depth, fmt);
    MemberEnds(depth, fmt);
    if last {
      NoMembers();
      MembersCons(MemberDoc(m, depth, fmt, true), nl + text + (nl + indent), m, ds, "", []);
      RegroupLast(nl, text, indent);
      Insides(text + nl, depth - 1, fmt);
    } else {
      var more := PrintMembers(members[1..], depth, fmt);
      MembersReads(members[1..], depth, fmt);
      Insides(more, depth - 1, fmt);
      MembersCons(MemberDoc(m, depth, fmt, false), nl + text + "", m, ds, nl + (more + indent), members[1..]);
      RegroupMore(nl, text, more, indent);
      Insides(text + ("," + (nl + more)), depth - 1, fmt);
    }
  }

  lemma {:induction false} MemberIs(m: Member, depth: nat, fmt: bool)
    requires ReadableMember(m, depth, fmt)
    ensures Readable(m.value, depth, fmt) && |Quote(m.name)| < INT_MAX
  {
    hide Readable, Quote;
  }

  lemma {:induction false} MemberEnds(depth: nat, fmt: bool)
    requires depth > 0
    ensures MemberEnd(depth, fmt, true) == NewLine(fmt) + Indent(depth - 1, fmt) && MemberEnd(depth, fmt, false) == ""
  {
  }

  lemma {:induction false} Insides(members: CString, depth: nat, fmt: bool)
    ensures ObjectInside(members, depth, fmt) == NewLine(fmt) + (members + Indent(depth, fmt))
  {
  }

  lemma {:induction false} RegroupLast(nl: string, text: string, indent: string)
    ensures nl + text + (nl + indent) + "" == nl + ((text + nl) + indent)
  {
  }

  lemma {:induction false} RegroupMore(nl: string, text: string, more: string, indent: string)
    ensures nl + text + "" + ("," + (nl + (more + indent))) == nl + ((text + ("," + (nl + more))) + indent)
  {
  }

  // ----- the round trip -----------------------------------------------------------------------

  lemma {:induction false} ReadsBack(j: Json, fmt: bool)
    requires Readable(j, 0, fmt)
    ensures var t := Print(j, fmt); Parse(t) == Ok(j, |t|)
  {
    hide Readable;
    DocReads(j, 0, fmt);
    var t := Print(j, fmt);
    assert [] + (t + []) == t;
    TextParses(t, [], DocOf(j, 0, fmt), []);
  }

  // The tree with each number as print_number sees it: the 32-bit integer it denotes.
  ghost function WithInts(j: Json): Json
    decreases j
  {
    match j
    case Number(m, e) => Number(IntOf(m, e), 0)
    case Arr(items) => Arr(ItemsWithInts(items))
    case Obj(members) => Obj(MembersWithInts(members))
    case _ => j
  }

  ghost function ItemsWithInts(items: seq<Json>): (r: seq<Json>)
    ensures |r| == |items|
    decreases items
  {
    if items == [] then [] else [WithInts(items[0])] + ItemsWithInts(items[1..])
  }

  ghost function MembersWithInts(members: seq<Member>): (r: seq<Member>)
    ensures |r| == |members|
    decreases members
  {
    if members == [] then [] else [Member(members[0].name, WithInts(members[0].value))] + MembersWithInts(members[1..])
  }

  lemma {:induction false} TenIsPower(k: nat)
    ensures Ten(k) == Power(k) as real
  {
    if k == 0 {
      TenZero();
    } else {
      TenIsPower(k - 1);
      TenNext(k - 1);
    }
  }

  lemma {:induction false} WholeQuotient(m: int, p: nat)
    requires p > 0 && m % p == 0
    ensures m == (if m < 0 then -(-m / p) else m / p) * p
  {
    assert m == m / p * p + m % p;
    if m < 0 {
      NegativeQuotient(m, p);
    }
  }

  lemma {:induction false} NegativeQuotient(m: int, p: nat)
    requires p > 0 && m % p == 0
    ensures -m / p == -(m / p)
  {
    var q := m / p;
    assert m == q * p;
    assert -m == (-q) * p;
    QuotientIs(-m, -q, p);
  }

  lemma {:induction false} QuotientIs(m: int, q: int, p: nat)
    requires p > 0 && m == q * p
    ensures m / p == q
  {
    var d := q - m / p;
    assert d * p == m % p;
    Multiples(d, p);
  }

  lemma {:induction false} Multiples(d: int, p: int)
    requires p > 0
    ensures (d >= 1 ==> d * p >= p) && (d <= -1 ==> d * p <= -p)
  {
    assert d * p == p + (d - 1) * p == (d + 1) * p - p;
  }

  lemma {:induction false} Cancels(n: int, p: nat, t: real)
    requires p as real * t == 1.0
    ensures n as real == (n * p) as real * t
  {
    assert (n * p) as real == n as real * p as real;
    Grouped(n as real, p as real, t);
  }

  lemma {:induction false} Grouped(x: real, y: real, z: real)
    ensures x * y * z == x * (y * z)
  {
  }

  // valueint denotes the number.
  lemma {:induction false} IntDenotes(m: int, e: int)
    requires IsInt(m, e)
    ensures Denoted(IntOf(m, e), 0) == Denoted(m, e)
  {
    hide Ten;
    TenZero();
    if e >= 0 {
      TenIsPower(e);
    } else {
      TenIsPower(-e);
      TenAdd(e, -e);
      WholeQuotient(m, Power(-e));
      Cancels(IntOf(m, e), Power(-e), Ten(e));
    }
  }

  lemma {:induction false} IntIsPlain(m: int, e: int)
    requires IsInt(m, e)
    ensures Integral(Number(IntOf(m, e), 0)) && IntOf(IntOf(m, e), 0) == IntOf(m, e)
  {
  }

  // The integers are printed as the numbers are.
  lemma {:induction false} PrintsAlike(j: Json, depth: nat, fmt: bool)
    requires Printable(j)
    ensures PrintValue(WithInts(j), depth, fmt) == PrintValue(j, depth, fmt)
    ensures Integral(WithInts(j)) && SameValue(WithInts(j), j) && (FitsInt(j, depth, fmt) ==> FitsInt(WithInts(j), depth, fmt))
    decreases j
  {
    match j
    case Number(m, e) =>
      IntIsPlain(m, e);
      IntDenotes(m, e);
    case Arr(items) => ItemsAlike(items, depth + 1, fmt);
    case Obj(members) =>
      hide *;
      AllNumbers(j);
      MembersAlike(members, depth + 1, fmt);
      MembersJoined(j, depth, fmt);
    case _ =>
  }

  lemma {:induction false} AllNumbers(j: Json)
    requires Printable(j)
    ensures j.Obj? ==> forall m <- j.members :: Printable(m.value)
  {
  }

  lemma {:induction false} ItemsAlike(items: seq<Json>, depth: nat, fmt: bool)
    requires forall x <- items :: Printable(x)
    ensures PrintItems(ItemsWithInts(items), depth, fmt) == PrintItems(items, depth, fmt)
    ensures forall i :: 0 <= i < |items| ==> SameValue(ItemsWithInts(items)[i], items[i])
    ensures forall x <- ItemsWithInts(items) :: Integral(x)
    ensures (forall x <- items :: FitsInt(x, depth, fmt)) ==> forall x <- ItemsWithInts(items) :: FitsInt(x, depth, fmt)
    decreases items
  {
    hide PrintValue, WithInts, FitsInt, Integral, SameValue, Printable;
    if items != [] {
      PrintsAlike(items[0], depth, fmt);
      ItemsAlike(items[1..], depth, fmt);
    }
  }

  lemma {:induction false} MemberAlike(m: Member, v: Json, depth: nat, fmt: bool)
    requires PrintValue(v, depth, fmt) == PrintValue(m.value, depth, fmt)
    requires FitsInt(m.value, depth, fmt) ==> FitsInt(v, depth, fmt)
    ensures var x := Member(m.name, v);
            && PrintMember(x, depth, fmt) == PrintMember(m, depth, fmt)
            && (FitsMember(m, depth, fmt) ==> FitsMember(x, depth, fmt))
  {
    hide PrintValue, FitsInt, Quote, Indent;
  }

  // What the printing of a list of members depends on.
  ghost predicate Alike(xs: seq<Member>, ys: seq<Member>, depth: nat, fmt: bool) {
    && |xs| == |ys| && PrintMembers(xs, depth, fmt) == PrintMembers(ys, depth, fmt)
    && MembersSize(xs, depth, fmt) == MembersSize(ys, depth, fmt)
  }

  lemma {:induction false} AlikeCons(x: Member, y: Member, xs: seq<Member>, ys: seq<Member>, depth: nat, fmt: bool)
    requires x.name == y.name && PrintValue(x.value, depth, fmt) == PrintValue(y.value, depth, fmt)
    requires PrintMember(x, depth, fmt) == PrintMember(y, depth, fmt) && Alike(xs, ys, depth, fmt)
    ensures Alike([x] + xs, [y] + ys, depth, fmt)
  {
    hide PrintValue, PrintMember, Quote, NewLine, MemberSize;
    assert ([x] + xs)[1..] == xs && ([y] + ys)[1..] == ys;
  }

  ghost predicate MemberSame(x: Member, y: Member) {
    x.name == y.name && SameValue(x.value, y.value) && Integral(x.value)
  }

  lemma {:induction false} MembersAlike(members: seq<Member>, depth: nat, fmt: bool)
    requires forall m <- members :: Printable(m.value)
    ensures Alike(MembersWithInts(members), members, depth, fmt)
    ensures forall i :: 0 <= i < |members| ==> MemberSame(MembersWithInts(members)[i], members[i])
    ensures (forall m <- members :: FitsMember(m, depth, fmt)) ==> forall m <- MembersWithInts(members) :: FitsMember(m, depth, fmt)
    decreases members
  {
    hide PrintValue, WithInts, FitsInt, FitsMember, Integral, SameValue, Printable, Alike, PrintMember, MembersSize, PrintMembers;
    if members == [] {
      assert Alike([], [], depth, fmt) by { NobodyAlike(depth, fmt); }
    } else {
      var m, rest := members[0], members[1..];
      PrintsAlike(m.value, depth, fmt);
      MemberAlike(m, WithInts(m.value), depth, fmt);
      MembersAlike(rest, depth, fmt);
      AlikeCons(Member(m.name, WithInts(m.value)), m, MembersWithInts(rest), rest, depth, fmt);
      assert members == [m] + rest;
    }
  }

  lemma {:induction false} NobodyAlike(depth: nat, fmt: bool)
    ensures Alike([], [], depth, fmt)
  {
  }

  lemma {:induction false} MembersJoined(j: Json, depth: nat, fmt: bool)
    requires Printable(j) && j.Obj?
    requires Alike(MembersWithInts(j.members), j.members, depth + 1, fmt)
    requires forall i :: 0 <= i < |j.members| ==> MemberSame(MembersWithInts(j.members)[i], j.members[i])
    requires (forall m <- j.members :: FitsMember(m, depth + 1, fmt)) ==>
               forall m <- MembersWithInts(j.members) :: FitsMember(m, depth + 1, fmt)
    ensures PrintValue(WithInts(j), depth, fmt) == PrintValue(j, depth, fmt)
    ensures Integral(WithInts(j)) && SameValue(WithInts(j), j) && (FitsInt(j, depth, fmt) ==> FitsInt(WithInts(j), depth, fmt))
  {
    hide MembersWithInts, FitsMember, PrintMembers, MembersSize, Printable;
  }

  lemma {:induction false} IntsStay(j: Json)
    requires Integral(j)
    ensures WithInts(j) == j && Printable(j)
    decreases j
  {
    match j
    case Number(m, e) => assert IntOf(m, 0) == m;
    case Arr(items) => ItemsIntsStay(items);
    case Obj(members) => MembersIntsStay(members);
    case _ =>
  }

  lemma {:induction false} ItemsIntsStay(items: seq<Json>)
    requires forall x <- items :: Integral(x)
    ensures ItemsWithInts(items) == items && forall x <- items :: Printable(x)
    decreases items
  {
    hide WithInts, Integral, Printable;
    if items != [] {
      IntsStay(items[0]);
      ItemsIntsStay(items[1..]);
      assert items == [items[0]] + items[1..];
    }
  }

  lemma {:induction false} MembersIntsStay(members: seq<Member>)
    requires forall m <- members :: Integral(m.value)
    ensures MembersWithInts(members) == members && forall m <- members :: Printable(m.value)
    decreases members
  {
    hide WithInts, Integral, Printable;
    if members != [] {
      IntsStay(members[0].value);
      MembersIntsStay(members[1..]);
      assert members == [members[0]] + members[1..];
    }
  }

  // cJSON_Parse undoes both cJSON_Print and cJSON_PrintUnformatted: it gives back the tree, with each
  // number as the integer it denotes.
  lemma {:induction false} RoundTrip(j: Json, fmt: bool)
    requires Printable(j) && FitsInt(j, 0, fmt)
    ensures var t := Print(j, fmt); Parse(t) == Ok(WithInts(j), |t|)
    ensures SameValue(WithInts(j), j) && (Integral(j) ==> WithInts(j) == j)
  {
    hide *;
    PrintsAlike(j, 0, fmt);
    ReadableIs(WithInts(j), 0, fmt);
    ReadsBack(WithInts(j), fmt);
    PrintIs(j, fmt);
    PrintIs(WithInts(j), fmt);
    if Integral(j) {
      IntsStay(j);
    }
  }

  lemma {:induction false} NoRest()
    ensures Follow(At([], 0))
  {
  }

  lemma {:induction false} ReadableIs(j: Json, depth: nat, fmt: bool)
    ensures Readable(j, depth, fmt) <==> Integral(j) && FitsInt(j, depth, fmt)
  {
    hide Integral, FitsInt;
  }

  lemma {:induction false} PrintIs(j: Json, fmt: bool)
    ensures Print(j, fmt) == PrintValue(j, 0, fmt)
  {
    hide PrintValue;
  }

  // Any document of 32-bit integers, however it is laid out and its numbers are written, means the
  // same after it was parsed, printed and parsed again.
  lemma {:induction false} Reprints(t: CString, w: string, d: Doc, fmt: bool)
    requires Legal(d) && White(w) && t == w + Text(d) && Printable(Meaning(d)) && FitsInt(Meaning(d), 0, fmt)
    ensures Parse(t).Ok? && Parse(Print(Parse(t).value, fmt)).Ok?
    ensures SameValue(Parse(Print(Parse(t).value, fmt)).value, Parse(t).value)
  {
    hide *;
    assert w + (Text(d) + []) == t;
    NoRest();
    TextParses(t, w, d, []);
    RoundTrip(Meaning(d), fmt);
  }
}
