/**
JSON texts by the grammar of RFC 8259, with every choice of white space, escapes and number
notation, and what each text means.
*/
module JsonLayout {
  import opened CInts
  import opened Options
  import opened CStrings
  import opened JsonText
  import opened JsonParse

  // ----- section 2: white space ---------------------------------------------------------------

  ghost predicate White(s: string) {
    forall c <- s :: c == ' ' || c == '\t' || c == '\n' || c == '\r'
  }

  // ----- section 6: numbers -------------------------------------------------------------------

  datatype ExpSign = NoSign | PlusSign | MinusSign

  // [ minus ] int [ frac ] [ exp ]; `frac` is empty when there is none.
  datatype NumLit = NumLit(minus: bool, whole: string, frac: string, e: string, sign: ExpSign, exp: string)

  ghost predicate Digits(s: string) {
    forall c <- s :: IsDigit(c)
  }

  ghost predicate LegalNumber(n: NumLit) {
    && Digits(n.whole) && Digits(n.frac) && Digits(n.exp)
    && n.whole != [] && (n.whole[0] == '0' ==> n.whole == "0")
    && (if n.e == [] then n.exp == [] && n.sign == NoSign else (n.e == "e" || n.e == "E") && n.exp != [])
  }

  ghost function SignText(s: ExpSign): string {
    match s
    case NoSign => ""
    case PlusSign => "+"
    case MinusSign => "-"
  }

  ghost function FracText(frac: string): string {
    if frac == [] then "" else "." + frac
  }

  ghost function ExpText(n: NumLit): string {
    n.e + (SignText(n.sign) + n.exp)
  }

  ghost function NumberText(n: NumLit): string {
    (if n.minus then "-" else "") + (n.whole + (FracText(n.frac) + ExpText(n)))
  }

  // The natural number a digit string denotes.
  ghost function Decimal(s: string): int {
    if s == [] then 0 else Decimal(s[..|s| - 1]) * 10 + DigitValue(s[|s| - 1])
  }

  ghost function NumberMeaning(n: NumLit): Json {
    Number((if n.minus then -1 else 1) * Decimal(n.whole + n.frac),
           (if n.sign == MinusSign then -1 else 1) * Decimal(n.exp) - |n.frac|)
  }

  // ----- section 7: strings -------------------------------------------------------------------

  datatype Piece = Raw(c: char) | Esc(c: char) | Hex(a: char, b: char, c: char, d: char)

  // %x20-21 / %x23-5B / %x5D-10FFFF
  predicate RawChar(c: char) {
    0x20 <= c as int <= 0x21 || 0x23 <= c as int <= 0x5B || 0x5D <= c as int
  }

  // A piece the grammar allows.
  ghost predicate GrammarPiece(p: Piece) {
    match p
    case Raw(c) => RawChar(c) && IsByte(c)
    case Esc(c) => c in "\"\\/bfnrt"
    case Hex(a, b, c, d) => IsHex(a) && IsHex(b) && IsHex(c) && IsHex(d)
  }

  ghost predicate GrammarPieces(ps: seq<Piece>) {
    forall p <- ps :: GrammarPiece(p)
  }

  ghost predicate Surrogate(n: nat) {
    0xD800 <= n < 0xE000
  }

  // \u0000 cannot be held by a C string, and surrogates stand for no character of their own.
  ghost predicate LegalPiece(p: Piece) {
    GrammarPiece(p) && (p.Hex? ==> var n := HexNumber(p.a, p.b, p.c, p.d); n != 0 && !Surrogate(n))
  }

  ghost predicate CleanPieces(ps: seq<Piece>) {
    forall p <- ps :: LegalPiece(p)
  }

  // What parse_string counts for a literal: each byte once, but a backslash together with the byte
  // behind it.
  ghost function Count(ps: seq<Piece>): nat {
    if ps == [] then 0 else (if ps[0].Hex? then 5 else 1) + Count(ps[1..])
  }

  // The count and one more fit an int.
  ghost predicate Counted(ps: seq<Piece>) {
    Count(ps) < INT_MAX
  }

  // Section 9 of RFC 8259 lets a parser limit the length of strings.
  ghost predicate LegalPieces(ps: seq<Piece>) {
    CleanPieces(ps) && Counted(ps)
  }

  ghost function PieceText(p: Piece): string {
    match p
    case Raw(c) => [c]
    case Esc(c) => ['\\', c]
    case Hex(a, b, c, d) => ['\\', 'u', a, b, c, d]
  }

  // Section 3 of RFC 3629.
  ghost function Utf8(n: nat): string
    requires n < 0x110000
  {
    if n < 0x80 then [n as char]
    else if n < 0x800 then [(0xC0 + n / 64) as char, (0x80 + n % 64) as char]
    else if n < 0x10000 then [(0xE0 + n / 4096) as char, (0x80 + n / 64 % 64) as char, (0x80 + n % 64) as char]
    else [(0xF0 + n / 262144) as char, (0x80 + n / 4096 % 64) as char, (0x80 + n / 64 % 64) as char, (0x80 + n % 64) as char]
  }

  ghost function EscMeaning(c: char): char {
    if c == 'b' then 8 as char
    else if c == 'f' then 12 as char
    else if c == 'n' then 10 as char
    else if c == 'r' then 13 as char
    else if c == 't' then 9 as char
    else c
  }

  ghost function PieceMeaning(p: Piece): string
    requires GrammarPiece(p)
  {
    match p
    case Raw(c) => [c]
    case Esc(c) => [EscMeaning(c)]
    case Hex(a, b, c, d) => Utf8(HexNumber(a, b, c, d))
  }

  ghost function PiecesText(ps: seq<Piece>): string {
    if ps == [] then [] else PieceText(ps[0]) + PiecesText(ps[1..])
  }

  ghost function PiecesMeaning(ps: seq<Piece>): string
    requires GrammarPieces(ps)
  {
    if ps == [] then []
    else
      assert GrammarPiece(ps[0]);
      PieceMeaning(ps[0]) + PiecesMeaning(ps[1..])
  }

  // The code a \u escape spells; -1 for other pieces.
  ghost function CodeOf(p: Piece): (n: int)
    requires GrammarPiece(p)
    ensures n < 0x10000
  {
    if p.Hex? then HexNumber(p.a, p.b, p.c, p.d) else -1
  }

  ghost predicate HighHalf(p: Piece)
    requires GrammarPiece(p)
  {
    0xD800 <= CodeOf(p) < 0xDC00
  }

  ghost predicate LowHalf(p: Piece)
    requires GrammarPiece(p)
  {
    0xDC00 <= CodeOf(p) < 0xE000
  }

  // The character above 16 bits that a surrogate pair stands for.
  ghost function PairCode(hi: int, lo: int): (n: nat)
    requires 0xD800 <= hi < 0xDC00 <= lo < 0xE000
    ensures 0x10000 <= n < 0x110000
  {
    0x10000 + (hi - 0xD800) * 0x400 + (lo - 0xDC00)
  }

  ghost function Before(x: string, rest: Option<string>): Option<string> {
    if rest.Some? then Some(x + rest.value) else None
  }

  // What a literal stands for by section 7: two \u escapes that form a surrogate pair are one
  // character, and half a pair stands for nothing.
  ghost function StringMeaning(ps: seq<Piece>): Option<string>
    requires GrammarPieces(ps)
    decreases |ps|
  {
    if ps == [] then Some([])
    else
      assert GrammarPiece(ps[0]);
      if HighHalf(ps[0]) && |ps| > 1 && LowHalf(ps[1]) then
        Before(Utf8(PairCode(CodeOf(ps[0]), CodeOf(ps[1]))), StringMeaning(ps[2..]))
      else if HighHalf(ps[0]) || LowHalf(ps[0]) then None
      else Before(PieceMeaning(ps[0]), StringMeaning(ps[1..]))
  }

  ghost function StringText(ps: seq<Piece>): string {
    "\"" + (PiecesText(ps) + "\"")
  }

  // ----- sections 3 to 5: values --------------------------------------------------------------

  // `open` is the white space of an empty array or object.
  datatype Doc =
    | DNull
    | DFalse
    | DTrue
    | DNumber(n: NumLit)
    | DString(ps: seq<Piece>)
    | DArray(open: string, items: seq<DItem>)
    | DObject(open: string, members: seq<DMember>)

  datatype DItem = DItem(before: string, value: Doc, after: string)

  datatype DMember = DMember(before: string, name: seq<Piece>, colon: string, gap: string, value: Doc, after: string)

  ghost predicate Legal(d: Doc)
    decreases d
  {
    match d
    case DNumber(n) => LegalNumber(n)
    case DString(ps) => LegalPieces(ps)
    case DArray(open, items) => White(open) && forall x <- items :: LegalItem(x)
    case DObject(open, members) => White(open) && forall x <- members :: LegalMember(x)
    case _ => true
  }

  ghost predicate LegalItem(x: DItem)
    decreases x
  {
    White(x.before) && White(x.after) && Legal(x.value)
  }

  ghost predicate LegalMember(x: DMember)
    decreases x
  {
    White(x.before) && White(x.colon) && White(x.gap) && White(x.after) && LegalPieces(x.name) && Legal(x.value)
  }

  ghost function Text(d: Doc): string
    decreases d
  {
    match d
    case DNull => "null"
    case DFalse => "false"
    case DTrue => "true"
    case DNumber(n) => NumberText(n)
    case DString(ps) => StringText(ps)
    case DArray(open, items) => "[" + ((if items == [] then open else ItemsText(items)) + "]")
    case DObject(open, members) => "{" + ((if members == [] then open else MembersText(members)) + "}")
  }

  ghost function ItemText(x: DItem): string
    decreases x
  {
    x.before + (Text(x.value) + x.after)
  }

  ghost function ItemsText(items: seq<DItem>): string
    decreases items
  {
    if items == [] then []
    else ItemText(items[0]) + ((if |items| > 1 then "," else "") + ItemsText(items[1..]))
  }

  ghost function MemberText(x: DMember): string
    decreases x
  {
    x.before + (StringText(x.name) + (x.colon + (":" + (x.gap + (Text(x.value) + x.after)))))
  }

  ghost function MembersText(members: seq<DMember>): string
    decreases members
  {
    if members == [] then []
    else MemberText(members[0]) + ((if |members| > 1 then "," else "") + MembersText(members[1..]))
  }

  ghost function Meaning(d: Doc): Json
    requires Legal(d)
    decreases d
  {
    match d
    case DNull => Null
    case DFalse => False
    case DTrue => True
    case DNumber(n) => NumberMeaning(n)
    case DString(ps) => Str(NoNuls(ps))
    case DArray(_, items) => Arr(ItemsMeaning(items))
    case DObject(_, members) => Obj(MembersMeaning(members))
  }

  ghost function ItemsMeaning(items: seq<DItem>): seq<Json>
    requires forall x <- items :: LegalItem(x)
    decreases items
  {
    if items == [] then []
    else
      assert LegalItem(items[0]);
      [Meaning(items[0].value)] + ItemsMeaning(items[1..])
  }

  ghost function MembersMeaning(members: seq<DMember>): seq<Member>
    requires forall x <- members :: LegalMember(x)
    decreases members
  {
    if members == [] then []
    else
      assert LegalMember(members[0]);
      [Member(NoNuls(members[0].name), Meaning(members[0].value))] + MembersMeaning(members[1..])
  }

  // The meaning of a legal literal is a C string.
  ghost function NoNuls(ps: seq<Piece>): CString
    requires LegalPieces(ps)
  {
    PiecesClean(ps);
    assert GrammarPieces(ps);
    PiecesMeaning(ps)
  }

  lemma {:induction false} Utf8Clean(n: nat)
    requires 0 < n < 0x110000
    ensures forall c <- Utf8(n) :: c != NUL && IsByte(c)
  {
  }

  lemma {:induction false} PiecesClean(ps: seq<Piece>)
    requires CleanPieces(ps)
    ensures GrammarPieces(ps)
    ensures forall c <- PiecesMeaning(ps) :: c != NUL && IsByte(c)
  {
    assert forall p <- ps :: LegalPiece(p) ==> GrammarPiece(p);
    if ps != [] {
      assert LegalPiece(ps[0]);
      PiecesClean(ps[1..]);
      if ps[0].Hex? {
        Utf8Clean(HexNumber(ps[0].a, ps[0].b, ps[0].c, ps[0].d));
      }
    }
  }
}
