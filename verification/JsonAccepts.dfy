/**
What the parser accepts: texts of the grammar, but for the liberties spelled out here.
*/
module JsonAccepts {
  import opened CInts
  import opened CStrings
  import opened JsonText
  import opened JsonParse
  import opened JsonLayout
  import opened JsonGrammar
  import opened JsonStrings

  // ----- liberties ----------------------------------------------------------------------------

  // Every byte up to 32 counts as white space.
  ghost predicate Blank(s: string) {
    forall c <- s :: c as int <= 32
  }

  // Digits may be missing behind a minus and in the exponent, one zero may lead, and the first byte
  // behind the point may be anything.
  ghost predicate LooseNumber(n: NumLit) {
    && Digits(n.whole) && (n.minus || n.whole != []) && (|n.whole| > 1 && n.whole[0] == '0' ==> n.whole[1] != '0')
    && (n.frac != [] ==> Digits(n.frac[1..])) && Digits(n.exp)
    && (n.e == "e" || n.e == "E" || (n.e == [] && n.exp == [] && n.sign == NoSign))
  }

  // Control bytes may stand in a literal, and behind a backslash any byte may, for itself; four digits
  // may spell half a surrogate pair, or 0.
  ghost predicate LoosePiece(p: Piece) {
    match p
    case Raw(c) => c != '\"' && c != '\\' && IsByte(c)
    case Esc(c) => c != 'u' && IsByte(c)
    case Hex(a, b, c, d) => IsHex(a) && IsHex(b) && IsHex(c) && IsHex(d)
  }

  ghost predicate LoosePieces(ps: seq<Piece>) {
    forall p <- ps :: LoosePiece(p)
  }

  ghost function LooseMeaning(p: Piece): (s: string)
    requires LoosePiece(p)
    ensures forall c <- s :: IsByte(c)
  {
    match p
    case Raw(c) => [c]
    case Esc(c) => [EscMeaning(c)]
    case Hex(a, b, c, d) => Utf8(HexNumber(a, b, c, d))
  }

  ghost function LooseMeanings(ps: seq<Piece>): (s: string)
    requires LoosePieces(ps)
    ensures forall c <- s :: IsByte(c)
  {
    if ps == [] then []
    else
      assert LoosePiece(ps[0]);
      LooseMeaning(ps[0]) + LooseMeanings(ps[1..])
  }

  // What a C string keeps of it.
  ghost function Held(ps: seq<Piece>): CString
    requires LoosePieces(ps)
  {
    UpToNul(LooseMeanings(ps))
  }

  ghost predicate Loose(d: Doc)
    decreases d
  {
    match d
    case DNumber(n) => LooseNumber(n)
    case DString(ps) => LoosePieces(ps)
    case DArray(open, items) => Blank(open) && forall x <- items :: LooseItem(x)
    case DObject(open, members) => Blank(open) && forall x <- members :: LooseMember(x)
    case _ => true
  }

  ghost predicate LooseItem(x: DItem)
    decreases x
  {
    Blank(x.before) && Blank(x.after) && Loose(x.value)
  }

  ghost predicate LooseMember(x: DMember)
    decreases x
  {
    Blank(x.before) && Blank(x.colon) && Blank(x.gap) && Blank(x.after) && LoosePieces(x.name) && Loose(x.value)
  }

  ghost function Value(d: Doc): Json
    requires Loose(d)
    decreases d
  {
    match d
    case DNull => Null
    case DFalse => False
    case DTrue => True
    case DNumber(n) => NumberMeaning(n)
    case DString(ps) => Str(Held(ps))
    case DArray(_, items) => Arr(ItemsValue(items))
    case DObject(_, members) => Obj(MembersValue(members))
  }

  ghost function ItemsValue(items: seq<DItem>): seq<Json>
    requires forall x <- items :: LooseItem(x)
    decreases items
  {
    if items == [] then []
    else
      assert LooseItem(items[0]);
      [Value(items[0].value)] + ItemsValue(items[1..])
  }

  ghost function MembersValue(members: seq<DMember>): seq<Member>
    requires forall x <- members :: LooseMember(x)
    decreases members
  {
    if members == [] then []
    else
      assert LooseMember(members[0]);
      [Member(Held(members[0].name), Value(members[0].value))] + MembersValue(members[1..])
  }

  // ----- white space --------------------------------------------------------------------------

  lemma {:induction false} SkipIsBlank(t: CString, i: nat)
    requires i <= |t|
    ensures Blank(t[i..Skip(t, i)])
    decreases |t| - i
  {
    if i < |t| && t[i] as int <= 32 {
      SkipIsBlank(t, i + 1);
      assert t[i..Skip(t, i)] == [t[i]] + t[i + 1..Skip(t, i + 1)];
    }
  }

  // ----- numbers ------------------------------------------------------------------------------

  lemma {:induction false} DigitsAre(t: CString, i: nat)
    requires i <= |t|
    ensures Digits(t[i..DigitsEnd(t, i)])
    decreases |t| - i
  {
    if i < |t| && IsDigit(t[i]) {
      DigitsAre(t, i + 1);
      assert t[i..DigitsEnd(t, i)] == [t[i]] + t[i + 1..DigitsEnd(t, i + 1)];
    }
  }

  lemma {:induction false} SliceStands(t: string, i: nat, j: nat)
    requires i <= j <= |t|
    ensures Stands(t, i, t[i..j]) && |t[i..j]| == j - i
  {
  }

  // The integer part, from behind the sign.
  lemma {:induction false} DigitsRead(t: CString, i: nat) returns (whole: string)
    requires i <= |t|
    ensures var i2 := if At(t, i) == '0' then i + 1 else i;
            var j := if i2 <= |t| && '1' <= At(t, i2) <= '9' then DigitsEnd(t, i2) else i2;
            && i <= i2 <= j <= |t| && whole == t[i..j] && Digits(whole)
            && (|whole| > 1 && whole[0] == '0' ==> whole[1] != '0') && (IsDigit(At(t, i)) ==> whole != [])
            && Decimal(whole) == if '1' <= At(t, i2) <= '9' then Accumulate(0, t, i2, j) else 0
  {
    var i2 := if At(t, i) == '0' then i + 1 else i;
    var zero := t[i..i2];
    DecimalMore([], '0');
    EmptyDecimal();
    assert [] + ['0'] == "0";
    assert zero == if At(t, i) == '0' then "0" else [];
    assert Decimal(zero) == 0;
    if '1' <= At(t, i2) <= '9' {
      var j := DigitsEnd(t, i2);
      whole := t[i..j];
      DigitsAre(t, i2);
      SliceStands(t, i2, j);
      AccumulateIsDecimal(zero, t, i2, t[i2..j]);
      assert whole == zero + t[i2..j];
      assert t[i2..j][0] == t[i2];
    } else {
      whole := zero;
    }
  }

  lemma {:induction false} Slices(t: string, i: nat, j: nat, k: nat)
    requires i <= j <= k <= |t|
    ensures t[i..k] == t[i..j] + t[j..k]
  {
  }

  lemma {:induction false} WholeRead(t: CString, i: nat) returns (minus: bool, whole: string)
    requires i <= |t| && StartsNumber(At(t, i))
    ensures var (p, j) := ParseWhole(t, i);
            && i <= j <= |t| && t[i..j] == (if minus then "-" else "") + whole
            && p == NumberParts(Decimal(whole), if minus then -1 else 1, 0, 0, 1)
    ensures Digits(whole) && (minus || whole != []) && (|whole| > 1 && whole[0] == '0' ==> whole[1] != '0')
  {
    minus := At(t, i) == '-';
    var i1 := if minus then i + 1 else i;
    whole := DigitsRead(t, i1);
    hide Decimal, Accumulate, DigitsEnd, Digits;
    Slices(t, i, i1, ParseWhole(t, i).1);
    assert t[i..i1] == if minus then "-" else "";
  }

  lemma {:induction false} PointParts(t: CString, i: nat, p: NumberParts) returns (j: nat)
    requires i <= |t| && At(t, i) == '.' && ParseFraction(t, i, p).Ok?
    ensures i + 2 <= j <= |t| && j == DigitsEnd(t, i + 2) && t[i..i + 1] == "."
    ensures ParseFraction(t, i, p) == Ok(p.(n := Accumulate(p.n, t, i + 1, j), scale := -(j - i - 1)), j)
  {
    hide DigitsEnd, Accumulate;
    j := DigitsEnd(t, i + 2);
  }

  lemma {:induction false} FractionThere(t: CString, i: nat, whole: string, sign: int) returns (frac: string)
    requires i <= |t| && At(t, i) == '.' && ParseFraction(t, i, NumberParts(Decimal(whole), sign, 0, 0, 1)).Ok?
    ensures var r := ParseFraction(t, i, NumberParts(Decimal(whole), sign, 0, 0, 1));
            && i <= r.next <= |t| && frac != [] && t[i..r.next] == "." + frac && Digits(frac[1..])
            && r.value == NumberParts(Decimal(whole + frac), sign, -|frac|, 0, 1)
  {
    hide Decimal, Accumulate, DigitsEnd, Digits, ParseFraction, Stands, At;
    var j := PointParts(t, i, NumberParts(Decimal(whole), sign, 0, 0, 1));
    frac := t[i + 1..j];
    DigitsAre(t, i + 2);
    assert frac[1..] == t[i + 2..j];
    SliceStands(t, i + 1, j);
    AccumulateIsDecimal(whole, t, i + 1, frac);
    Slices(t, i, i + 1, j);
  }

  lemma {:induction false} FractionRead(t: CString, i: nat, whole: string, sign: int) returns (frac: string)
    requires i <= |t| && ParseFraction(t, i, NumberParts(Decimal(whole), sign, 0, 0, 1)).Ok?
    ensures var r := ParseFraction(t, i, NumberParts(Decimal(whole), sign, 0, 0, 1));
            && i <= r.next <= |t| && t[i..r.next] == FracText(frac)
            && r.value == NumberParts(Decimal(whole + frac), sign, -|frac|, 0, 1)
    ensures frac != [] ==> Digits(frac[1..])
  {
    hide Decimal, Digits, ParseFraction, At;
    if At(t, i) != '.' {
      frac := [];
      NoFraction(t, i, NumberParts(Decimal(whole), sign, 0, 0, 1));
      assert whole + [] == whole && t[i..i] == [];
    } else {
      frac := FractionThere(t, i, whole, sign);
    }
  }

  // The exponent, if there is a letter for one.
  lemma {:induction false} ExponentParts(t: CString, i: nat, p: NumberParts) returns (k: nat, j: nat, sign: ExpSign)
    requires i <= |t| && (At(t, i) == 'e' || At(t, i) == 'E')
    ensures i < k <= j <= |t| && (t[i..i + 1] == "e" || t[i..i + 1] == "E") && t[i + 1..k] == SignText(sign)
    ensures j == DigitsEnd(t, k)
    ensures ParseExponent(t, i, p)
            == (p.(signsubscale := if sign == MinusSign then -1 else 1, subscale := Accumulate(0, t, k, j)), j)
  {
    hide DigitsEnd, Accumulate;
    k := if At(t, i + 1) == '+' || At(t, i + 1) == '-' then i + 2 else i + 1;
    j := DigitsEnd(t, k);
    sign := if At(t, i + 1) == '+' then PlusSign else if At(t, i + 1) == '-' then MinusSign else NoSign;
  }

  lemma {:induction false} ExponentThere(t: CString, i: nat, p: NumberParts) returns (e: string, sign: ExpSign, exp: string)
    requires i <= |t| && (At(t, i) == 'e' || At(t, i) == 'E')
    ensures var (p', j) := ParseExponent(t, i, p);
            && i <= j <= |t| && t[i..j] == e + (SignText(sign) + exp)
            && p' == p.(subscale := Decimal(exp), signsubscale := if sign == MinusSign then -1 else 1)
    ensures Digits(exp) && (e == "e" || e == "E")
  {
    hide Decimal, Accumulate, DigitsEnd, Digits, ParseExponent, SignText, At, Stands;
    EmptyDecimal();
    var k, j;
    k, j, sign := ExponentParts(t, i, p);
    e, exp := t[i..i + 1], t[k..j];
    DigitsAre(t, k);
    SliceStands(t, k, j);
    AccumulateIsDecimal([], t, k, exp);
    assert [] + exp == exp;
    Slices(t, i, i + 1, j);
    Slices(t, i + 1, k, j);
  }

  lemma {:induction false} ExponentRead(t: CString, i: nat, p: NumberParts) returns (e: string, sign: ExpSign, exp: string)
    requires i <= |t| && p.subscale == 0 && p.signsubscale == 1
    ensures var (p', j) := ParseExponent(t, i, p);
            && i <= j <= |t| && t[i..j] == e + (SignText(sign) + exp)
            && p' == p.(subscale := Decimal(exp), signsubscale := if sign == MinusSign then -1 else 1)
    ensures Digits(exp) && (e == "e" || e == "E" || (e == [] && exp == [] && sign == NoSign))
  {
    hide Decimal, ParseExponent, At;
    if At(t, i) == 'e' || At(t, i) == 'E' {
      e, sign, exp := ExponentThere(t, i, p);
    } else {
      NoExponent(t, i, p);
      e, sign, exp := [], NoSign, [];
      assert t[i..i] == [] && [] + (SignText(NoSign) + []) == [];
    }
  }

  lemma {:induction false} TextOf(n: NumLit, a: string, b: string, c: string)
    requires a == (if n.minus then "-" else "") + n.whole && b == FracText(n.frac) && c == n.e + (SignText(n.sign) + n.exp)
    ensures NumberText(n) == a + (b + c)
  {
    hide FracText, SignText;
    var head := if n.minus then "-" else "";
    assert (head + n.whole) + (b + c) == head + (n.whole + (b + c));
  }

  // parse_number reads a number, up to the liberties.
  lemma {:induction false} NumberRead(t: CString, i: nat) returns (n: NumLit)
    requires i <= |t| && StartsNumber(At(t, i)) && ParseNumber(t, i).Ok?
    ensures var r := ParseNumber(t, i);
            LooseNumber(n) && NumberText(n) == t[i..r.next] && NumberMeaning(n) == r.value
  {
    var minus, whole := WholeRead(t, i);
    hide ParseWhole, ParseFraction, ParseExponent, Decimal, Digits, FracText, SignText, NumberText, StartsNumber, At;
    var (p, i1) := ParseWhole(t, i);
    var frac := FractionRead(t, i1, whole, p.sign);
    var p2, i2 := ParseFraction(t, i1, p).value, ParseFraction(t, i1, p).next;
    var e, sign, exp := ExponentRead(t, i2, p2);
    var i3 := ParseExponent(t, i2, p2).1;
    n := NumLit(minus, whole, frac, e, sign, exp);
    Slices(t, i, i1, i3);
    Slices(t, i1, i2, i3);
    TextOf(n, t[i..i1], t[i1..i2], t[i2..i3]);
  }

  // ----- strings ------------------------------------------------------------------------------

  lemma {:induction false} EscapeMeans(c: char)
    ensures Unescaped(c) == EscMeaning(c)
  {
  }

  lemma {:induction false} OnePiece(p: Piece, ps: seq<Piece>)
    requires LoosePiece(p) && LoosePieces(ps)
    ensures LoosePieces([p] + ps) && PiecesText([p] + ps) == PieceText(p) + PiecesText(ps)
    ensures LooseMeanings([p] + ps) == LooseMeaning(p) + LooseMeanings(ps)
  {
    assert ([p] + ps)[1..] == ps;
    hide LoosePiece, PieceText, LooseMeaning;
  }

  lemma {:induction false} DecodeStops(t: CString, p: nat)
    requires p <= |t|
    ensures p == |t| || t[p] == '\"' ==> Decode(t, p) == Ok([], p)
  {
  }

  lemma {:induction false} NoPieces()
    ensures PiecesText([]) == [] == LooseMeanings([])
  {
  }

  // What the decoding loop reads are pieces of a literal, up to a quote or the end of the text.
  lemma {:induction false} DecodeReads(t: CString, p: nat) returns (ps: seq<Piece>)
    requires p <= |t| && Decode(t, p).Ok?
    ensures var r := Decode(t, p);
            && LoosePieces(ps) && PiecesText(ps) == t[p..r.next] && LooseMeanings(ps) == r.value
            && (r.next < |t| ==> t[r.next] == '\"')
    decreases |t| - p
  {
    hide Decode, LoosePiece, PieceText, LooseMeaning, LooseMeanings, PiecesText;
    DecodeStops(t, p);
    if p == |t| || t[p] == '\"' {
      ps := [];
      NoPieces();
    } else {
      var piece, w := NextPiece(t, p);
      var rest := DecodeReads(t, p + w);
      ps := [piece] + rest;
      OnePiece(piece, rest);
      Slices(t, p, p + w, Decode(t, p).next);
    }
  }

  lemma {:induction false} NextPiece(t: CString, p: nat) returns (piece: Piece, w: nat)
    requires p < |t| && t[p] != '\"' && Decode(t, p).Ok?
    ensures 0 < w && p + w <= |t| && LoosePiece(piece) && PieceText(piece) == t[p..p + w]
    ensures Decode(t, p + w).Ok? && Decode(t, p) == Prepend(LooseMeaning(piece), Decode(t, p + w))
  {
    hide Transcode, Utf8, HexNumber, IsHex;
    if t[p] != '\\' {
      piece, w := Raw(t[p]), 1;
    } else if t[p + 1] == 'u' {
      piece, w := Hex(t[p + 2], t[p + 3], t[p + 4], t[p + 5]), 6;
      TranscodeIsUtf8(HexNumber(t[p + 2], t[p + 3], t[p + 4], t[p + 5]));
    } else {
      piece, w := Esc(t[p + 1]), 2;
      EscapeMeans(t[p + 1]);
      hide Unescaped, EscMeaning;
    }
  }

  lemma {:induction false} StringIs(t: CString, i: nat) returns (end: nat)
    requires i <= |t| && ParseString(t, i).Ok?
    ensures i < |t| && t[i] == '\"' && Decode(t, i + 1).Ok? && end == Decode(t, i + 1).next
    ensures ParseString(t, i).value == UpToNul(Decode(t, i + 1).value)
    ensures ParseString(t, i).next == if end < |t| && t[end] == '\"' then end + 1 else end
  {
    hide Decode, Measure, UpToNul;
    end := Decode(t, i + 1).next;
  }

  // A literal, which only the end of the text may leave without its closing quote.
  lemma {:induction false} StringRead(t: CString, i: nat) returns (ps: seq<Piece>, closed: bool)
    requires i <= |t| && ParseString(t, i).Ok?
    ensures var r := ParseString(t, i);
            && LoosePieces(ps) && r.value == Held(ps)
            && (if closed then t[i..r.next] == StringText(ps) else r.next == |t| && t[i..] == "\"" + PiecesText(ps))
  {
    var end := StringIs(t, i);
    ps := DecodeReads(t, i + 1);
    hide Decode, ParseString, PiecesText, LooseMeanings, UpToNul, LoosePieces;
    closed := end < |t|;
    Opened(t, i, end);
    if closed {
      Closed(t, i, end);
    }
  }

  lemma {:induction false} Opened(t: string, i: nat, end: nat)
    requires i < end <= |t| && t[i] == '\"'
    ensures t[i..end] == "\"" + t[i + 1..end]
    ensures end == |t| ==> t[i..] == t[i..end]
  {
  }

  lemma {:induction false} Closed(t: string, i: nat, end: nat)
    requires i < end < |t| && t[i] == '\"' && t[end] == '\"'
    ensures t[i..end + 1] == "\"" + (t[i + 1..end] + "\"")
  {
  }

  // ----- values -------------------------------------------------------------------------------

  lemma {:induction false} ItemsFrom(t: CString, i: nat)
    requires i <= |t|
    ensures ParseItems(t, Skip(t, i)) == ParseItems(t, i)
  {
    SkipTwice(t, i);
    hide ParseValue, Skip;
  }

  lemma {:induction false} MemberFrom(t: CString, i: nat)
    requires i <= |t|
    ensures ParseMember(t, Skip(t, i)) == ParseMember(t, i)
  {
    SkipTwice(t, i);
    hide ParseValue, ParseString, Skip;
  }

  lemma {:induction false} MembersFrom(t: CString, i: nat)
    requires i <= |t|
    ensures ParseMembers(t, Skip(t, i)) == ParseMembers(t, i)
  {
    hide ParseMember, Skip;
    MemberFrom(t, i);
  }

  lemma {:induction false} NoWord(t: CString, i: nat)
    requires i <= |t| && (At(t, i) == '[' || At(t, i) == '{' || At(t, i) == '\"' || StartsNumber(At(t, i)))
    ensures !Stands(t, i, "null") && !Stands(t, i, "false") && !Stands(t, i, "true")
  {
    if Stands(t, i, "null") {
      StandsAt(t, i, "null", 0);
    }
    if Stands(t, i, "false") {
      StandsAt(t, i, "false", 0);
    }
    if Stands(t, i, "true") {
      StandsAt(t, i, "true", 0);
    }
  }

  lemma {:induction false} ArrayParts(t: CString, i: nat)
    requires i <= |t| && At(t, i) == '[' && ParseValue(t, i).Ok?
    ensures i < |t| && t[i..i + 1] == "["
    ensures var r, j, items := ParseValue(t, i), Skip(t, i + 1), ParseItems(t, i + 1);
            if At(t, j) == ']' then r == Ok(Arr([]), j + 1) && j < |t|
            else items.Ok? && r == Ok(Arr(items.value), items.next + 1) && items.next < |t| && t[items.next] == ']'
  {
    NoWord(t, i);
    ItemsFrom(t, i + 1);
    hide Stands, ParseItems, ParseMembers, ParseString, ParseNumber, Skip;
  }

  lemma {:induction false} ObjectParts(t: CString, i: nat)
    requires i <= |t| && At(t, i) == '{' && ParseValue(t, i).Ok?
    ensures i < |t| && t[i..i + 1] == "{"
    ensures var r, j, members := ParseValue(t, i), Skip(t, i + 1), ParseMembers(t, i + 1);
            if At(t, j) == '}' then r == Ok(Obj([]), j + 1) && j < |t|
            else members.Ok? && r == Ok(Obj(members.value), members.next + 1) && members.next < |t| && t[members.next] == '}'
  {
    NoWord(t, i);
    MembersFrom(t, i + 1);
    hide Stands, ParseItems, ParseMembers, ParseString, ParseNumber, Skip;
  }

  // What the value at `i` starts with, and what that makes of it.
  lemma {:induction false} AtomParts(t: CString, i: nat)
    requires i <= |t| && At(t, i) != '[' && At(t, i) != '{' && ParseValue(t, i).Ok?
    ensures var r := ParseValue(t, i);
            || (r.value == Null && t[i..r.next] == "null") || (r.value == False && t[i..r.next] == "false")
            || (r.value == True && t[i..r.next] == "true")
            || (ParseString(t, i).Ok? && r == Ok(Str(ParseString(t, i).value), ParseString(t, i).next))
            || (StartsNumber(At(t, i)) && r == ParseNumber(t, i))
  {
    hide ParseItems, ParseMembers, ParseString, ParseNumber, Skip;
  }

  // `d` is what the parser took `value` from, as far as `next`.
  ghost predicate Taken(t: string, i: nat, next: nat, value: Json, d: Doc, closed: bool) {
    && i <= next <= |t| && Loose(d) && Value(d) == value
    && (if closed then t[i..next] == Text(d) else next == |t| && d.DString? && t[i..] == "\"" + PiecesText(d.ps))
  }

  lemma {:induction false} WordTaken(t: string, i: nat, next: nat, value: Json) returns (d: Doc)
    requires i <= next <= |t|
    requires || (value == Null && t[i..next] == "null") || (value == False && t[i..next] == "false")
             || (value == True && t[i..next] == "true")
    ensures Taken(t, i, next, value, d, true)
  {
    d := if value == Null then DNull else if value == False then DFalse else DTrue;
  }

  lemma {:induction false} NumberTaken(t: string, i: nat, next: nat, n: NumLit)
    requires i <= next <= |t| && LooseNumber(n) && NumberText(n) == t[i..next]
    ensures Taken(t, i, next, NumberMeaning(n), DNumber(n), true)
  {
    hide LooseNumber, NumberText, NumberMeaning;
  }

  lemma {:induction false} StringTaken(t: string, i: nat, next: nat, ps: seq<Piece>, closed: bool)
    requires i <= next <= |t| && LoosePieces(ps)
    requires if closed then t[i..next] == StringText(ps) else next == |t| && t[i..] == "\"" + PiecesText(ps)
    ensures Taken(t, i, next, Str(Held(ps)), DString(ps), closed)
  {
    hide LoosePieces, StringText, PiecesText, Held;
  }

  lemma {:induction false} AtomRead(t: CString, i: nat) returns (d: Doc, closed: bool)
    requires i <= |t| && At(t, i) != '[' && At(t, i) != '{' && ParseValue(t, i).Ok?
    ensures Taken(t, i, ParseValue(t, i).next, ParseValue(t, i).value, d, closed)
  {
    AtomParts(t, i);
    hide ParseValue, ParseString, ParseNumber, LooseNumber, LoosePieces, NumberText, StringText, PiecesText, NumberMeaning, Held,
         At, Taken, StartsNumber;
    var r := ParseValue(t, i);
    closed := true;
    if StartsNumber(At(t, i)) && r == ParseNumber(t, i) {
      var n := NumberRead(t, i);
      d := DNumber(n);
      NumberTaken(t, i, r.next, n);
    } else if ParseString(t, i).Ok? && r == Ok(Str(ParseString(t, i).value), ParseString(t, i).next) {
      var ps;
      ps, closed := StringRead(t, i);
      d := DString(ps);
      StringTaken(t, i, r.next, ps, closed);
    } else {
      d := WordTaken(t, i, r.next, r.value);
    }
  }

  lemma {:induction false} EmptyArray(t: string, i: nat, j: nat)
    requires i < j < |t| && t[i] == '[' && t[j] == ']' && Blank(t[i + 1..j])
    ensures Taken(t, i, j + 1, Arr([]), DArray(t[i + 1..j], []), true)
  {
    hide Blank;
    assert t[i..j + 1] == "[" + (t[i + 1..j] + "]");
    assert ItemsValue([]) == [];
  }

  lemma {:induction false} EmptyObject(t: string, i: nat, j: nat)
    requires i < j < |t| && t[i] == '{' && t[j] == '}' && Blank(t[i + 1..j])
    ensures Taken(t, i, j + 1, Obj([]), DObject(t[i + 1..j], []), true)
  {
    hide Blank;
    assert t[i..j + 1] == "{" + (t[i + 1..j] + "}");
    assert MembersValue([]) == [];
  }

  // Elements, or members, that stand between `i` and `j`.
  ghost predicate TakenItems(t: string, i: nat, j: nat, values: seq<Json>, items: seq<DItem>) {
    i <= j <= |t| && items != [] && (forall x <- items :: LooseItem(x)) && ItemsValue(items) == values && ItemsText(items) == t[i..j]
  }

  ghost predicate TakenMembers(t: string, i: nat, j: nat, values: seq<Member>, members: seq<DMember>) {
    && i <= j <= |t| && members != [] && (forall x <- members :: LooseMember(x))
    && MembersValue(members) == values && MembersText(members) == t[i..j]
  }

  lemma {:induction false} ArrayTaken(t: string, i: nat, j: nat, values: seq<Json>, items: seq<DItem>)
    requires i < |t| && t[i] == '[' && TakenItems(t, i + 1, j, values, items) && j < |t| && t[j] == ']'
    ensures Taken(t, i, j + 1, Arr(values), DArray([], items), true)
  {
    hide LooseItem, ItemsValue, ItemsText;
    Slices(t, i, i + 1, j + 1);
    Slices(t, i + 1, j, j + 1);
    assert t[i..i + 1] == "[" && t[j..j + 1] == "]";
  }

  lemma {:induction false} ObjectTaken(t: string, i: nat, j: nat, values: seq<Member>, members: seq<DMember>)
    requires i < |t| && t[i] == '{' && TakenMembers(t, i + 1, j, values, members) && j < |t| && t[j] == '}'
    ensures Taken(t, i, j + 1, Obj(values), DObject([], members), true)
  {
    hide LooseMember, MembersValue, MembersText;
    Slices(t, i, i + 1, j + 1);
    Slices(t, i + 1, j, j + 1);
    assert t[i..i + 1] == "{" && t[j..j + 1] == "}";
  }

  // Whatever parse_value accepts is a text of the grammar, up to the liberties, of the value it returns;
  // only a literal at the end of the text may lack its closing quote.
  lemma {:induction false} ValueRead(t: CString, i: nat) returns (d: Doc, closed: bool)
    requires i <= |t| && ParseValue(t, i).Ok?
    ensures Taken(t, i, ParseValue(t, i).next, ParseValue(t, i).value, d, closed)
    decreases |t| - i, 0
  {
    hide ParseValue, ParseItems, ParseMembers, Taken, TakenItems, TakenMembers, Skip;
    if At(t, i) == '[' {
      ArrayParts(t, i);
      closed := true;
      if At(t, Skip(t, i + 1)) == ']' {
        SkipIsBlank(t, i + 1);
        d := DArray(t[i + 1..Skip(t, i + 1)], []);
        EmptyArray(t, i, Skip(t, i + 1));
      } else {
        var items := ItemsRead(t, i + 1);
        d := DArray([], items);
        ArrayTaken(t, i, ParseItems(t, i + 1).next, ParseItems(t, i + 1).value, items);
      }
    } else if At(t, i) == '{' {
      ObjectParts(t, i);
      closed := true;
      if At(t, Skip(t, i + 1)) == '}' {
        SkipIsBlank(t, i + 1);
        d := DObject(t[i + 1..Skip(t, i + 1)], []);
        EmptyObject(t, i, Skip(t, i + 1));
      } else {
        var members := MembersRead(t, i + 1);
        d := DObject([], members);
        ObjectTaken(t, i, ParseMembers(t, i + 1).next, ParseMembers(t, i + 1).value, members);
      }
    } else {
      d, closed := AtomRead(t, i);
    }
  }

  lemma {:induction false} ItemsParts(t: CString, i: nat) returns (j: nat, k: nat)
    requires i <= |t| && ParseItems(t, i).Ok?
    ensures var v, r := ParseValue(t, Skip(t, i)), ParseItems(t, i);
            && v.Ok? && j == v.next <= |t| && k == Skip(t, j) && i <= Skip(t, i) < j
            && if k < |t| && t[k] == ',' then
                 var rest := ParseItems(t, k + 1);
                 rest.Ok? && r == Ok([v.value] + rest.value, rest.next)
               else r == Ok([v.value], k)
  {
    hide ParseValue, Skip;
    j := ParseValue(t, Skip(t, i)).next;
    k := Skip(t, j);
  }

  // One value with what is around it.
  lemma {:induction false} ItemTaken(t: CString, i: nat, m: nat, j: nat, k: nat, value: Json, d: Doc, closed: bool) returns (x: DItem)
    requires i <= m <= j <= k < |t| && Taken(t, m, j, value, d, closed) && Blank(t[i..m]) && Blank(t[j..k])
    ensures LooseItem(x) && Value(x.value) == value && ItemText(x) == t[i..k]
  {
    hide Loose, Value, Text, Blank;
    x := DItem(t[i..m], d, t[j..k]);
    Slices(t, i, m, k);
    Slices(t, m, j, k);
  }

  lemma {:induction false} ItemsJoin(t: string, i: nat, k: nat, n: nat, x: DItem, value: Json, rest: seq<DItem>, values: seq<Json>)
    requires i <= k < |t| && t[k] == ',' && LooseItem(x) && Value(x.value) == value && ItemText(x) == t[i..k]
    requires TakenItems(t, k + 1, n, values, rest)
    ensures TakenItems(t, i, n, [value] + values, [x] + rest)
  {
    hide LooseItem, ItemText, Value;
    assert ([x] + rest)[1..] == rest;
    assert forall y <- [x] + rest :: y == x || y in rest;
    Slices(t, i, k, n);
    Slices(t, k, k + 1, n);
    assert t[k..k + 1] == ",";
  }

  lemma {:induction false} LastItem(t: string, i: nat, k: nat, x: DItem, value: Json)
    requires i <= k <= |t| && LooseItem(x) && Value(x.value) == value && ItemText(x) == t[i..k]
    ensures TakenItems(t, i, k, [value], [x])
  {
    hide LooseItem, ItemText, Value;
    assert [x][1..] == [] && ItemsText([]) == [] && ItemsValue([]) == [];
    assert ItemText(x) + ([] + []) == ItemText(x);
  }

  lemma {:induction false} ItemsRead(t: CString, i: nat) returns (items: seq<DItem>)
    requires i <= |t| && ParseItems(t, i).Ok? && ParseItems(t, i).next < |t|
    ensures TakenItems(t, i, ParseItems(t, i).next, ParseItems(t, i).value, items)
    decreases |t| - i, 1
  {
    hide ParseValue, ParseItems, Taken, TakenItems, Skip, Blank, LooseItem, Value, ItemText;
    var j, k := ItemsParts(t, i);
    var m := Skip(t, i);
    var d, closed := ValueRead(t, m);
    SkipIsBlank(t, i);
    SkipIsBlank(t, j);
    var value := ParseValue(t, m).value;
    if k < |t| && t[k] == ',' {
      var rest := ItemsRead(t, k + 1);
      var x := ItemTaken(t, i, m, j, k, value, d, closed);
      items := [x] + rest;
      ItemsJoin(t, i, k, ParseItems(t, k + 1).next, x, value, rest, ParseItems(t, k + 1).value);
    } else {
      var x := ItemTaken(t, i, m, j, k, value, d, closed);
      items := [x];
      LastItem(t, i, k, x, value);
    }
  }

  lemma {:induction false} MemberParts(t: CString, i: nat) returns (j: nat, k: nat, m: nat)
    requires i <= |t| && ParseMember(t, i).Ok?
    ensures var name, r := ParseString(t, Skip(t, i)), ParseMember(t, i);
            && name.Ok? && j == name.next && i <= Skip(t, i) < j <= k == Skip(t, j) < |t| && t[k] == ':' && m == Skip(t, k + 1)
            && var v := ParseValue(t, m);
               v.Ok? && r == Ok(Member(name.value, v.value), v.next) && k < m < v.next <= |t|
  {
    hide ParseValue, ParseString, Skip;
    j := ParseString(t, Skip(t, i)).next;
    k := Skip(t, j);
    m := Skip(t, k + 1);
  }

  lemma {:induction false} MembersParts(t: CString, i: nat) returns (j: nat, k: nat)
    requires i <= |t| && ParseMembers(t, i).Ok?
    ensures var m, r := ParseMember(t, i), ParseMembers(t, i);
            && m.Ok? && i < j == m.next <= |t| && k == Skip(t, j)
            && if k < |t| && t[k] == ',' then
                 var rest := ParseMembers(t, k + 1);
                 rest.Ok? && r == Ok([m.value] + rest.value, rest.next)
               else r == Ok([m.value], k)
  {
    hide ParseMember, Skip;
    j := ParseMember(t, i).next;
    k := Skip(t, j);
  }

  // A member that stands between `i` and `k`.
  ghost predicate TakenMember(t: string, i: nat, k: nat, value: Member, x: DMember) {
    && i <= k <= |t| && LooseMember(x) && Member(Held(x.name), Value(x.value)) == value && MemberText(x) == t[i..k]
  }

  // Names, colon and value with what is around them: `a` and `b` bound the name, `c` is the colon, `d`
  // and `e` bound the value.
  lemma {:induction false} MemberTaken(t: CString, i: nat, a: nat, b: nat, c: nat, d: nat, e: nat, k: nat,
                                       ps: seq<Piece>, value: Json, doc: Doc, closed: bool) returns (x: DMember)
    requires i <= a <= b <= c < d <= e <= k < |t| && t[c] == ':'
    requires LoosePieces(ps) && t[a..b] == StringText(ps) && Taken(t, d, e, value, doc, closed)
    requires Blank(t[i..a]) && Blank(t[b..c]) && Blank(t[c + 1..d]) && Blank(t[e..k])
    ensures TakenMember(t, i, k, Member(Held(ps), value), x)
  {
    hide Loose, Value, Text, Blank, StringText, LoosePieces, Held;
    x := DMember(t[i..a], ps, t[b..c], t[c + 1..d], doc, t[e..k]);
    Slices(t, i, a, k);
    Slices(t, a, b, k);
    Slices(t, b, c, k);
    Slices(t, c, c + 1, k);
    Slices(t, c + 1, d, k);
    Slices(t, d, e, k);
    assert t[c..c + 1] == ":";
  }

  lemma {:induction false} MembersCompose(t: string, i: nat, k: nat, n: nat, x: DMember, value: Member, rest: seq<DMember>,
                                          values: seq<Member>)
    requires i <= k < |t| && t[k] == ',' && TakenMember(t, i, k, value, x) && TakenMembers(t, k + 1, n, values, rest)
    ensures TakenMembers(t, i, n, [value] + values, [x] + rest)
  {
    hide LooseMember, MemberText, Value, Held;
    assert ([x] + rest)[1..] == rest;
    assert forall y <- [x] + rest :: y == x || y in rest;
    Slices(t, i, k, n);
    Slices(t, k, k + 1, n);
    assert t[k..k + 1] == ",";
  }

  lemma {:induction false} LastMember(t: string, i: nat, k: nat, x: DMember, value: Member)
    requires TakenMember(t, i, k, value, x)
    ensures TakenMembers(t, i, k, [value], [x])
  {
    hide LooseMember, MemberText, Value, Held;
    assert [x][1..] == [] && MembersText([]) == [] && MembersValue([]) == [];
    assert MemberText(x) + ([] + []) == MemberText(x);
  }

  lemma {:induction false} MemberRead(t: CString, i: nat, k: nat) returns (x: DMember)
    requires i <= |t| && ParseMember(t, i).Ok? && k == Skip(t, ParseMember(t, i).next) < |t|
    ensures TakenMember(t, i, k, ParseMember(t, i).value, x)
    decreases |t| - i, 1
  {
    hide ParseValue, ParseMember, ParseString, Taken, TakenMember, Skip, Blank, LoosePieces, StringText, Held, PiecesText;
    var b, c, d := MemberParts(t, i);
    var a, e := Skip(t, i), ParseMember(t, i).next;
    var ps, whole := StringRead(t, a);
    var doc, closed := ValueRead(t, d);
    SkipIsBlank(t, i);
    SkipIsBlank(t, b);
    SkipIsBlank(t, c + 1);
    SkipIsBlank(t, e);
    x := MemberTaken(t, i, a, b, c, d, e, k, ps, ParseValue(t, d).value, doc, closed);
  }

  lemma {:induction false} MembersRead(t: CString, i: nat) returns (members: seq<DMember>)
    requires i <= |t| && ParseMembers(t, i).Ok? && ParseMembers(t, i).next < |t|
    ensures TakenMembers(t, i, ParseMembers(t, i).next, ParseMembers(t, i).value, members)
    decreases |t| - i, 2
  {
    hide ParseMember, ParseMembers, TakenMember, TakenMembers, Skip;
    var j, k := MembersParts(t, i);
    var value := ParseMember(t, i).value;
    if k < |t| && t[k] == ',' {
      var rest := MembersRead(t, k + 1);
      var x := MemberRead(t, i, k);
      members := [x] + rest;
      MembersCompose(t, i, k, ParseMembers(t, k + 1).next, x, value, rest, ParseMembers(t, k + 1).value);
    } else {
      var x := MemberRead(t, i, k);
      members := [x];
      LastMember(t, i, k, x, value);
    }
  }

  // cJSON_Parse accepts nothing but a text of the grammar, up to the liberties, with white space in front
  // and anything behind, and returns the value of that text.
  lemma {:induction false} AcceptsTexts(t: CString) returns (before: string, d: Doc, closed: bool)
    requires Parse(t).Ok?
    ensures |before| <= |t| && Blank(before) && before + t[|before|..] == t
    ensures Taken(t, |before|, Parse(t).next, Parse(t).value, d, closed)
  {
    SkipIsBlank(t, 0);
    before := t[0..Skip(t, 0)];
    d, closed := ValueRead(t, Skip(t, 0));
  }

  // ----- the texts of RFC 8259 ----------------------------------------------------------------

  lemma {:induction false} LegalPiecesLoose(ps: seq<Piece>)
    requires CleanPieces(ps)
    ensures LoosePieces(ps) && GrammarPieces(ps) && LooseMeanings(ps) == PiecesMeaning(ps)
  {
    hide Utf8, HexNumber, IsHex, RawChar;
    PiecesClean(ps);
    forall p | p in ps ensures LoosePiece(p) {
      LegalPieceLoose(p);
    }
    if ps != [] {
      LegalPiecesLoose(ps[1..]);
      LegalPieceLoose(ps[0]);
      hide LegalPiece, GrammarPiece, LoosePiece, LooseMeaning, PieceMeaning;
    }
  }

  lemma {:induction false} LegalPieceLoose(p: Piece)
    requires LegalPiece(p)
    ensures LoosePiece(p) && GrammarPiece(p) && LooseMeaning(p) == PieceMeaning(p)
  {
    hide Utf8, HexNumber, IsHex;
  }

  lemma {:induction false} UpToAll(s: string)
    requires NUL !in s
    ensures UpToNul(s) == s
  {
    if s != [] {
      assert s[0] in s;
      UpToAll(s[1..]);
    }
  }

  lemma {:induction false} LegalHeld(ps: seq<Piece>)
    requires LegalPieces(ps)
    ensures LoosePieces(ps) && Held(ps) == NoNuls(ps)
  {
    hide LoosePieces, GrammarPieces, LooseMeanings, PiecesMeaning, UpToNul;
    LegalPiecesLoose(ps);
    PiecesClean(ps);
    UpToAll(LooseMeanings(ps));
  }

  lemma {:induction false} WhiteIsBlank(s: string)
    requires White(s)
    ensures Blank(s)
  {
  }

  // Every text of RFC 8259 is one of these, with the same value.
  lemma {:induction false} LegalIsLoose(d: Doc)
    requires Legal(d)
    ensures Loose(d) && Value(d) == Meaning(d)
    decreases d
  {
    hide LegalPieces, LoosePieces, Held, NoNuls, NumberMeaning, White, Blank;
    match d
    case DNumber(n) =>
    case DString(ps) => LegalHeld(ps);
    case DArray(open, items) =>
      WhiteIsBlank(open);
      LegalItemsLoose(items);
    case DObject(open, members) =>
      WhiteIsBlank(open);
      LegalMembersLoose(members);
    case _ =>
  }

  lemma {:induction false} LegalItemsLoose(items: seq<DItem>)
    requires forall x <- items :: LegalItem(x)
    ensures (forall x <- items :: LooseItem(x)) && ItemsValue(items) == ItemsMeaning(items)
    decreases items
  {
    if items != [] {
      var x := items[0];
      assert LegalItem(x);
      WhiteIsBlank(x.before);
      WhiteIsBlank(x.after);
      LegalIsLoose(x.value);
      LegalItemsLoose(items[1..]);
      hide Legal, Loose, White, Blank, Value, Meaning;
      assert LooseItem(x);
      assert forall y <- items :: y == x || y in items[1..];
    }
  }

  lemma {:induction false} LegalMembersLoose(members: seq<DMember>)
    requires forall x <- members :: LegalMember(x)
    ensures (forall x <- members :: LooseMember(x)) && MembersValue(members) == MembersMeaning(members)
    decreases members
  {
    if members != [] {
      var x := members[0];
      assert LegalMember(x);
      WhiteIsBlank(x.before);
      WhiteIsBlank(x.colon);
      WhiteIsBlank(x.gap);
      WhiteIsBlank(x.after);
      LegalHeld(x.name);
      LegalIsLoose(x.value);
      LegalMembersLoose(members[1..]);
      hide Legal, Loose, White, Blank, Value, Meaning, LegalPieces, LoosePieces, Held, NoNuls;
      assert LooseMember(x);
      assert forall y <- members :: y == x || y in members[1..];
    }
  }
}
