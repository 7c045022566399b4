/**
String literals: measuring and decoding agree, and every escape becomes the right bytes.
*/
module JsonStrings {
  import opened CInts
  import opened Options
  import opened CStrings
  import opened JsonText
  import opened JsonParse
  import opened JsonLayout

  // ----- \u escapes ---------------------------------------------------------------------------

  lemma {:induction false} LowBits(x: bv8)
    ensures ((x | 0x80) & 0xBF) as int == 0x80 + x as int % 64
  {
  }

  lemma {:induction false} LeadBits(x: bv8)
    ensures (x | 0x00) as int == x as int
    ensures x as int < 0x20 ==> (x | 0xC0) as int == 0xC0 + x as int
    ensures x as int < 0x10 ==> (x | 0xE0) as int == 0xE0 + x as int
  {
  }

  lemma {:induction false} Mod64(uc: nat)
    ensures uc % 256 % 64 == uc % 64
  {
    assert uc == uc / 256 * 4 * 64 + uc % 256;
  }

  lemma {:induction false} ContinuationByte(uc: nat)
    ensures Continuation(uc) as int == 0x80 + uc % 64
  {
    hide Bits;
    LowBits(Bits(uc % 256));
    Mod64(uc);
  }

  lemma {:induction false} LeadingByte(uc: nat)
    requires uc < 0x80
    ensures Leading(uc, 0x00) as int == uc
    ensures uc < 0x20 ==> Leading(uc, 0xC0) as int == 0xC0 + uc
    ensures uc < 0x10 ==> Leading(uc, 0xE0) as int == 0xE0 + uc
  {
    hide Bits;
    assert uc % 256 == uc;
    LeadBits(Bits(uc % 256));
  }

  lemma {:induction false} ShiftTwice(uc: nat)
    ensures uc / 64 / 64 == uc / 4096
  {
  }

  lemma {:induction false} SameChar(c: char, n: nat)
    requires n < 256 && c as int == n
    ensures c == n as char
  {
  }

  // The shifts and masks of parse_string write the UTF-8 encoding of the escaped code.
  lemma {:induction false} TranscodeIsUtf8(uc: nat)
    requires uc < 0x10000
    ensures Transcode(uc) == Utf8(uc)
  {
    hide Leading, Continuation;
    if uc < 0x80 {
      LeadingByte(uc);
      SameChar(Leading(uc, 0x00), uc);
    } else {
      ContinuationByte(uc);
      SameChar(Continuation(uc), 0x80 + uc % 64);
      if uc < 0x800 {
        LeadingByte(uc / 64);
        SameChar(Leading(uc / 64, 0xC0), 0xC0 + uc / 64);
      } else {
        ShiftTwice(uc);
        ContinuationByte(uc / 64);
        SameChar(Continuation(uc / 64), 0x80 + uc / 64 % 64);
        LeadingByte(uc / 4096);
        SameChar(Leading(uc / 4096, 0xE0), 0xE0 + uc / 4096);
      }
    }
  }

  // Reading the encoding back by the bit patterns of RFC 3629.
  ghost function Utf8Value(s: string): int
    requires s != []
  {
    var b := s[0] as int;
    if b < 0x80 then b
    else if 0xC0 <= b < 0xE0 && |s| == 2 then (b - 0xC0) * 64 + (s[1] as int - 0x80)
    else if 0xE0 <= b < 0xF0 && |s| == 3 then (b - 0xE0) * 4096 + (s[1] as int - 0x80) * 64 + (s[2] as int - 0x80)
    else if 0xF0 <= b && |s| == 4 then
      (b - 0xF0) * 262144 + (s[1] as int - 0x80) * 4096 + (s[2] as int - 0x80) * 64 + (s[3] as int - 0x80)
    else -1
  }

  lemma {:induction false} Utf8ReadsBack(n: nat)
    requires n < 0x110000
    ensures Utf8Value(Utf8(n)) == n
    ensures |Utf8(n)| == if n < 0x80 then 1 else if n < 0x800 then 2 else if n < 0x10000 then 3 else 4
  {
    assert n == n / 262144 * 262144 + n / 4096 % 64 * 4096 + n / 64 % 64 * 64 + n % 64;
  }

  // ----- the two loops ------------------------------------------------------------------------

  lemma {:induction false} MeasureOne(t: CString, p: nat)
    requires p < |t| && t[p] != '\"' && t[p] != '\\'
    ensures Measure(t, p + 1).Ok? ==>
              Measure(t, p) == Ok(Measure(t, p + 1).value + 1, Measure(t, p + 1).next)
  {
  }

  lemma {:induction false} HexIsPlain(c: char)
    requires IsHex(c)
    ensures c != '\"' && c != '\\'
  {
  }

  // A \u escape is measured as at least five bytes.
  lemma {:induction false} MeasureHex(t: CString, p: nat)
    requires p + 6 <= |t| && t[p] == '\\' && IsHex(t[p + 2]) && IsHex(t[p + 3]) && IsHex(t[p + 4]) && IsHex(t[p + 5])
    ensures Measure(t, p + 6).Ok? ==> Measure(t, p) == Ok(Measure(t, p + 6).value + 5, Measure(t, p + 6).next)
  {
    HexIsPlain(t[p + 2]);
    HexIsPlain(t[p + 3]);
    HexIsPlain(t[p + 4]);
    HexIsPlain(t[p + 5]);
    hide IsHex;
    if Measure(t, p + 6).Ok? {
      MeasureOne(t, p + 5);
      MeasureOne(t, p + 4);
      MeasureOne(t, p + 3);
      MeasureOne(t, p + 2);
    }
  }

  lemma {:induction false} TranscodeFits(uc: nat)
    ensures |Transcode(uc)| <= 3
  {
  }

  // Whenever decoding runs through, measuring stopped at the same place and asked for enough bytes.
  lemma {:induction false} DecodeFits(t: CString, p: nat)
    requires p <= |t| && Decode(t, p).Ok?
    ensures Measure(t, p).Ok? && Measure(t, p).next == Decode(t, p).next
    ensures |Decode(t, p).value| <= Measure(t, p).value
    decreases |t| - p
  {
    hide Transcode, Unescaped;
    if p == |t| || t[p] == '\"' {
    } else if t[p] != '\\' {
      DecodeFits(t, p + 1);
    } else if t[p + 1] == 'u' {
      DecodeFits(t, p + 6);
      MeasureHex(t, p);
      TranscodeFits(HexNumber(t[p + 2], t[p + 3], t[p + 4], t[p + 5]));
    } else {
      DecodeFits(t, p + 2);
    }
  }

  // ----- literals of the grammar --------------------------------------------------------------

  lemma {:induction false} EscapeMeaning(c: char)
    requires c in "\"\\/bfnrt"
    ensures Unescaped(c) == EscMeaning(c) && c != 'u'
  {
  }

  lemma {:induction false} PieceStands(t: CString, p: nat, x: Piece)
    requires GrammarPiece(x) && Stands(t, p, PieceText(x))
    ensures p + |PieceText(x)| <= |t|
    ensures Decode(t, p) == Prepend(PieceMeaning(x), Decode(t, p + |PieceText(x)|))
  {
    hide Transcode, HexNumber, Utf8, Unescaped, EscMeaning;
    StandsAt(t, p, PieceText(x), 0);
    match x
    case Raw(c) =>
    case Esc(c) =>
      StandsAt(t, p, PieceText(x), 1);
      EscapeMeaning(c);
    case Hex(a, b, c, d) =>
      StandsAt(t, p, PieceText(x), 1);
      StandsAt(t, p, PieceText(x), 2);
      StandsAt(t, p, PieceText(x), 3);
      StandsAt(t, p, PieceText(x), 4);
      StandsAt(t, p, PieceText(x), 5);
      TranscodeIsUtf8(HexNumber(a, b, c, d));
  }

  lemma {:induction false} PieceCounted(t: CString, p: nat, x: Piece)
    requires GrammarPiece(x) && Stands(t, p, PieceText(x))
    ensures p + |PieceText(x)| <= |t|
    ensures var m := Measure(t, p + |PieceText(x)|);
            m.Ok? ==> Measure(t, p) == Ok(m.value + (if x.Hex? then 5 else 1), m.next)
  {
    StandsAt(t, p, PieceText(x), 0);
    match x
    case Raw(c) =>
    case Esc(c) =>
      StandsAt(t, p, PieceText(x), 1);
    case Hex(a, b, c, d) =>
      StandsAt(t, p, PieceText(x), 1);
      StandsAt(t, p, PieceText(x), 2);
      StandsAt(t, p, PieceText(x), 3);
      StandsAt(t, p, PieceText(x), 4);
      StandsAt(t, p, PieceText(x), 5);
      hide IsHex;
      MeasureHex(t, p);
  }

  lemma {:induction false} PiecesStep(ps: seq<Piece>)
    requires GrammarPieces(ps) && ps != []
    ensures GrammarPiece(ps[0]) && GrammarPieces(ps[1..])
    ensures Count(ps) == (if ps[0].Hex? then 5 else 1) + Count(ps[1..])
    ensures PiecesText(ps) == PieceText(ps[0]) + PiecesText(ps[1..])
    ensures PiecesMeaning(ps) == PieceMeaning(ps[0]) + PiecesMeaning(ps[1..])
  {
    hide GrammarPiece, PieceText, PieceMeaning;
  }

  lemma {:induction false} NoPieces(t: CString, p: nat)
    requires Stands(t, p, PiecesText([])) && p + |PiecesText([])| <= |t| && At(t, p + |PiecesText([])|) == '\"'
    ensures PiecesText([]) == "" && PiecesMeaning([]) == "" && p <= |t| && Decode(t, p) == Ok("", p)
    ensures Count([]) == 0 && Measure(t, p) == Ok(0, p)
  {
  }

  lemma {:induction false} PrependIs(x: string, y: string, n: nat)
    ensures Prepend(x, Ok(y, n)) == Ok(x + y, n)
  {
  }

  // The measuring loop counts the pieces, the decoding loop turns them into their meaning, and both
  // stop at the closing quote.
  lemma {:induction false} PiecesStand(t: CString, p: nat, ps: seq<Piece>)
    requires GrammarPieces(ps) && Stands(t, p, PiecesText(ps))
    requires p + |PiecesText(ps)| <= |t| && At(t, p + |PiecesText(ps)|) == '\"'
    ensures p <= |t| && Decode(t, p) == Ok(PiecesMeaning(ps), p + |PiecesText(ps)|)
    ensures Measure(t, p) == Ok(Count(ps), p + |PiecesText(ps)|)
    decreases |ps|
  {
    hide *;
    if ps == [] {
      NoPieces(t, p);
    } else {
      PiecesStep(ps);
      var n := |PieceText(ps[0])|;
      StandsSplit(t, p, PieceText(ps[0]), PiecesText(ps[1..]));
      PieceStands(t, p, ps[0]);
      PieceCounted(t, p, ps[0]);
      PiecesStand(t, p + n, ps[1..]);
      PrependIs(PieceMeaning(ps[0]), PiecesMeaning(ps[1..]), p + |PiecesText(ps)|);
    }
  }

  lemma {:induction false} UpToNulWhole(s: string)
    ensures UpToNul(s) == s <==> NUL !in s
  {
    if s != [] && s[0] != NUL {
      UpToNulWhole(s[1..]);
      assert s == [s[0]] + s[1..];
      assert UpToNul(s)[1..] == UpToNul(s[1..]);
      assert NUL in s <==> NUL in s[1..];
    }
  }

  ghost predicate IsNulEscape(p: Piece)
    requires GrammarPiece(p)
  {
    p.Hex? && HexNumber(p.a, p.b, p.c, p.d) == 0
  }

  lemma {:induction false} NulComesFrom(ps: seq<Piece>)
    requires GrammarPieces(ps)
    ensures NUL in PiecesMeaning(ps) <==> exists p <- ps :: IsNulEscape(p)
  {
    if ps != [] {
      assert GrammarPiece(ps[0]);
      NulComesFrom(ps[1..]);
      assert NUL in PieceMeaning(ps[0]) <==> IsNulEscape(ps[0]) by {
        if ps[0].Hex? && HexNumber(ps[0].a, ps[0].b, ps[0].c, ps[0].d) != 0 {
          Utf8Clean(HexNumber(ps[0].a, ps[0].b, ps[0].c, ps[0].d));
        }
      }
      hide IsNulEscape, PieceMeaning, GrammarPiece;
      assert NUL in PiecesMeaning(ps) <==> NUL in PieceMeaning(ps[0]) || NUL in PiecesMeaning(ps[1..]);
      assert forall p :: p in ps <==> p == ps[0] || p in ps[1..];
    }
  }

  // Every string literal of section 7 whose length an int can count is read up to its closing quote;
  // its whole meaning is kept just when it has no \u0000.
  lemma {:induction false} LiteralStands(t: CString, i: nat, ps: seq<Piece>)
    requires GrammarPieces(ps) && Stands(t, i, StringText(ps))
    ensures i <= |t| && (ParseString(t, i).Ok? <==> Counted(ps))
    ensures Counted(ps) ==> ParseString(t, i) == Ok(UpToNul(PiecesMeaning(ps)), i + |StringText(ps)|)
    ensures UpToNul(PiecesMeaning(ps)) == PiecesMeaning(ps) <==> forall p <- ps :: !IsNulEscape(p)
  {
    hide *;
    var end := i + 1 + |PiecesText(ps)|;
    QuotesStand(t, i, ps);
    PiecesStand(t, i + 1, ps);
    CountedIs(ps);
    StringReads(t, i, PiecesMeaning(ps), end, Count(ps));
    UpToNulWhole(PiecesMeaning(ps));
    NulComesFrom(ps);
  }

  lemma {:induction false} CountedIs(ps: seq<Piece>)
    ensures Counted(ps) <==> Count(ps) < INT_MAX
  {
  }

  ghost predicate IsSurrogate(p: Piece)
    requires GrammarPiece(p)
  {
    HighHalf(p) || LowHalf(p)
  }

  ghost predicate AnySurrogate(ps: seq<Piece>)
    requires GrammarPieces(ps)
  {
    exists p <- ps :: IsSurrogate(p)
  }

  // One piece that is no half of a pair.
  lemma {:induction false} SingleMeans(ps: seq<Piece>)
    requires GrammarPieces(ps) && ps != [] && GrammarPiece(ps[0]) && !IsSurrogate(ps[0])
    ensures GrammarPieces(ps[1..]) && StringMeaning(ps) == Before(PieceMeaning(ps[0]), StringMeaning(ps[1..]))
    ensures PiecesMeaning(ps) == PieceMeaning(ps[0]) + PiecesMeaning(ps[1..])
    ensures AnySurrogate(ps) <==> AnySurrogate(ps[1..])
  {
    hide PieceMeaning, CodeOf;
    assert forall p :: p in ps <==> p == ps[0] || p in ps[1..];
  }

  // A half is printed as a code of three bytes.
  lemma {:induction false} HalfMeans(p: Piece)
    requires GrammarPiece(p) && IsSurrogate(p)
    ensures 0xD800 <= CodeOf(p) < 0xE000 && PieceMeaning(p) == Utf8(CodeOf(p)) && |PieceMeaning(p)| == 3 && NUL !in PieceMeaning(p)
  {
    Utf8Clean(CodeOf(p));
    hide HexNumber;
  }

  lemma {:induction false} WideChar(n: nat)
    requires 0x10000 <= n < 0x110000
    ensures |Utf8(n)| == 4 && NUL !in Utf8(n)
  {
    Utf8Clean(n);
  }

  lemma {:induction false} PairStep(ps: seq<Piece>)
    requires GrammarPieces(ps) && |ps| > 1 && GrammarPiece(ps[0]) && GrammarPiece(ps[1]) && HighHalf(ps[0]) && LowHalf(ps[1])
    ensures GrammarPieces(ps[2..]) && IsSurrogate(ps[0]) && IsSurrogate(ps[1]) && AnySurrogate(ps)
    ensures StringMeaning(ps) == Before(Utf8(PairCode(CodeOf(ps[0]), CodeOf(ps[1]))), StringMeaning(ps[2..]))
  {
    hide Utf8, CodeOf, GrammarPiece, PairCode;
    assert IsSurrogate(ps[0]) && ps[0] in ps;
  }

  // A pair is printed as two codes of three bytes, and means one character of four.
  lemma {:induction false} PairMeans(ps: seq<Piece>)
    requires GrammarPieces(ps) && |ps| > 1 && GrammarPiece(ps[0]) && GrammarPiece(ps[1]) && HighHalf(ps[0]) && LowHalf(ps[1])
    ensures GrammarPieces(ps[2..]) && AnySurrogate(ps)
    ensures var code := PairCode(CodeOf(ps[0]), CodeOf(ps[1]));
            && StringMeaning(ps) == Before(Utf8(code), StringMeaning(ps[2..]))
            && |Utf8(code)| == 4 && NUL !in Utf8(code)
    ensures var two := PieceMeaning(ps[0]) + PieceMeaning(ps[1]);
            PiecesMeaning(ps) == two + PiecesMeaning(ps[2..]) && |two| == 6 && NUL !in two
  {
    hide Utf8, PieceMeaning, PairCode, GrammarPiece, GrammarPieces, StringMeaning, PiecesMeaning, IsSurrogate, AnySurrogate;
    PairStep(ps);
    HalfMeans(ps[0]);
    HalfMeans(ps[1]);
    WideChar(PairCode(CodeOf(ps[0]), CodeOf(ps[1])));
    hide HighHalf, LowHalf, CodeOf;
    PiecesStep(ps);
    PiecesStep(ps[1..]);
    assert ps[1..][1..] == ps[2..] && ps[1..][0] == ps[1];
    assert PieceMeaning(ps[0]) + (PieceMeaning(ps[1]) + PiecesMeaning(ps[2..]))
        == PieceMeaning(ps[0]) + PieceMeaning(ps[1]) + PiecesMeaning(ps[2..]);
  }

  // Where a literal means something, decoding piece by piece gives at least as many bytes, and just
  // as many when no two escapes belong together; and both have a NUL or neither.
  lemma {:induction false} PiecesAgainstPairs(ps: seq<Piece>)
    requires GrammarPieces(ps)
    ensures !AnySurrogate(ps) ==> StringMeaning(ps) == Some(PiecesMeaning(ps))
    ensures StringMeaning(ps).Some? ==> (NUL in StringMeaning(ps).value <==> NUL in PiecesMeaning(ps))
    ensures StringMeaning(ps).Some? ==>
              && |PiecesMeaning(ps)| >= |StringMeaning(ps).value|
              && (AnySurrogate(ps) ==> |PiecesMeaning(ps)| > |StringMeaning(ps).value|)
    decreases |ps|
  {
    if ps != [] {
      assert GrammarPiece(ps[0]);
      hide PieceMeaning, CodeOf, PiecesMeaning;
      if !IsSurrogate(ps[0]) {
        SingleMeans(ps);
        PiecesAgainstPairs(ps[1..]);
      } else {
        assert AnySurrogate(ps);
        if HighHalf(ps[0]) && |ps| > 1 && LowHalf(ps[1]) {
          PairMeans(ps);
          hide Utf8, PairCode, HighHalf, LowHalf, IsSurrogate, StringMeaning;
          PiecesAgainstPairs(ps[2..]);
        }
      }
    }
  }

  // A literal that means something by section 7, and is not too long to count, is read as what it
  // means exactly when it has neither a surrogate pair nor a \u0000; one that means nothing has half
  // a pair.
  lemma {:induction false} MeantStands(t: CString, i: nat, ps: seq<Piece>)
    requires GrammarPieces(ps) && Stands(t, i, StringText(ps))
    ensures i <= |t| && (ParseString(t, i).Ok? <==> Counted(ps))
    ensures Counted(ps) ==> ParseString(t, i).next == i + |StringText(ps)|
    ensures Counted(ps) && StringMeaning(ps).Some? ==>
              (ParseString(t, i).value == StringMeaning(ps).value
               <==> forall p <- ps :: !IsNulEscape(p) && !IsSurrogate(p))
    ensures StringMeaning(ps).None? ==> exists p <- ps :: IsSurrogate(p)
  {
    hide IsNulEscape, IsSurrogate, StringMeaning, PiecesMeaning, UpToNul, ParseString;
    LiteralStands(t, i, ps);
    PiecesAgainstPairs(ps);
    NulComesFrom(ps);
    UpToNulWhole(PiecesMeaning(ps));
  }

  const SMILE_HIGH := Hex('d', '8', '3', 'd')
  const SMILE_LOW := Hex('d', 'e', '0', '0')

  lemma {:induction false} SmileCodes()
    ensures GrammarPieces([SMILE_HIGH, SMILE_LOW]) && GrammarPiece(SMILE_HIGH) && GrammarPiece(SMILE_LOW)
    ensures CodeOf(SMILE_HIGH) == 0xD83D && CodeOf(SMILE_LOW) == 0xDE00
    ensures PieceMeaning(SMILE_HIGH) == Utf8(0xD83D) && PieceMeaning(SMILE_LOW) == Utf8(0xDE00)
    ensures HighHalf(SMILE_HIGH) && LowHalf(SMILE_LOW) && PairCode(0xD83D, 0xDE00) == 0x1F600
  {
  }

  lemma {:induction false} SmileBytes()
    ensures Utf8(0x1F600) == [0xF0 as char, 0x9F as char, 0x98 as char, 0x80 as char]
    ensures Utf8(0xD83D) == [0xED as char, 0xA0 as char, 0xBD as char]
    ensures Utf8(0xDE00) == [0xED as char, 0xB8 as char, 0x80 as char]
  {
  }

  lemma {:induction false} SmileText()
    ensures StringText([SMILE_HIGH, SMILE_LOW]) == "\"\\ud83d\\ude00\""
  {
    hide GrammarPiece;
    var ps := [SMILE_HIGH, SMILE_LOW];
    assert ps[1..] == [SMILE_LOW] && ps[1..][1..] == [];
    assert PieceText(SMILE_HIGH) == "\\ud83d" && PieceText(SMILE_LOW) == "\\ude00";
    assert PiecesText(ps[1..]) == PieceText(SMILE_LOW) + PiecesText([]);
    assert PiecesText(ps[1..]) == "\\ude00";
    assert PiecesText(ps) == "\\ud83d\\ude00";
  }

  lemma {:induction false} SmileMeans()
    ensures GrammarPieces([SMILE_HIGH, SMILE_LOW])
    ensures StringMeaning([SMILE_HIGH, SMILE_LOW]) == Some(Utf8(0x1F600))
    ensures PiecesMeaning([SMILE_HIGH, SMILE_LOW]) == Utf8(0xD83D) + Utf8(0xDE00)
  {
    var ps := [SMILE_HIGH, SMILE_LOW];
    SmileCodes();
    PairMeans(ps);
    hide Utf8, HighHalf, LowHalf, CodeOf, PieceMeaning, PairCode;
    assert ps[2..] == [];
    assert StringMeaning([]) == Some([]) && PiecesMeaning([]) == [];
    assert Utf8(0x1F600) + [] == Utf8(0x1F600) && Utf8(0xD83D) + Utf8(0xDE00) + [] == Utf8(0xD83D) + Utf8(0xDE00);
  }

  const SMILE := [0xF0 as char, 0x9F as char, 0x98 as char, 0x80 as char]
  const SMILE_HALVES := [0xED as char, 0xA0 as char, 0xBD as char, 0xED as char, 0xB8 as char, 0x80 as char]

  lemma {:induction false} SmileHalves()
    ensures Utf8(0xD83D) + Utf8(0xDE00) == SMILE_HALVES && NUL !in SMILE_HALVES && Utf8(0x1F600) == SMILE
  {
    SmileBytes();
    hide Utf8;
  }

  // U+1F600 as a pair: four bytes by RFC 3629, and the six of its halves from the parser.
  lemma {:induction false} PairWitness(t: CString)
    requires t == StringText([SMILE_HIGH, SMILE_LOW])
    ensures t == "\"\\ud83d\\ude00\""
    ensures GrammarPieces([SMILE_HIGH, SMILE_LOW]) && StringMeaning([SMILE_HIGH, SMILE_LOW]) == Some(SMILE)
    ensures ParseString(t, 0) == Ok(SMILE_HALVES, |t|)
  {
    hide *;
    SmileText();
    SmileMeans();
    SmileHalves();
    StandsHere(t);
    SmileCounted();
    LiteralStands(t, 0, [SMILE_HIGH, SMILE_LOW]);
    UpToNulWhole(SMILE_HALVES);
  }

  lemma {:induction false} SmileCounted()
    ensures Counted([SMILE_HIGH, SMILE_LOW])
  {
    assert [SMILE_HIGH, SMILE_LOW][1..] == [SMILE_LOW];
    assert [SMILE_LOW][1..] == [];
    assert Count([SMILE_LOW]) == 5;
  }

  lemma {:induction false} StandsHere(t: string)
    ensures Stands(t, 0, t)
  {
  }

  lemma {:induction false} QuotesStand(t: CString, i: nat, ps: seq<Piece>)
    requires Stands(t, i, StringText(ps))
    ensures At(t, i) == '\"' && Stands(t, i + 1, PiecesText(ps)) && i + 1 + |PiecesText(ps)| < |t|
    ensures At(t, i + 1 + |PiecesText(ps)|) == '\"' && |StringText(ps)| == |PiecesText(ps)| + 2
  {
    var text := PiecesText(ps);
    hide PiecesText;
    StandsSplit(t, i, "\"", text + "\"");
    StandsSplit(t, i + 1, text, "\"");
    StandsAt(t, i, "\"", 0);
    StandsAt(t, i + 1 + |text|, "\"", 0);
  }

  // parse_string, on what its loops return.
  lemma {:induction false} StringReads(t: CString, i: nat, s: string, end: nat, len: nat)
    requires i < |t| && At(t, i) == '\"' && Measure(t, i + 1) == Ok(len, end) && Decode(t, i + 1) == Ok(s, end)
    requires end <= |t| && At(t, end) == '\"'
    ensures ParseString(t, i) == if len < INT_MAX then Ok(UpToNul(s), end + 1) else Stray
  {
    hide Measure, Decode, UpToNul;
  }

  lemma {:induction false} StringStands(t: CString, i: nat, ps: seq<Piece>)
    requires LegalPieces(ps) && Stands(t, i, StringText(ps))
    ensures i <= |t| && ParseString(t, i) == Ok(NoNuls(ps), i + |StringText(ps)|)
  {
    PiecesClean(ps);
    hide Stands;
    LiteralStands(t, i, ps);
    UpToNulWhole(PiecesMeaning(ps));
  }
}
