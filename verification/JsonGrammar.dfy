/**
The parser accepts every text of the grammar and returns what it means.
*/
module JsonGrammar {
  import opened CStrings
  import opened JsonText
  import opened JsonParse
  import opened JsonLayout

  // ----- white space --------------------------------------------------------------------------

  lemma {:induction false} SkipOver(t: CString, i: nat, w: string)
    requires Stands(t, i, w) && White(w)
    ensures Skip(t, i) == Skip(t, i + |w|)
    decreases |w|
  {
    if w != [] {
      StandsAt(t, i, w, 0);
      assert w == [w[0]] + w[1..];
      StandsSplit(t, i, [w[0]], w[1..]);
      assert w[0] in w && forall c <- w[1..] :: c in w;
      SkipOver(t, i + 1, w[1..]);
    }
  }

  lemma {:induction false} SkipTwice(t: CString, i: nat)
    requires i <= |t|
    ensures Skip(t, Skip(t, i)) == Skip(t, i)
    decreases |t| - i
  {
    if i < |t| && t[i] as int <= 32 {
      SkipTwice(t, i + 1);
    }
  }

  // ----- numbers ------------------------------------------------------------------------------

  lemma {:induction false} DigitsStand(t: CString, i: nat, s: string)
    requires Stands(t, i, s) && Digits(s) && !IsDigit(At(t, i + |s|))
    ensures DigitsEnd(t, i) == i + |s|
    decreases |s|
  {
    if s != [] {
      StandsAt(t, i, s, 0);
      assert s[0] in s;
      assert s == [s[0]] + s[1..];
      StandsSplit(t, i, [s[0]], s[1..]);
      DigitsStand(t, i + 1, s[1..]);
    }
  }

  lemma {:induction false} DecimalMore(x: string, c: char)
    ensures Decimal(x + [c]) == Decimal(x) * 10 + DigitValue(c)
  {
    assert (x + [c])[..|x|] == x;
  }

  // Reading digits one by one computes the decimal value.
  lemma {:induction false} AccumulateIsDecimal(x: string, t: CString, i: nat, s: string)
    requires Stands(t, i, s)
    ensures Accumulate(Decimal(x), t, i, i + |s|) == Decimal(x + s)
    decreases |s|
  {
    assert i + |s| <= |t|;
    hide Decimal, Stands, DigitValue;
    if s == [] {
      assert x + s == x;
    } else {
      StandsAt(t, i, s, 0);
      assert s == [s[0]] + s[1..];
      StandsSplit(t, i, [s[0]], s[1..]);
      DecimalMore(x, s[0]);
      AccumulateIsDecimal(x + [s[0]], t, i + 1, s[1..]);
      assert x + [s[0]] + s[1..] == x + s;
    }
  }

  // What may follow a number.
  ghost predicate Follow(c: char) {
    !IsDigit(c) && c != '.' && c != 'e' && c != 'E'
  }

  // The integer part, from the offset behind the sign.
  lemma {:induction false} IntStands(t: CString, i: nat, whole: string)
    requires Digits(whole) && whole != [] && (whole[0] == '0' ==> whole == "0")
    requires Stands(t, i, whole) && !IsDigit(At(t, i + |whole|))
    ensures At(t, i) == whole[0] && IsDigit(whole[0])
    ensures whole[0] == '0' ==> At(t, i + 1) == At(t, i + |whole|) && Decimal(whole) == 0
    ensures whole[0] != '0' ==> DigitsEnd(t, i) == i + |whole| && Accumulate(0, t, i, i + |whole|) == Decimal(whole)
  {
    assert whole[0] in whole;
    StandsAt(t, i, whole, 0);
    if whole[0] == '0' {
      DecimalMore([], '0');
      assert [] + ['0'] == whole;
    } else {
      DigitsStand(t, i, whole);
      AccumulateIsDecimal([], t, i, whole);
      assert [] + whole == whole;
    }
  }

  lemma {:induction false} WholeStands(t: CString, i: nat, minus: bool, whole: string)
    requires Digits(whole) && whole != [] && (whole[0] == '0' ==> whole == "0")
    requires Stands(t, i, if minus then "-" else "") && Stands(t, i + (if minus then 1 else 0), whole)
    requires var j := i + (if minus then 1 else 0) + |whole|; !IsDigit(At(t, j))
    ensures ParseWhole(t, i) ==
            (NumberParts(Decimal(whole), if minus then -1 else 1, 0, 0, 1), i + (if minus then 1 else 0) + |whole|)
  {
    var i1 := if minus then i + 1 else i;
    assert i1 + |whole| <= |t|;
    if minus {
      StandsAt(t, i, "-", 0);
    }
    IntStands(t, i1, whole);
    hide Decimal, Accumulate, DigitsEnd, Stands, Digits;
  }

  lemma {:induction false} FractionStands(t: CString, i: nat, whole: string, frac: string, sign: int)
    requires Digits(frac) && Stands(t, i, FracText(frac))
    requires !IsDigit(At(t, i + |FracText(frac)|)) && At(t, i + |FracText(frac)|) != '.'
    ensures i <= |t| && i + |FracText(frac)| <= |t|
    ensures ParseFraction(t, i, NumberParts(Decimal(whole), sign, 0, 0, 1)) ==
            Ok(NumberParts(Decimal(whole + frac), sign, -|frac|, 0, 1), i + |FracText(frac)|)
  {
    hide *;
    FracIs(frac);
    if frac == [] {
      assert whole + frac == whole;
      StandsBounds(t, i, FracText(frac));
      NoFraction(t, i, NumberParts(Decimal(whole), sign, 0, 0, 1));
    } else {
      StandsSplit(t, i, ".", frac);
      PointStands(t, i);
      assert frac == [frac[0]] + frac[1..];
      StandsSplit(t, i + 1, [frac[0]], frac[1..]);
      StandsBounds(t, i + 1, frac);
      RestDigits(frac);
      DigitsStand(t, i + 2, frac[1..]);
      AccumulateIsDecimal(whole, t, i + 1, frac);
      FractionIs(t, i, NumberParts(Decimal(whole), sign, 0, 0, 1), i + 1 + |frac|);
    }
  }

  lemma {:induction false} FracIs(frac: string)
    ensures FracText(frac) == if frac == [] then "" else "." + frac
  {
  }

  lemma {:induction false} StandsBounds(t: string, i: nat, x: string)
    requires Stands(t, i, x)
    ensures i + |x| <= |t|
  {
  }

  lemma {:induction false} PointStands(t: CString, i: nat)
    requires Stands(t, i, ".")
    ensures i < |t| && At(t, i) == '.'
  {
    StandsAt(t, i, ".", 0);
  }

  lemma {:induction false} RestDigits(s: string)
    requires Digits(s) && s != []
    ensures Digits(s[1..])
  {
  }

  lemma {:induction false} NoFraction(t: CString, i: nat, p: NumberParts)
    requires i <= |t| && At(t, i) != '.'
    ensures ParseFraction(t, i, p) == Ok(p, i)
  {
  }

  // The fraction, on what its loop returns.
  lemma {:induction false} FractionIs(t: CString, i: nat, p: NumberParts, j: nat)
    requires i + 2 <= |t| && At(t, i) == '.' && DigitsEnd(t, i + 2) == j
    ensures ParseFraction(t, i, p) == Ok(p.(n := Accumulate(p.n, t, i + 1, j), scale := -(j - i - 1)), j)
  {
    hide DigitsEnd, Accumulate;
  }

  // The sign of the exponent, and where its digits start.
  lemma {:induction false} SignStands(t: CString, i: nat, sign: ExpSign, exp: string)
    requires Stands(t, i, SignText(sign)) && Stands(t, i + |SignText(sign)|, exp) && Digits(exp) && exp != []
    ensures i + |SignText(sign)| + |exp| <= |t| && i < |t|
    ensures (At(t, i) == '+' || At(t, i) == '-') <==> sign != NoSign
    ensures At(t, i) == '-' <==> sign == MinusSign
    ensures |SignText(sign)| == if sign == NoSign then 0 else 1
  {
    assert exp[0] in exp;
    StandsAt(t, i + |SignText(sign)|, exp, 0);
    if sign != NoSign {
      StandsAt(t, i, SignText(sign), 0);
    }
  }

  // The exponent, on what its steps return.
  lemma {:induction false} ExponentReads(t: CString, i: nat, j: nat, p: NumberParts, k: nat, v: int, negative: bool)
    requires i + 1 <= |t| && (At(t, i) == 'e' || At(t, i) == 'E') && p.signsubscale == 1
    requires k == (if At(t, i + 1) == '+' || At(t, i + 1) == '-' then i + 2 else i + 1) <= |t|
    requires negative <==> At(t, i + 1) == '-'
    requires DigitsEnd(t, k) == j && Accumulate(0, t, k, j) == v
    ensures ParseExponent(t, i, p) == (p.(subscale := v, signsubscale := if negative then -1 else 1), j)
  {
    hide DigitsEnd, Accumulate, At;
  }

  lemma {:induction false} ExponentStands(t: CString, i: nat, e: string, sign: ExpSign, exp: string, p: NumberParts)
    requires Digits(exp) && (e == "e" || e == "E") && exp != []
    requires Stands(t, i, e) && Stands(t, i + 1, SignText(sign)) && Stands(t, i + 1 + |SignText(sign)|, exp)
    requires !IsDigit(At(t, i + 1 + |SignText(sign)| + |exp|)) && p.subscale == 0 && p.signsubscale == 1
    ensures ParseExponent(t, i, p) ==
            (p.(subscale := Decimal(exp), signsubscale := if sign == MinusSign then -1 else 1),
             i + 1 + |SignText(sign)| + |exp|)
  {
    hide *;
    var k := i + 1 + |SignText(sign)|;
    SignStands(t, i + 1, sign, exp);
    LetterStands(t, i, e);
    DigitsStand(t, k, exp);
    AccumulateIsDecimal([], t, k, exp);
    EmptyDecimal();
    assert [] + exp == exp;
    ExponentReads(t, i, k + |exp|, p, k, Decimal(exp), sign == MinusSign);
  }

  lemma {:induction false} LetterStands(t: CString, i: nat, e: string)
    requires Stands(t, i, e) && |e| == 1
    ensures i < |t| && At(t, i) == e[0]
  {
    StandsAt(t, i, e, 0);
  }

  lemma {:induction false} NumberSplits(t: CString, i: nat, n: NumLit)
    requires Stands(t, i, NumberText(n))
    ensures var minus := if n.minus then "-" else "";
            var i1 := i + |minus|;
            var i2 := i1 + |n.whole|;
            && Stands(t, i, minus) && Stands(t, i1, n.whole) && Stands(t, i2, FracText(n.frac))
            && Stands(t, i2 + |FracText(n.frac)|, ExpText(n))
            && i + |NumberText(n)| == i2 + |FracText(n.frac)| + |ExpText(n)|
  {
    var minus := if n.minus then "-" else "";
    var i2 := i + |minus| + |n.whole|;
    hide Stands, FracText, ExpText;
    StandsSplit(t, i, minus, n.whole + (FracText(n.frac) + ExpText(n)));
    StandsSplit(t, i + |minus|, n.whole, FracText(n.frac) + ExpText(n));
    StandsSplit(t, i2, FracText(n.frac), ExpText(n));
  }

  lemma {:induction false} ExpSplits(t: CString, i: nat, n: NumLit)
    requires Stands(t, i, ExpText(n)) && LegalNumber(n)
    ensures n.e != [] ==>
              && (n.e == "e" || n.e == "E") && n.exp != [] && At(t, i) == n.e[0]
              && Stands(t, i, n.e) && Stands(t, i + 1, SignText(n.sign)) && Stands(t, i + 1 + |SignText(n.sign)|, n.exp)
              && |ExpText(n)| == 1 + |SignText(n.sign)| + |n.exp|
    ensures n.e == [] ==> ExpText(n) == [] && n.exp == [] && n.sign == NoSign
  {
    if n.e != [] {
      StandsSplit(t, i, n.e, SignText(n.sign) + n.exp);
      StandsSplit(t, i + 1, SignText(n.sign), n.exp);
      StandsAt(t, i, n.e, 0);
    }
  }

  // Neither a digit nor a point stands behind the fraction.
  lemma {:induction false} AfterFraction(t: CString, i: nat, n: NumLit)
    requires LegalNumber(n) && Stands(t, i, ExpText(n)) && Follow(At(t, i + |ExpText(n)|))
    ensures !IsDigit(At(t, i)) && At(t, i) != '.'
  {
    ExpSplits(t, i, n);
  }

  // Where the parts of the literal end, if it starts at `i`.
  ghost function WholeEnd(i: nat, n: NumLit): nat {
    i + (if n.minus then 1 else 0) + |n.whole|
  }

  ghost function FracEnd(i: nat, n: NumLit): nat {
    WholeEnd(i, n) + |FracText(n.frac)|
  }

  ghost function WholeParts(n: NumLit): NumberParts {
    NumberParts(Decimal(n.whole), if n.minus then -1 else 1, 0, 0, 1)
  }

  ghost function FracParts(n: NumLit): NumberParts {
    WholeParts(n).(n := Decimal(n.whole + n.frac), scale := -|n.frac|)
  }

  // The parts of the literal, each at its place.
  lemma {:induction false} Places(t: CString, i: nat, n: NumLit)
    requires Stands(t, i, NumberText(n))
    ensures Stands(t, i, if n.minus then "-" else "") && Stands(t, i + (if n.minus then 1 else 0), n.whole)
    ensures WholeEnd(i, n) == i + (if n.minus then 1 else 0) + |n.whole| && Stands(t, WholeEnd(i, n), FracText(n.frac))
    ensures FracEnd(i, n) == WholeEnd(i, n) + |FracText(n.frac)| && Stands(t, FracEnd(i, n), ExpText(n))
    ensures FracEnd(i, n) + |ExpText(n)| == i + |NumberText(n)| <= |t|
  {
    NumberSplits(t, i, n);
    hide NumberText, ExpText, FracText;
  }

  lemma {:induction false} NumberParted(n: NumLit)
    requires LegalNumber(n)
    ensures Digits(n.whole) && n.whole != [] && (n.whole[0] == '0' ==> n.whole == "0") && Digits(n.frac)
  {
    hide Digits;
  }

  lemma {:induction false} WholeReads(t: CString, i: nat, n: NumLit)
    requires LegalNumber(n) && Stands(t, i, NumberText(n)) && Follow(At(t, i + |NumberText(n)|))
    ensures i <= |t| && ParseWhole(t, i) == (WholeParts(n), WholeEnd(i, n))
  {
    hide *;
    Places(t, i, n);
    NumberParted(n);
    AfterFraction(t, FracEnd(i, n), n);
    AfterWhole(t, WholeEnd(i, n), n.frac);
    WholeStands(t, i, n.minus, n.whole);
    PartsAre(n);
  }

  lemma {:induction false} PartsAre(n: NumLit)
    ensures WholeParts(n) == NumberParts(Decimal(n.whole), if n.minus then -1 else 1, 0, 0, 1)
    ensures FracParts(n) == NumberParts(Decimal(n.whole + n.frac), if n.minus then -1 else 1, -|n.frac|, 0, 1)
  {
    hide Decimal;
  }

  lemma {:induction false} FracReads(t: CString, i: nat, n: NumLit)
    requires LegalNumber(n) && Stands(t, i, NumberText(n)) && Follow(At(t, i + |NumberText(n)|))
    ensures WholeEnd(i, n) <= |t| && ParseFraction(t, WholeEnd(i, n), WholeParts(n)) == Ok(FracParts(n), FracEnd(i, n))
    ensures Stands(t, FracEnd(i, n), ExpText(n)) && FracEnd(i, n) + |ExpText(n)| == i + |NumberText(n)| <= |t|
  {
    hide *;
    Places(t, i, n);
    NumberParted(n);
    AfterFraction(t, FracEnd(i, n), n);
    FractionStands(t, WholeEnd(i, n), n.whole, n.frac, if n.minus then -1 else 1);
    PartsAre(n);
  }

  // parse_number reads a whole literal and no more, with its exact value.
  lemma {:induction false} NumberStands(t: CString, i: nat, n: NumLit)
    requires LegalNumber(n) && Stands(t, i, NumberText(n)) && Follow(At(t, i + |NumberText(n)|))
    ensures ParseNumber(t, i) == Ok(NumberMeaning(n), i + |NumberText(n)|)
  {
    hide *;
    WholeReads(t, i, n);
    FracReads(t, i, n);
    SameEnd(t, i, n);
    ExpStands(t, FracEnd(i, n), n, FracParts(n));
    NumberCompose(t, i, WholeEnd(i, n), FracEnd(i, n), i + |NumberText(n)|, WholeParts(n), FracParts(n), WithExp(FracParts(n), n));
    MeaningIs(n);
  }

  lemma {:induction false} SameEnd(t: CString, i: nat, n: NumLit)
    requires FracEnd(i, n) + |ExpText(n)| == i + |NumberText(n)| <= |t| && Follow(At(t, i + |NumberText(n)|))
    ensures Follow(At(t, FracEnd(i, n) + |ExpText(n)|)) && FracParts(n).subscale == 0 && FracParts(n).signsubscale == 1
  {
    hide ExpText, NumberText, Decimal;
  }

  lemma {:induction false} MeaningIs(n: NumLit)
    ensures NumberOf(WithExp(FracParts(n), n)) == NumberMeaning(n)
  {
    hide Decimal;
  }

  ghost function WithExp(p: NumberParts, n: NumLit): NumberParts {
    p.(subscale := Decimal(n.exp), signsubscale := if n.sign == MinusSign then -1 else 1)
  }

  lemma {:induction false} ExpStands(t: CString, i: nat, n: NumLit, p: NumberParts)
    requires LegalNumber(n) && Stands(t, i, ExpText(n)) && Follow(At(t, i + |ExpText(n)|))
    requires p.subscale == 0 && p.signsubscale == 1
    ensures ParseExponent(t, i, p) == (WithExp(p, n), i + |ExpText(n)|)
  {
    ExpSplits(t, i, n);
    hide Stands, ParseExponent, Digits, Decimal;
    if n.e != [] {
      ExponentStands(t, i, n.e, n.sign, n.exp, p);
    } else {
      NoExponent(t, i, p);
    }
  }

  lemma {:induction false} NumberCompose(t: CString, i: nat, i2: nat, i3: nat, i4: nat, p: NumberParts, p2: NumberParts, p3: NumberParts)
    requires i <= |t| && i2 <= |t| && i3 <= |t| && ParseWhole(t, i) == (p, i2)
    requires ParseFraction(t, i2, p) == Ok(p2, i3) && ParseExponent(t, i3, p2) == (p3, i4)
    ensures ParseNumber(t, i) == Ok(NumberOf(p3), i4)
  {
  }

  lemma {:induction false} NoExponent(t: CString, i: nat, p: NumberParts)
    requires i <= |t| && At(t, i) != 'e' && At(t, i) != 'E'
    ensures ParseExponent(t, i, p) == (p, i) && Decimal([]) == 0
  {
  }

  lemma {:induction false} EmptyDecimal()
    ensures Decimal([]) == 0
  {
  }

  // The byte behind the integer part is never a digit.
  lemma {:induction false} AfterWhole(t: CString, i: nat, frac: string)
    requires Stands(t, i, FracText(frac)) && !IsDigit(At(t, i + |FracText(frac)|))
    ensures !IsDigit(At(t, i))
  {
    if frac != [] {
      StandsAt(t, i, FracText(frac), 0);
    }
  }
}
