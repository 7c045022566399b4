/**
JSON values compared by what they stand for: two spellings of a number are the same value when they
denote the same decimal.
*/
module JsonValues {
  import opened CStrings
  import opened JsonText
  import opened JsonParse
  import opened JsonLayout
  import opened JsonGrammar
  import opened JsonDocs

  // ----- numbers ------------------------------------------------------------------------------

  // 10^e
  ghost function Ten(e: int): (r: real)
    ensures r > 0.0
    decreases if e < 0 then -e else e
  {
    if e == 0 then 1.0 else if e > 0 then 10.0 * Ten(e - 1) else Ten(e + 1) / 10.0
  }

  lemma {:induction false} TenNext(e: int)
    ensures Ten(e + 1) == 10.0 * Ten(e)
  {
  }

  lemma {:induction false} TenTimes(p: real, q: real, r: real, s: real, t: real)
    requires p == 10.0 * q && t == 10.0 * s
    ensures q == r * s <==> p == r * t
  {
    assert r * t == 10.0 * (r * s);
  }

  lemma {:induction false} TenZero()
    ensures Ten(0) == 1.0
  {
  }

  lemma {:induction false} Unit(x: real)
    ensures x * 1.0 == x
  {
  }

  lemma {:induction false} TenAdd(a: int, b: int)
    ensures Ten(a + b) == Ten(a) * Ten(b)
    decreases if b < 0 then -b else b
  {
    hide Ten;
    if b == 0 {
      TenZero();
      Unit(Ten(a));
    } else if b > 0 {
      TenAdd(a, b - 1);
      TenNext(a + (b - 1));
      TenNext(b - 1);
      TenTimes(Ten(a + b), Ten(a + (b - 1)), Ten(a), Ten(b - 1), Ten(b));
    } else {
      TenAdd(a, b + 1);
      TenNext(a + b);
      TenNext(b);
      TenTimes(Ten(a + (b + 1)), Ten(a + b), Ten(a), Ten(b), Ten(b + 1));
    }
  }

  // What a number of the parser denotes.
  ghost function Denoted(mantissa: int, exponent: int): real {
    mantissa as real * Ten(exponent)
  }

  // The value of the digits behind the point.
  ghost function Fraction(frac: string): real {
    if frac == [] then 0.0 else (DigitValue(frac[0]) as real + Fraction(frac[1..])) / 10.0
  }

  // What a literal denotes by section 6: the digits before and behind the point, the sign, and the
  // power of ten behind the e.
  ghost function LiteralValue(n: NumLit): real {
    (if n.minus then -1.0 else 1.0) * (Decimal(n.whole) as real + Fraction(n.frac))
    * Ten(if n.sign == MinusSign then -Decimal(n.exp) else Decimal(n.exp))
  }

  lemma {:induction false} FractionMore(x: string, c: char)
    ensures Fraction(x + [c]) == Fraction(x) + DigitValue(c) as real * Ten(-(|x| + 1))
  {
    if x == [] {
      assert [] + [c] == [c] && [c][1..] == [];
      assert Ten(-1) == Ten(0) / 10.0;
    } else {
      assert (x + [c])[1..] == x[1..] + [c];
      FractionMore(x[1..], c);
      TenNext(-(|x| + 1));
    }
  }

  lemma {:induction false} NoFraction(whole: string)
    ensures whole + [] == whole && Fraction([]) == 0.0
  {
  }

  // All the digits as one number: the value, scaled by the digits behind the point.
  lemma {:induction false} DecimalSplits(whole: string, frac: string)
    ensures Decimal(whole + frac) as real == (Decimal(whole) as real + Fraction(frac)) * Ten(|frac|)
    decreases |frac|
  {
    hide *;
    if frac == [] {
      NoFraction(whole);
      TenZero();
      Unit(Decimal(whole) as real);
    } else {
      var n := |frac| - 1;
      var x, c := frac[..n], frac[n];
      assert frac == x + [c] && whole + frac == whole + x + [c];
      DecimalMore(whole + x, c);
      FractionMore(x, c);
      DecimalSplits(whole, x);
      ScaleStep(Decimal(whole) as real, Fraction(x), DigitValue(c) as real, n);
    }
  }

  lemma {:induction false} ScaleStep(w: real, f: real, d: real, n: nat)
    ensures (w + (f + d * Ten(-(n + 1)))) * Ten(n + 1) == (w + f) * Ten(n) * 10.0 + d
  {
    TenAdd(-(n + 1), n + 1);
    TenNext(n);
    assert Ten(0) == 1.0;
    hide Ten;
    Spread(w + f, d, Ten(-(n + 1)), Ten(n), Ten(n + 1));
  }

  lemma {:induction false} Spread(x: real, d: real, down: real, up: real, next: real)
    requires next == 10.0 * up && down * next == 1.0
    ensures (x + d * down) * next == x * up * 10.0 + d
  {
    assert d * down * next == d * (down * next);
    assert x * next == x * up * 10.0;
    assert (x + d * down) * next == x * next + d * down * next;
  }

  // The parser's number denotes what the literal denotes.
  lemma {:induction false} MeaningDenotes(n: NumLit)
    requires LegalNumber(n)
    ensures Denoted(NumberMeaning(n).mantissa, NumberMeaning(n).exponent) == LiteralValue(n)
  {
    var e := if n.sign == MinusSign then -Decimal(n.exp) else Decimal(n.exp);
    DecimalSplits(n.whole, n.frac);
    TenAdd(e - |n.frac|, |n.frac|);
    hide Ten, Fraction, Decimal;
    var v := Decimal(n.whole) as real + Fraction(n.frac);
    Rescaled(v, Ten(|n.frac|), Ten(e - |n.frac|), Ten(e), if n.minus then -1.0 else 1.0);
    SignedReal(Decimal(n.whole + n.frac), n.minus);
  }

  lemma {:induction false} SignedReal(m: int, minus: bool)
    ensures ((if minus then -1 else 1) * m) as real == (if minus then -1.0 else 1.0) * (m as real)
  {
  }

  lemma {:induction false} Rescaled(v: real, up: real, low: real, all: real, sign: real)
    requires all == low * up
    ensures sign * (v * up) * low == sign * v * all
  {
    assert sign * (v * up) * low == sign * v * (low * up);
  }

  // ----- trees --------------------------------------------------------------------------------

  ghost predicate SameValue(x: Json, y: Json)
    decreases x
  {
    match x
    case Number(m, e) => y.Number? && Denoted(m, e) == Denoted(y.mantissa, y.exponent)
    case Arr(items) =>
      y.Arr? && |items| == |y.items| && forall i :: 0 <= i < |items| ==> SameValue(items[i], y.items[i])
    case Obj(members) =>
      && y.Obj? && |members| == |y.members|
      && forall i :: 0 <= i < |members| ==>
           members[i].name == y.members[i].name && SameValue(members[i].value, y.members[i].value)
    case _ => x == y
  }

  // Two texts say the same: the same structure, strings that stand for the same bytes, and numbers
  // that denote the same value.
  ghost predicate SaysSame(d: Doc, d': Doc)
    requires Legal(d) && Legal(d')
    decreases d
  {
    match d
    case DNumber(n) => d'.DNumber? && LiteralValue(n) == LiteralValue(d'.n)
    case DString(ps) => d'.DString? && NoNuls(ps) == NoNuls(d'.ps)
    case DArray(_, items) =>
      && d'.DArray? && |items| == |d'.items|
      && forall i :: 0 <= i < |items| ==> SaysSameItem(items[i], d'.items[i])
    case DObject(_, members) =>
      && d'.DObject? && |members| == |d'.members|
      && forall i :: 0 <= i < |members| ==> SaysSameMember(members[i], d'.members[i])
    case _ => d == d'
  }

  ghost predicate SaysSameItem(x: DItem, y: DItem)
    decreases x
  {
    LegalItem(x) && LegalItem(y) && SaysSame(x.value, y.value)
  }

  ghost predicate SaysSameMember(x: DMember, y: DMember)
    decreases x
  {
    && LegalMember(x) && LegalMember(y)
    && NoNuls(x.name) == NoNuls(y.name) && SaysSame(x.value, y.value)
  }

  lemma {:induction false} ItemMeans(items: seq<DItem>, i: nat)
    requires i < |items| && forall x <- items :: LegalItem(x)
    ensures LegalItem(items[i]) && Legal(items[i].value) && |ItemsMeaning(items)| == |items|
    ensures ItemsMeaning(items)[i] == Meaning(items[i].value)
    decreases items
  {
    assert items[i] in items;
    ItemsMean(items);
    hide Meaning, LegalItem;
    if |items| > 1 {
      ItemMeans(items[1..], if i == 0 then 0 else i - 1);
    }
  }

  lemma {:induction false} MemberMeans(members: seq<DMember>, i: nat)
    requires i < |members| && forall x <- members :: LegalMember(x)
    ensures LegalMember(members[i]) && LegalPieces(members[i].name) && Legal(members[i].value)
    ensures |MembersMeaning(members)| == |members|
    ensures MembersMeaning(members)[i] == Member(NoNuls(members[i].name), Meaning(members[i].value))
    decreases members
  {
    assert members[i] in members;
    MembersMean(members);
    hide Meaning, LegalMember, NoNuls;
    if |members| > 1 {
      MemberMeans(members[1..], if i == 0 then 0 else i - 1);
    }
  }

  lemma {:induction false} ItemsLength(items: seq<DItem>)
    requires forall x <- items :: LegalItem(x)
    ensures |ItemsMeaning(items)| == |items|
  {
    if items != [] {
      ItemMeans(items, 0);
    }
  }

  lemma {:induction false} MembersLength(members: seq<DMember>)
    requires forall x <- members :: LegalMember(x)
    ensures |MembersMeaning(members)| == |members|
  {
    if members != [] {
      MemberMeans(members, 0);
    }
  }

  // The constructor of a meaning is that of the text.
  lemma {:induction false} MeaningKinds(d: Doc)
    requires Legal(d)
    ensures (d.DNumber? ==> Meaning(d) == NumberMeaning(d.n) && LegalNumber(d.n)) && (d.DNumber? <==> Meaning(d).Number?)
    ensures (d.DString? ==> LegalPieces(d.ps) && Meaning(d) == Str(NoNuls(d.ps))) && (d.DString? <==> Meaning(d).Str?)
    ensures d.DArray? ==> (forall x <- d.items :: LegalItem(x)) && Meaning(d) == Arr(ItemsMeaning(d.items))
    ensures d.DObject? ==> (forall x <- d.members :: LegalMember(x)) && Meaning(d) == Obj(MembersMeaning(d.members))
    ensures (d.DArray? <==> Meaning(d).Arr?) && (d.DObject? <==> Meaning(d).Obj?)
    ensures (d.DNull? <==> Meaning(d) == Null) && (d.DFalse? <==> Meaning(d) == False) && (d.DTrue? <==> Meaning(d) == True)
  {
  }

  lemma {:induction false} ItemsSame(items: seq<DItem>, items': seq<DItem>)
    requires (forall x <- items :: LegalItem(x)) && (forall x <- items' :: LegalItem(x)) && |items| == |items'|
    ensures |ItemsMeaning(items)| == |ItemsMeaning(items')| == |items|
    ensures (forall i :: 0 <= i < |items| ==> SameValue(ItemsMeaning(items)[i], ItemsMeaning(items')[i]))
            <==> forall i :: 0 <= i < |items| ==> SaysSameItem(items[i], items'[i])
    decreases items, 0
  {
    ItemsLength(items);
    ItemsLength(items');
    forall i: nat | i < |items|
      ensures SameValue(ItemsMeaning(items)[i], ItemsMeaning(items')[i]) <==> SaysSameItem(items[i], items'[i])
    {
      ItemMeans(items, i);
      ItemMeans(items', i);
      hide Meaning, SaysSame, Legal, LegalItem, ItemsMeaning;
      MeaningsAgree(items[i].value, items'[i].value);
    }
  }

  lemma {:induction false} MembersSame(members: seq<DMember>, members': seq<DMember>)
    requires (forall x <- members :: LegalMember(x)) && (forall x <- members' :: LegalMember(x)) && |members| == |members'|
    ensures |MembersMeaning(members)| == |MembersMeaning(members')| == |members|
    ensures (forall i :: 0 <= i < |members| ==>
               MembersMeaning(members)[i].name == MembersMeaning(members')[i].name
               && SameValue(MembersMeaning(members)[i].value, MembersMeaning(members')[i].value))
            <==> forall i :: 0 <= i < |members| ==> SaysSameMember(members[i], members'[i])
    decreases members, 0
  {
    MembersLength(members);
    MembersLength(members');
    forall i: nat | i < |members|
      ensures MembersMeaning(members)[i].name == MembersMeaning(members')[i].name
              && SameValue(MembersMeaning(members)[i].value, MembersMeaning(members')[i].value)
              <==> SaysSameMember(members[i], members'[i])
    {
      MemberMeans(members, i);
      MemberMeans(members', i);
      hide Meaning, SaysSame, Legal, LegalMember, MembersMeaning, NoNuls;
      MeaningsAgree(members[i].value, members'[i].value);
    }
  }

  // Meanings are the same value exactly when the texts say the same.
  lemma {:induction false} MeaningsAgree(d: Doc, d': Doc)
    requires Legal(d) && Legal(d')
    ensures SameValue(Meaning(d), Meaning(d')) <==> SaysSame(d, d')
    decreases d
  {
    MeaningKinds(d);
    MeaningKinds(d');
    hide Meaning, LegalItem, LegalMember, LegalNumber, LegalPieces, ItemsMeaning, MembersMeaning, NumberMeaning, NoNuls,
         Denoted, LiteralValue;
    if d.DNumber? && d'.DNumber? {
      MeaningDenotes(d.n);
      MeaningDenotes(d'.n);
    } else if d.DArray? && d'.DArray? && |d.items| == |d'.items| {
      ItemsSame(d.items, d'.items);
    } else if d.DObject? && d'.DObject? && |d.members| == |d'.members| {
      MembersSame(d.members, d'.members);
    } else if d.DArray? && d'.DArray? {
      ItemsLength(d.items);
      ItemsLength(d'.items);
    } else if d.DObject? && d'.DObject? {
      MembersLength(d.members);
      MembersLength(d'.members);
    }
  }

  // White space, escapes and the spelling of numbers carry no meaning of their own: two texts parse
  // to the same value exactly when they say the same.
  lemma {:induction false} LayoutIsFree(t: CString, t': CString, w: string, d: Doc, w': string, d': Doc)
    requires Legal(d) && Legal(d') && White(w) && White(w') && t == w + Text(d) && t' == w' + Text(d')
    ensures Parse(t).Ok? && Parse(t').Ok? && (SameValue(Parse(t).value, Parse(t').value) <==> SaysSame(d, d'))
  {
    hide Text, Legal, Meaning, White, Parse, SameValue, SaysSame;
    assert Text(d) + [] == Text(d) && Text(d') + [] == Text(d');
    TextParses(t, w, d, []);
    TextParses(t', w', d', []);
    MeaningsAgree(d, d');
  }

  // 1, 1.0 and 10e-1 say the same.
  lemma {:induction false} OneIsOne()
    ensures var one, point, exp := NumLit(false, "1", "", "", NoSign, ""), NumLit(false, "1", "0", "", NoSign, ""),
                                   NumLit(false, "10", "", "e", MinusSign, "1");
            && NumberText(one) == "1" && NumberText(point) == "1.0" && NumberText(exp) == "10e-1"
            && LiteralValue(one) == LiteralValue(point) == LiteralValue(exp) == 1.0
  {
    assert Decimal("1") == 1 by { DecimalMore("", '1'); assert Decimal("") == 0; assert "" + "1" == "1"; }
    assert Decimal("10") == 10 by { DecimalMore("1", '0'); assert "1" + "0" == "10"; }
    assert Fraction("0") == 0.0 by { assert "0"[1..] == ""; }
    assert Ten(-1) == 0.1 && Ten(0) == 1.0;
  }
}
