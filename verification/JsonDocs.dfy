/**
Whole documents: parsing any text of the grammar gives its meaning.
*/
module JsonDocs {
  import opened CStrings
  import opened JsonText
  import opened JsonParse
  import opened JsonLayout
  import opened JsonGrammar
  import opened JsonStrings

  // ----- how values start and what follows them -----------------------------------------------

  ghost predicate StartsValue(c: char) {
    c as int > 32 && c != ',' && c != ']' && c != '}' && c != ':'
  }

  ghost predicate AfterValue(c: char) {
    c == ',' || c == ']' || c == '}'
  }

  lemma {:induction false} NumberStart(n: NumLit)
    requires LegalNumber(n)
    ensures NumberText(n) != [] && StartsNumber(NumberText(n)[0])
  {
    assert n.whole[0] in n.whole;
    hide FracText, SignText;
  }

  lemma {:induction false} TextStart(d: Doc)
    requires Legal(d)
    ensures Text(d) != [] && StartsValue(Text(d)[0])
    ensures match d
            case DNumber(_) => StartsNumber(Text(d)[0])
            case DString(_) => Text(d)[0] == '\"'
            case DArray(_, _) => Text(d)[0] == '['
            case DObject(_, _) => Text(d)[0] == '{'
            case _ => true
  {
    match d
    case DNumber(n) => NumberStart(n);
    case DString(ps) =>
    case DArray(open, items) => hide ItemsText;
    case DObject(open, members) => hide MembersText;
    case _ =>
  }

  lemma {:induction false} Visible(d: Doc)
    requires Legal(d)
    ensures Text(d) != [] && StartsValue(Text(d)[0]) && Text(d)[0] as int > 32
  {
    TextStart(d);
    hide Text, Legal;
  }

  lemma {:induction false} NoWord(t: CString, i: nat)
    requires i <= |t| && At(t, i) != 'n' && At(t, i) != 'f' && At(t, i) != 't'
    ensures !Stands(t, i, "null") && !Stands(t, i, "false") && !Stands(t, i, "true")
  {
    if Stands(t, i, "null") { StandsAt(t, i, "null", 0); }
    if Stands(t, i, "false") { StandsAt(t, i, "false", 0); }
    if Stands(t, i, "true") { StandsAt(t, i, "true", 0); }
  }

  lemma {:induction false} WordStands(t: CString, i: nat)
    requires i <= |t|
    ensures Stands(t, i, "null") ==> ParseValue(t, i) == Ok(Null, i + 4)
    ensures Stands(t, i, "false") ==> ParseValue(t, i) == Ok(False, i + 5)
    ensures Stands(t, i, "true") ==> ParseValue(t, i) == Ok(True, i + 4)
  {
    if Stands(t, i, "false") { StandsAt(t, i, "false", 0); }
    if Stands(t, i, "true") { StandsAt(t, i, "true", 0); }
    if Stands(t, i, "null") { StandsAt(t, i, "null", 0); }
  }

  // White space and the byte behind it.
  lemma {:induction false} SkipTo(t: CString, i: nat, w: string)
    requires White(w) && Stands(t, i, w) && At(t, i + |w|) as int > 32
    ensures i <= |t| && Skip(t, i) == i + |w|
  {
    SkipOver(t, i, w);
  }

  lemma {:induction false} SkipToText(t: CString, i: nat, w: string, x: string)
    requires White(w) && Stands(t, i, w) && Stands(t, i + |w|, x) && x != [] && x[0] as int > 32
    ensures i + |w| < |t| && At(t, i + |w|) == x[0] && Skip(t, i) == i + |w|
  {
    StandsAt(t, i + |w|, x, 0);
    AtMost(t, i + |w|, x);
    hide Stands, White, Skip;
    SkipTo(t, i, w);
  }

  lemma {:induction false} AfterWhite(t: CString, i: nat, w: string)
    requires White(w) && Stands(t, i, w) && Follow(At(t, i + |w|))
    ensures i <= |t| && Follow(At(t, i))
  {
    if w != [] {
      StandsAt(t, i, w, 0);
      assert w[0] in w;
    }
  }

  // ----- the recursion ------------------------------------------------------------------------

  lemma {:induction false} ScalarStands(t: CString, i: nat, d: Doc)
    requires Legal(d) && Stands(t, i, Text(d)) && Follow(At(t, i + |Text(d)|)) && !d.DArray? && !d.DObject?
    ensures i <= |t| && ParseValue(t, i) == Ok(Meaning(d), i + |Text(d)|)
  {
    hide *;
    TextIs(d);
    TextStart(d);
    StandsBounds(t, i, Text(d));
    StandsAt(t, i, Text(d), 0);
    BytesAt(t, i);
    match d
    case DNull => WordStands(t, i);
    case DFalse => WordStands(t, i);
    case DTrue => WordStands(t, i);
    case DNumber(n) =>
      NumberFirst(At(t, i));
      NoWord(t, i);
      NumberStands(t, i, n);
      NumberValue(t, i);
    case DString(ps) =>
      NoWord(t, i);
      StringStands(t, i, ps);
      StringValue(t, i);
  }

  // Text and meaning of a scalar.
  lemma {:induction false} TextIs(d: Doc)
    requires Legal(d) && !d.DArray? && !d.DObject?
    ensures match d
            case DNull => Text(d) == "null" && Meaning(d) == Null
            case DFalse => Text(d) == "false" && Meaning(d) == False
            case DTrue => Text(d) == "true" && Meaning(d) == True
            case DNumber(n) => LegalNumber(n) && Text(d) == NumberText(n) && Meaning(d) == NumberMeaning(n)
            case DString(ps) => LegalPieces(ps) && Text(d) == StringText(ps) && Meaning(d) == Str(NoNuls(ps))
            case _ => true
  {
    hide LegalNumber, NumberText, NumberMeaning, LegalPieces, StringText, NoNuls;
  }

  lemma {:induction false} BytesAt(t: CString, i: nat)
    requires i < |t|
    ensures At(t, i) == t[i]
  {
  }

  lemma {:induction false} NumberFirst(c: char)
    requires StartsNumber(c)
    ensures c != 'n' && c != 'f' && c != 't' && c != '\"'
  {
  }

  lemma {:induction false} NumberValue(t: CString, i: nat)
    requires i <= |t| && !Stands(t, i, "null") && !Stands(t, i, "false") && !Stands(t, i, "true")
    requires At(t, i) != '\"' && StartsNumber(At(t, i))
    ensures ParseValue(t, i) == ParseNumber(t, i)
  {
    hide ParseNumber, Stands;
  }

  lemma {:induction false} StringValue(t: CString, i: nat)
    requires i <= |t| && !Stands(t, i, "null") && !Stands(t, i, "false") && !Stands(t, i, "true") && At(t, i) == '\"'
    requires ParseString(t, i).Ok?
    ensures ParseValue(t, i) == Ok(Str(ParseString(t, i).value), ParseString(t, i).next)
  {
    hide ParseString, Stands;
  }

  // The brackets of an array or object around what stands between them.
  lemma {:induction false} BracketsStand(t: CString, i: nat, left: char, inside: string, right: char)
    requires Stands(t, i, [left] + (inside + [right]))
    ensures i + 1 + |inside| < |t|
    ensures t[i] == left && Stands(t, i + 1, inside) && At(t, i + 1 + |inside|) == right
  {
    StandsSplit(t, i, [left], inside + [right]);
    StandsSplit(t, i + 1, inside, [right]);
    AtMost(t, i + 1 + |inside|, [right]);
    StandsAt(t, i, [left], 0);
    StandsAt(t, i + 1 + |inside|, [right], 0);
  }

  lemma {:induction false} AtMost(t: CString, i: nat, x: string)
    requires Stands(t, i, x)
    ensures i + |x| <= |t|
  {
  }

  lemma {:induction false} ItemsSkipped(t: CString, i: nat)
    requires i <= |t|
    ensures ParseItems(t, Skip(t, i)) == ParseItems(t, i)
  {
    SkipTwice(t, i);
  }

  lemma {:induction false} MemberSkipped(t: CString, i: nat, j: nat)
    requires i <= |t| && j <= |t| && Skip(t, i) == Skip(t, j)
    ensures ParseMember(t, i) == ParseMember(t, j)
  {
    hide Skip, ParseString, ParseValue, At;
  }

  lemma {:induction false} MembersFrom(t: CString, i: nat, j: nat)
    requires i <= |t| && j <= |t| && ParseMember(t, i) == ParseMember(t, j)
    ensures ParseMembers(t, i) == ParseMembers(t, j)
  {
    hide Skip, ParseMember, At;
  }

  lemma {:induction false} MembersSkipped(t: CString, i: nat)
    requires i <= |t|
    ensures ParseMembers(t, Skip(t, i)) == ParseMembers(t, i)
  {
    hide *;
    SkipTwice(t, i);
    MemberSkipped(t, Skip(t, i), i);
    MembersFrom(t, Skip(t, i), i);
  }

  lemma {:induction false} DocStands(t: CString, i: nat, d: Doc)
    requires Legal(d) && Stands(t, i, Text(d)) && Follow(At(t, i + |Text(d)|))
    ensures i <= |t| && ParseValue(t, i) == Ok(Meaning(d), i + |Text(d)|)
    decreases d
  {
    hide Text, Legal, Meaning, ParseValue, Stands, Follow;
    match d
    case DArray(open, items) => ArrayStands(t, i, d);
    case DObject(open, members) => ObjectStands(t, i, d);
    case _ => ScalarStands(t, i, d);
  }

  lemma {:induction false} ArrayParts(d: Doc)
    requires d.DArray? && Legal(d)
    ensures White(d.open) && (forall x <- d.items :: LegalItem(x)) && Meaning(d) == Arr(ItemsMeaning(d.items))
    ensures Text(d) == ['['] + ((if d.items == [] then d.open else ItemsText(d.items)) + [']'])
    ensures d.items == [] ==> ItemsMeaning(d.items) == []
  {
    hide LegalItem, ItemsText;
  }

  lemma {:induction false} ArrayStands(t: CString, i: nat, d: Doc)
    requires d.DArray? && Legal(d) && Stands(t, i, Text(d))
    ensures i <= |t| && ParseValue(t, i) == Ok(Meaning(d), i + |Text(d)|)
    decreases d, 0
  {
    hide *;
    var inside := if d.items == [] then d.open else ItemsText(d.items);
    ArrayParts(d);
    BracketsStand(t, i, '[', inside, ']');
    var end := i + 1 + |inside|;
    if d.items == [] {
      SkipTo(t, i + 1, d.open);
      ArrayReads(t, i, end, [], 0);
    } else {
      assert d.items[0] in d.items;
      ItemsStart(t, i + 1, d.items);
      ItemsSkipped(t, i + 1);
      ItemsStand(t, i + 1, d.items);
      ArrayReads(t, i, Skip(t, i + 1), ItemsMeaning(d.items), end);
    }
  }

  // parse_array, on what its steps return.
  lemma {:induction false} ArrayReads(t: CString, i: nat, j: nat, items: seq<Json>, k: nat)
    requires i < |t| && t[i] == '[' && Skip(t, i + 1) == j && j < |t|
    requires At(t, j) == ']' ==> items == []
    requires At(t, j) != ']' ==> ParseItems(t, j) == Ok(items, k) && k < |t| && At(t, k) == ']'
    ensures ParseValue(t, i) == Ok(Arr(items), 1 + (if At(t, j) == ']' then j else k))
  {
    NoWord(t, i);
    hide ParseItems, Stands, Skip;
  }

  lemma {:induction false} ObjectParts(d: Doc)
    requires d.DObject? && Legal(d)
    ensures White(d.open) && (forall x <- d.members :: LegalMember(x)) && Meaning(d) == Obj(MembersMeaning(d.members))
    ensures Text(d) == ['{'] + ((if d.members == [] then d.open else MembersText(d.members)) + ['}'])
    ensures d.members == [] ==> MembersMeaning(d.members) == []
  {
    hide LegalMember, MembersText;
  }

  lemma {:induction false} ObjectStands(t: CString, i: nat, d: Doc)
    requires d.DObject? && Legal(d) && Stands(t, i, Text(d))
    ensures i <= |t| && ParseValue(t, i) == Ok(Meaning(d), i + |Text(d)|)
    decreases d, 0
  {
    hide *;
    var inside := if d.members == [] then d.open else MembersText(d.members);
    ObjectParts(d);
    BracketsStand(t, i, '{', inside, '}');
    var end := i + 1 + |inside|;
    if d.members == [] {
      SkipTo(t, i + 1, d.open);
      ObjectReads(t, i, end, [], 0);
    } else {
      assert d.members[0] in d.members;
      MembersStart(t, i + 1, d.members);
      MembersSkipped(t, i + 1);
      MembersStand(t, i + 1, d.members);
      ObjectReads(t, i, Skip(t, i + 1), MembersMeaning(d.members), end);
    }
  }

  // parse_object, on what its steps return.
  lemma {:induction false} ObjectReads(t: CString, i: nat, j: nat, members: seq<Member>, k: nat)
    requires i < |t| && t[i] == '{' && Skip(t, i + 1) == j && j < |t|
    requires At(t, j) == '}' ==> members == []
    requires At(t, j) != '}' ==> ParseMembers(t, j) == Ok(members, k) && k < |t| && At(t, k) == '}'
    ensures ParseValue(t, i) == Ok(Obj(members), 1 + (if At(t, j) == '}' then j else k))
  {
    NoWord(t, i);
    hide ParseMembers, Stands, Skip;
  }

  // ----- array elements -----------------------------------------------------------------------

  lemma {:induction false} ItemSplits(t: CString, i: nat, x: DItem)
    requires Stands(t, i, ItemText(x))
    ensures Stands(t, i, x.before) && Stands(t, i + |x.before|, Text(x.value))
    ensures Stands(t, i + |x.before| + |Text(x.value)|, x.after)
    ensures i + |ItemText(x)| == i + |x.before| + |Text(x.value)| + |x.after| <= |t|
  {
    var value := Text(x.value);
    assert ItemText(x) == x.before + (value + x.after);
    AtMost(t, i, ItemText(x));
    hide Text, ItemText, Stands;
    StandsSplit(t, i, x.before, value + x.after);
    StandsSplit(t, i + |x.before|, value, x.after);
  }

  lemma {:induction false} ItemsSplit(t: CString, i: nat, items: seq<DItem>)
    requires items != [] && Stands(t, i, ItemsText(items))
    ensures var c := i + |ItemText(items[0])|;
            && Stands(t, i, ItemText(items[0]))
            && (|items| == 1 ==> c == i + |ItemsText(items)|)
            && (|items| > 1 ==> c < |t| && At(t, c) == ',' && Stands(t, c + 1, ItemsText(items[1..]))
                                && c + 1 + |ItemsText(items[1..])| == i + |ItemsText(items)|)
  {
    var sep := if |items| > 1 then "," else "";
    var rest := ItemsText(items[1..]);
    var c := i + |ItemText(items[0])|;
    assert |items| == 1 ==> rest == [];
    assert ItemsText(items) == ItemText(items[0]) + (sep + rest);
    hide ItemText, ItemsText, Stands;
    StandsSplit(t, i, ItemText(items[0]), sep + rest);
    StandsSplit(t, c, sep, rest);
    if |items| > 1 {
      StandsAt(t, c, ",", 0);
      AtMost(t, c, sep);
    }
  }

  lemma {:induction false} ItemStart(t: CString, i: nat, x: DItem)
    requires LegalItem(x) && Stands(t, i, ItemText(x))
    ensures i + |x.before| < |t| && Skip(t, i) == i + |x.before| && StartsValue(At(t, i + |x.before|))
  {
    hide *;
    ItemSplits(t, i, x);
    ItemParts(x);
    Visible(x.value);
    SkipToText(t, i, x.before, Text(x.value));
  }

  lemma {:induction false} ItemsStart(t: CString, i: nat, items: seq<DItem>)
    requires items != [] && LegalItem(items[0]) && Stands(t, i, ItemsText(items))
    ensures i <= |t| && Skip(t, i) < |t| && At(t, Skip(t, i)) != ']'
  {
    ItemsSplit(t, i, items);
    hide ItemsText, ItemText, LegalItem, StartsValue, Stands;
    ItemStart(t, i, items[0]);
  }

  lemma {:induction false} ItemParts(x: DItem)
    requires LegalItem(x)
    ensures White(x.before) && White(x.after) && Legal(x.value)
  {
  }

  lemma {:induction false} Afters()
    ensures AfterValue(',') && AfterValue(']') && AfterValue('}')
  {
  }

  lemma {:induction false} AfterOk(c: char)
    requires AfterValue(c)
    ensures Follow(c) && c as int > 32
  {
  }

  lemma {:induction false} ItemStands(t: CString, i: nat, x: DItem)
    requires LegalItem(x) && Stands(t, i, ItemText(x)) && AfterValue(At(t, i + |ItemText(x)|))
    ensures i <= |t| && ParseValue(t, Skip(t, i)) == Ok(Meaning(x.value), i + |x.before| + |Text(x.value)|)
    ensures i + |x.before| + |Text(x.value)| <= |t| && Skip(t, i + |x.before| + |Text(x.value)|) == i + |ItemText(x)|
    decreases x, 0
  {
    var a := i + |x.before| + |Text(x.value)|;
    hide *;
    ItemSplits(t, i, x);
    ItemParts(x);
    ItemStart(t, i, x);
    AfterOk(At(t, i + |ItemText(x)|));
    SkipTo(t, a, x.after);
    AfterWhite(t, a, x.after);
    DocStands(t, i + |x.before|, x.value);
  }

  // parse_array, on what its steps return.
  lemma {:induction false} ItemsRead(t: CString, i: nat, v: Json, j: nat, k: nat)
    requires i <= |t| && ParseValue(t, Skip(t, i)) == Ok(v, j) && j <= |t| && Skip(t, j) == k < |t|
    ensures At(t, k) != ',' ==> ParseItems(t, i) == Ok([v], k)
    ensures At(t, k) == ',' && ParseItems(t, k + 1).Ok? ==>
              ParseItems(t, i) == Ok([v] + ParseItems(t, k + 1).value, ParseItems(t, k + 1).next)
  {
    hide ParseValue, Skip;
  }

  lemma {:induction false} ItemsMean(items: seq<DItem>)
    requires items != [] && forall x <- items :: LegalItem(x)
    ensures LegalItem(items[0]) && Legal(items[0].value) && forall x <- items[1..] :: LegalItem(x)
    ensures ItemsMeaning(items) == [Meaning(items[0].value)] + ItemsMeaning(items[1..])
    ensures |items| == 1 ==> ItemsMeaning(items) == [Meaning(items[0].value)]
  {
    assert items[0] in items;
    hide Meaning, LegalItem;
  }

  // Elements up to the closing bracket.
  lemma {:induction false} ItemsStand(t: CString, i: nat, items: seq<DItem>)
    requires items != [] && (forall x <- items :: LegalItem(x)) && Stands(t, i, ItemsText(items))
    requires i + |ItemsText(items)| < |t| && At(t, i + |ItemsText(items)|) == ']'
    ensures ParseItems(t, i) == Ok(ItemsMeaning(items), i + |ItemsText(items)|)
    decreases items
  {
    hide *;
    Afters();
    ItemsMean(items);
    ItemsSplit(t, i, items);
    var x := items[0];
    var k := i + |ItemText(x)|;
    ItemStands(t, i, x);
    ItemsRead(t, i, Meaning(x.value), i + |x.before| + |Text(x.value)|, k);
    if |items| > 1 {
      ItemsStand(t, k + 1, items[1..]);
    }
  }

  // ----- object members -----------------------------------------------------------------------

  // Where the parts of a member end, if it starts at `i`.
  ghost function NameAt(i: nat, x: DMember): nat { i + |x.before| }
  ghost function ColonAt(i: nat, x: DMember): nat { NameAt(i, x) + |StringText(x.name)| + |x.colon| }
  ghost function ValueAt(i: nat, x: DMember): nat { ColonAt(i, x) + 1 + |x.gap| }
  ghost function AfterAt(i: nat, x: DMember): nat { ValueAt(i, x) + |Text(x.value)| }

  lemma {:induction false} MemberTextIs(x: DMember)
    ensures MemberText(x) == x.before + (StringText(x.name) + (x.colon + (":" + GapText(x))))
  {
    hide Text, StringText;
  }

  ghost function GapText(x: DMember): string {
    x.gap + (Text(x.value) + x.after)
  }

  lemma {:induction false} MemberSplits(t: CString, i: nat, x: DMember)
    requires Stands(t, i, MemberText(x))
    ensures Stands(t, i, x.before) && Stands(t, NameAt(i, x), StringText(x.name))
    ensures Stands(t, NameAt(i, x) + |StringText(x.name)|, x.colon)
    ensures ColonAt(i, x) < |t| && At(t, ColonAt(i, x)) == ':' && Stands(t, ColonAt(i, x) + 1, x.gap)
    ensures Stands(t, ValueAt(i, x), Text(x.value)) && Stands(t, AfterAt(i, x), x.after)
    ensures AfterAt(i, x) + |x.after| == i + |MemberText(x)|
  {
    hide *;
    MemberPlaces(i, x);
    MemberTextIs(x);
    var name, rest := StringText(x.name), GapText(x);
    StandsSplit(t, i, x.before, name + (x.colon + (":" + rest)));
    StandsSplit(t, NameAt(i, x), name, x.colon + (":" + rest));
    StandsSplit(t, NameAt(i, x) + |name|, x.colon, ":" + rest);
    ColonStands(t, ColonAt(i, x), rest);
    GapSplits(t, ColonAt(i, x) + 1, x);
  }

  lemma {:induction false} ColonStands(t: CString, c: nat, rest: string)
    requires Stands(t, c, ":" + rest)
    ensures c < |t| && At(t, c) == ':' && Stands(t, c + 1, rest)
  {
    StandsSplit(t, c, ":", rest);
    StandsAt(t, c, ":", 0);
    AtMost(t, c, ":");
  }

  lemma {:induction false} GapSplits(t: CString, i: nat, x: DMember)
    requires Stands(t, i, GapText(x))
    ensures Stands(t, i, x.gap) && Stands(t, i + |x.gap|, Text(x.value)) && Stands(t, i + |x.gap| + |Text(x.value)|, x.after)
    ensures |GapText(x)| == |x.gap| + |Text(x.value)| + |x.after|
  {
    hide Text, Stands;
    StandsSplit(t, i, x.gap, Text(x.value) + x.after);
    StandsSplit(t, i + |x.gap|, Text(x.value), x.after);
  }

  lemma {:induction false} MembersSplit(t: CString, i: nat, members: seq<DMember>)
    requires members != [] && Stands(t, i, MembersText(members))
    ensures var c := i + |MemberText(members[0])|;
            && Stands(t, i, MemberText(members[0]))
            && (|members| == 1 ==> c == i + |MembersText(members)|)
            && (|members| > 1 ==> c < |t| && At(t, c) == ',' && Stands(t, c + 1, MembersText(members[1..]))
                                  && c + 1 + |MembersText(members[1..])| == i + |MembersText(members)|)
  {
    var sep := if |members| > 1 then "," else "";
    var rest := MembersText(members[1..]);
    var c := i + |MemberText(members[0])|;
    assert MembersText(members) == MemberText(members[0]) + (sep + rest);
    hide MemberText, MembersText;
    StandsSplit(t, i, MemberText(members[0]), sep + rest);
    StandsSplit(t, c, sep, rest);
    if |members| > 1 {
      StandsAt(t, c, ",", 0);
    }
  }

  // What the members of an object are made of.
  lemma {:induction false} MemberParts(x: DMember)
    requires LegalMember(x)
    ensures White(x.before) && White(x.colon) && White(x.gap) && White(x.after) && LegalPieces(x.name) && Legal(x.value)
    ensures StringText(x.name) != [] && StringText(x.name)[0] == '\"'
    ensures Text(x.value) != [] && Text(x.value)[0] as int > 32
  {
    hide LegalPieces, Legal;
    TextStart(x.value);
  }

  // The name of a member and the colon behind it.
  lemma {:induction false} NameStands(t: CString, i: nat, x: DMember)
    requires LegalMember(x) && LegalPieces(x.name) && Stands(t, i, MemberText(x))
    ensures i <= |t| && NameAt(i, x) < |t| && Skip(t, i) == NameAt(i, x) && At(t, NameAt(i, x)) == '\"'
    ensures ParseString(t, NameAt(i, x)) == Ok(NoNuls(x.name), NameAt(i, x) + |StringText(x.name)|)
    ensures NameAt(i, x) + |StringText(x.name)| <= |t| && Skip(t, NameAt(i, x) + |StringText(x.name)|) == ColonAt(i, x)
    ensures ColonAt(i, x) < |t| && At(t, ColonAt(i, x)) == ':'
  {
    MemberPlaces(i, x);
    hide *;
    MemberSplits(t, i, x);
    MemberParts(x);
    SkipToText(t, i, x.before, StringText(x.name));
    StringStands(t, NameAt(i, x), x.name);
    SkipTo(t, NameAt(i, x) + |StringText(x.name)|, x.colon);
  }

  lemma {:induction false} MemberPlaces(i: nat, x: DMember)
    ensures NameAt(i, x) == i + |x.before| && ColonAt(i, x) == NameAt(i, x) + |StringText(x.name)| + |x.colon|
    ensures ValueAt(i, x) == ColonAt(i, x) + 1 + |x.gap| && AfterAt(i, x) == ValueAt(i, x) + |Text(x.value)|
  {
  }

  lemma {:induction false} GapStands(t: CString, i: nat, x: DMember)
    requires LegalMember(x) && Stands(t, i, MemberText(x))
    ensures ValueAt(i, x) <= |t| && ColonAt(i, x) + 1 <= |t| && Skip(t, ColonAt(i, x) + 1) == ValueAt(i, x)
  {
    MemberPlaces(i, x);
    hide *;
    MemberSplits(t, i, x);
    MemberParts(x);
    SkipToText(t, ColonAt(i, x) + 1, x.gap, Text(x.value));
  }

  lemma {:induction false} MembersStart(t: CString, i: nat, members: seq<DMember>)
    requires members != [] && LegalMember(members[0]) && Stands(t, i, MembersText(members))
    ensures i <= |t| && Skip(t, i) < |t| && At(t, Skip(t, i)) != '}'
  {
    hide *;
    MembersSplit(t, i, members);
    MemberParts(members[0]);
    NameStands(t, i, members[0]);
  }

  lemma {:induction false} MemberStands(t: CString, i: nat, x: DMember)
    requires i + |MemberText(x)| < |t|
    requires LegalMember(x) && Stands(t, i, MemberText(x)) && AfterValue(At(t, i + |MemberText(x)|))
    ensures ParseMember(t, i) == Ok(Member(NoNuls(x.name), Meaning(x.value)), AfterAt(i, x))
    ensures AfterAt(i, x) <= |t| && Skip(t, AfterAt(i, x)) == i + |MemberText(x)| <= |t|
    decreases x, 0
  {
    hide *;
    MemberPlaces(i, x);
    MemberParts(x);
    MemberSplits(t, i, x);
    MemberEnds(t, i, x);
    NameStands(t, i, x);
    GapStands(t, i, x);
    DocStands(t, ValueAt(i, x), x.value);
    MemberReads(t, i, NoNuls(x.name), NameAt(i, x) + |StringText(x.name)|, ColonAt(i, x), Meaning(x.value), AfterAt(i, x));
  }

  // What stands behind the value of a member.
  lemma {:induction false} MemberEnds(t: CString, i: nat, x: DMember)
    requires LegalMember(x) && Stands(t, i, MemberText(x)) && AfterValue(At(t, i + |MemberText(x)|))
    ensures Legal(x.value) && LegalPieces(x.name)
    ensures Stands(t, ValueAt(i, x), Text(x.value)) && AfterAt(i, x) == ValueAt(i, x) + |Text(x.value)| <= |t|
    ensures Follow(At(t, AfterAt(i, x))) && Skip(t, AfterAt(i, x)) == i + |MemberText(x)| <= |t|
  {
    AtMost(t, i, MemberText(x));
    MemberPlaces(i, x);
    hide *;
    MemberSplits(t, i, x);
    MemberParts(x);
    SkipTo(t, AfterAt(i, x), x.after);
    AfterWhite(t, AfterAt(i, x), x.after);
  }

  // parse_object, on what its steps return.
  lemma {:induction false} MemberReads(t: CString, i: nat, name: CString, n: nat, c: nat, v: Json, a: nat)
    requires i <= |t| && ParseString(t, Skip(t, i)) == Ok(name, n) && n <= |t|
    requires Skip(t, n) == c < |t| && At(t, c) == ':' && ParseValue(t, Skip(t, c + 1)) == Ok(v, a)
    ensures ParseMember(t, i) == Ok(Member(name, v), a)
  {
    hide ParseString, ParseValue, Skip;
  }

  lemma {:induction false} MembersRead(t: CString, i: nat, m: Member, j: nat, k: nat)
    requires i <= |t| && ParseMember(t, i) == Ok(m, j) && j <= |t| && Skip(t, j) == k < |t|
    ensures At(t, k) != ',' ==> ParseMembers(t, i) == Ok([m], k)
    ensures At(t, k) == ',' && ParseMembers(t, k + 1).Ok? ==>
              ParseMembers(t, i) == Ok([m] + ParseMembers(t, k + 1).value, ParseMembers(t, k + 1).next)
  {
    hide ParseMember, Skip;
  }

  lemma {:induction false} MembersMean(members: seq<DMember>)
    requires members != [] && forall x <- members :: LegalMember(x)
    ensures var x := members[0];
            && LegalMember(x) && Legal(x.value) && LegalPieces(x.name) && (forall y <- members[1..] :: LegalMember(y))
            && MembersMeaning(members) == [Member(NoNuls(x.name), Meaning(x.value))] + MembersMeaning(members[1..])
            && (|members| == 1 ==> MembersMeaning(members) == [Member(NoNuls(x.name), Meaning(x.value))])
  {
    assert members[0] in members;
    hide Meaning, LegalMember, NoNuls;
  }

  // Members up to the closing brace.
  lemma {:induction false} MembersStand(t: CString, i: nat, members: seq<DMember>)
    requires members != [] && (forall x <- members :: LegalMember(x)) && Stands(t, i, MembersText(members))
    requires i + |MembersText(members)| < |t| && At(t, i + |MembersText(members)|) == '}'
    ensures ParseMembers(t, i) == Ok(MembersMeaning(members), i + |MembersText(members)|)
    decreases members
  {
    hide *;
    Afters();
    MembersMean(members);
    MembersSplit(t, i, members);
    var x := members[0];
    var k := i + |MemberText(x)|;
    MemberStands(t, i, x);
    MembersRead(t, i, Member(NoNuls(x.name), Meaning(x.value)), AfterAt(i, x), k);
    if |members| > 1 {
      MembersStand(t, k + 1, members[1..]);
    }
  }

  // ----- cJSON_Parse --------------------------------------------------------------------------

  // Whatever white space and notation a text uses, parsing gives its meaning and stops behind it.
  lemma {:induction false} TextParses(t: CString, before: string, d: Doc, after: string)
    requires White(before) && Legal(d) && t == before + (Text(d) + after) && Follow(At(after, 0))
    ensures Parse(t) == Ok(Meaning(d), |before| + |Text(d)|)
  {
    hide *;
    WholeText(t, before, Text(d), after);
    Visible(d);
    SkipToText(t, 0, before, Text(d));
    DocStands(t, |before|, d);
    ParseIs(t);
  }

  lemma {:induction false} WholeText(t: CString, before: string, x: string, after: string)
    requires t == before + (x + after)
    ensures Stands(t, 0, before) && Stands(t, 0 + |before|, x) && Stands(t, |before|, x)
    ensures |before| + |x| <= |t| && At(t, |before| + |x|) == At(after, 0)
  {
    assert t[0..|t|] == t;
    StandsSplit(t, 0, before, x + after);
    StandsSplit(t, |before|, x, after);
  }

  lemma {:induction false} ParseIs(t: CString)
    ensures Parse(t) == ParseValue(t, Skip(t, 0))
  {
    hide ParseValue, Skip;
  }
}
