/**
The shape of what cJSON prints, told from the text alone: what stands outside of string literals, how
the formatted text differs from the unformatted one, and how escapes are spelled.
*/
module JsonShape {
  import opened CStrings
  import opened JsonText

  // ----- reading along ------------------------------------------------------------------------

  // Outside of string literals, inside of one, or behind a backslash there.
  datatype Mode = Outside | Inside | Escaping

  // Where a reader of the text is: `open` are the brackets and braces that are open, `last` is the last
  // character outside of literals, a closing quote included.
  datatype Place = Place(mode: Mode, open: string, last: char)

  const START := Place(Outside, "", ' ')

  function Beyond(p: Place, c: char): Place {
    match p.mode
    case Inside =>
      if c == '\\' then p.(mode := Escaping) else if c == '\"' then p.(mode := Outside, last := c) else p
    case Escaping => p.(mode := Inside)
    case Outside =>
      if c == '\"' then p.(mode := Inside)
      else if c == '[' || c == '{' then p.(open := p.open + [c], last := c)
      else if (c == ']' || c == '}') && p.open != [] then p.(open := p.open[..|p.open| - 1], last := c)
      else p.(last := c)
  }

  function Read(p: Place, text: string): Place
    decreases text
  {
    if text == [] then p else Read(Beyond(p, text[0]), text[1..])
  }

  lemma {:induction false} ReadOn(p: Place, a: string, b: string)
    ensures Read(p, a + b) == Read(Read(p, a), b)
    decreases a
  {
    if a == [] {
      assert a + b == b;
    } else {
      assert (a + b)[1..] == a[1..] + b;
      ReadOn(Beyond(p, a[0]), a[1..], b);
    }
  }

  // ----- the formatted layout -----------------------------------------------------------------

  function LineBreak(tabs: nat): string {
    "\n" + seq(tabs, _ => '\t')
  }

  // What the formatted text has in front of a value or name: a line of its own in an object, a blank
  // behind the comma of an array, a tab behind a colon.  Lines are indented by what is open.
  function Lead(p: Place): string {
    if p.open == [] then ""
    else if p.last == '{' then LineBreak(|p.open|)
    else if p.last == ',' then if p.open[|p.open| - 1] == '{' then LineBreak(|p.open|) else " "
    else if p.last == ':' then "\t"
    else ""
  }

  // ... and in front of any character: a closing brace starts a line, one tab less deep.
  function Gap(p: Place, c: char): string {
    if p.mode != Outside then ""
    else if c == '}' && p.open != [] then LineBreak(|p.open| - 1)
    else Lead(p)
  }

  // The text with all gaps put in.
  function Layout(p: Place, text: string): string
    decreases text
  {
    if text == [] then [] else Gap(p, text[0]) + ([text[0]] + Layout(Beyond(p, text[0]), text[1..]))
  }

  lemma {:induction false} LayoutOn(p: Place, a: string, b: string)
    ensures Layout(p, a + b) == Layout(p, a) + Layout(Read(p, a), b)
    decreases a
  {
    if a == [] {
      assert a + b == b;
    } else {
      assert (a + b)[1..] == a[1..] + b;
      LayoutOn(Beyond(p, a[0]), a[1..], b);
    }
  }

  lemma {:induction false} LayoutOne(p: Place, c: char)
    ensures Layout(p, [c]) == Gap(p, c) + [c] && Read(p, [c]) == Beyond(p, c)
  {
    assert [c][1..] == [];
    assert Layout(Beyond(p, c), []) == [] && [c] + [] == [c];
    assert Read(Beyond(p, c), []) == Beyond(p, c);
  }

  // ----- clean texts --------------------------------------------------------------------------

  predicate IsBlank(c: char) {
    c == ' ' || c == '\t' || c == '\n' || c == '\r'
  }

  predicate LowerHex(c: char) {
    '0' <= c <= '9' || 'a' <= c <= 'f'
  }

  // The escape that starts here has four digits, in lower case.
  predicate Spelled(text: string) {
    text != [] && (text[0] == 'u' ==> |text| >= 5 && forall k :: 1 <= k <= 4 ==> LowerHex(text[k]))
  }

  // No white space outside of literals, and every escape with digits is spelled in lower case.
  ghost predicate Clean(p: Place, text: string)
    decreases text
  {
    text != [] ==>
      && (p.mode == Outside ==> !IsBlank(text[0])) && (p.mode == Escaping ==> Spelled(text))
      && Clean(Beyond(p, text[0]), text[1..])
  }

  lemma {:induction false} CleanOn(p: Place, a: string, b: string)
    requires Clean(p, a) && Clean(Read(p, a), b)
    ensures Clean(p, a + b)
    decreases a
  {
    if a == [] {
      assert a + b == b;
    } else {
      assert (a + b)[1..] == a[1..] + b;
      CleanOn(Beyond(p, a[0]), a[1..], b);
    }
  }

  lemma {:induction false} CleanAt(p: Place, text: string, i: nat)
    requires Clean(p, text) && i < |text|
    ensures Read(p, text[..i]).mode == Outside ==> !IsBlank(text[i])
    ensures Read(p, text[..i]).mode == Escaping ==> Spelled(text[i..])
    decreases i
  {
    if i == 0 {
      assert text[..0] == [] && text[0..] == text;
    } else {
      CleanAt(Beyond(p, text[0]), text[1..], i - 1);
      assert text[..i][1..] == text[1..][..i - 1] && text[1..][i - 1..] == text[i..];
    }
  }

  // ----- what the parts come to ---------------------------------------------------------------

  // A value or name that starts at `p` is `text` in the unformatted and `formed` in the formatted
  // output.
  ghost predicate Shapes(p: Place, text: string, formed: string) {
    && p.mode == Outside && Layout(p, text) == Lead(p) + formed && Clean(p, text)
    && var q := Read(p, text);
       q.mode == Outside && q.open == p.open && q.last != '{' && q.last != ',' && q.last != ':'
  }

  predicate Tame(c: char) {
    !IsBlank(c) && c != '[' && c != ']' && c != '{' && c != '}' && c != ',' && c != ':' && c != '\"' && c != '\\'
  }

  lemma {:induction false} TameShapes(p: Place, text: string)
    requires p.mode == Outside && text != [] && forall c <- text :: Tame(c)
    ensures Shapes(p, text, text)
    decreases text
  {
    var c := text[0];
    assert c in text;
    var q := Beyond(p, c);
    assert q == p.(last := c) && Lead(q) == "" && Gap(p, c) == Lead(p);
    if |text| == 1 {
      assert text == [c];
      LayoutOne(p, c);
      assert Clean(q, text[1..]);
    } else {
      TameShapes(q, text[1..]);
    }
  }

  lemma {:induction false} NatTame(n: nat)
    ensures forall c <- NatText(n) :: Tame(c)
  {
    if n >= 10 {
      NatTame(n / 10);
    }
  }

  lemma {:induction false} IntShapes(p: Place, n: int)
    requires p.mode == Outside
    ensures Shapes(p, IntText(n), IntText(n))
  {
    NatTame(if n < 0 then -n else n);
    TameShapes(p, IntText(n));
  }

  // ----- literals -----------------------------------------------------------------------------

  // Nothing is put into a literal.
  ghost predicate Stays(p: Place, text: string) {
    p.mode == Inside && Layout(p, text) == text && Read(p, text) == p && Clean(p, text)
  }

  lemma {:induction false} StaysOn(p: Place, a: string, b: string)
    requires Stays(p, a) && Stays(p, b)
    ensures Stays(p, a + b)
  {
    LayoutOn(p, a, b);
    ReadOn(p, a, b);
    CleanOn(p, a, b);
  }

  lemma {:induction false} RawStays(p: Place, c: char)
    requires p.mode == Inside && c != '\"' && c != '\\'
    ensures Stays(p, [c])
  {
    LayoutOne(p, c);
    assert Clean(p, [c][1..]);
  }

  lemma {:induction false} PairStays(p: Place, c: char)
    requires p.mode == Inside && c != 'u'
    ensures Stays(p, ['\\', c])
  {
    var q := p.(mode := Escaping);
    assert ['\\', c] == ['\\'] + [c];
    LayoutOne(p, '\\');
    LayoutOne(q, c);
    LayoutOn(p, ['\\'], [c]);
    ReadOn(p, ['\\'], [c]);
    assert Clean(p, [c][1..]) && ['\\', c][1..] == [c] && Clean(q, [c]);
  }

  // Behind the backslash.
  lemma {:induction false} HexTail(p: Place, h: char, l: char)
    requires p.mode == Inside && LowerHex(h) && LowerHex(l)
    ensures var q, text := p.(mode := Escaping), ['u'] + ("00" + [h, l]);
            Layout(q, text) == text && Read(q, text) == p && Clean(q, text)
  {
    var q := p.(mode := Escaping);
    var text := ['u'] + ("00" + [h, l]);
    DigitsStay(p, h, l);
    LayoutOne(q, 'u');
    LayoutOn(q, ['u'], "00" + [h, l]);
    ReadOn(q, ['u'], "00" + [h, l]);
    assert text[1..] == "00" + [h, l] && Spelled(text);
    hide Layout, Read, Spelled;
  }

  lemma {:induction false} HexStays(p: Place, h: char, l: char)
    requires p.mode == Inside && LowerHex(h) && LowerHex(l)
    ensures Stays(p, "\\u00" + [h, l])
  {
    var q := p.(mode := Escaping);
    var text := ['u'] + ("00" + [h, l]);
    assert "\\u00" + [h, l] == ['\\'] + text;
    Backslash(p);
    HexTail(p, h, l);
    hide Layout, Read, Clean;
    Both(p, ['\\'], text);
  }

  lemma {:induction false} Backslash(p: Place)
    requires p.mode == Inside
    ensures Layout(p, ['\\']) == ['\\'] && Read(p, ['\\']) == p.(mode := Escaping) && Clean(p, ['\\'])
  {
    LayoutOne(p, '\\');
    assert Clean(p.(mode := Escaping), ['\\'][1..]);
  }

  lemma {:induction false} DigitsStay(p: Place, h: char, l: char)
    requires p.mode == Inside && LowerHex(h) && LowerHex(l)
    ensures Stays(p, "00" + [h, l])
  {
    hide Stays;
    RawStays(p, '0');
    RawStays(p, h);
    RawStays(p, l);
    StaysOn(p, [h], [l]);
    StaysOn(p, ['0'], [h] + [l]);
    StaysOn(p, ['0'], ['0'] + ([h] + [l]));
    assert "00" + [h, l] == ['0'] + (['0'] + ([h] + [l]));
  }

  lemma {:induction false} EscapedIs(c: char)
    requires IsByte(c) && c != NUL && !Plain(c)
    ensures var e := Escaped(c);
            if |e| == 2 then e == ['\\', e[1]] && e[1] != 'u'
            else e == "\\u00" + [HexDigit(c as int / 16), HexDigit(c as int % 16)]
    ensures LowerHex(HexDigit(c as int / 16)) && LowerHex(HexDigit(c as int % 16))
  {
  }

  lemma {:induction false} ByteStays(p: Place, c: char)
    requires p.mode == Inside && IsByte(c) && c != NUL
    ensures Stays(p, Escaped(c))
  {
    if Plain(c) {
      hide Stays;
      RawStays(p, c);
    } else {
      EscapedIs(c);
      hide Escaped, Stays, HexDigit;
      if |Escaped(c)| == 2 {
        PairStays(p, Escaped(c)[1]);
      } else {
        HexStays(p, HexDigit(c as int / 16), HexDigit(c as int % 16));
      }
    }
  }

  lemma {:induction false} EscapeStays(p: Place, s: CString)
    requires p.mode == Inside
    ensures Stays(p, Escape(s))
  {
    hide Escaped;
    if s != [] {
      assert s[0] in s;
      ByteStays(p, s[0]);
      EscapeStays(p, s[1..]);
      StaysOn(p, Escaped(s[0]), Escape(s[1..]));
    }
  }

  lemma {:induction false} QuoteMark(p: Place)
    requires p.mode != Escaping
    ensures Layout(p, ['\"']) == Gap(p, '\"') + ['\"'] && Read(p, ['\"']) == Beyond(p, '\"') && Clean(p, ['\"'])
  {
    LayoutOne(p, '\"');
    assert Clean(Beyond(p, '\"'), ['\"'][1..]);
  }

  lemma {:induction false} QuoteShapes(p: Place, s: CString)
    requires p.mode == Outside
    ensures Shapes(p, Quote(s), Quote(s))
  {
    var q := p.(mode := Inside);
    EscapeStays(q, s);
    QuoteMark(p);
    QuoteMark(q);
    hide Escape, Layout, Read, Clean, Lead;
    assert Quote(s) == ['\"'] + (Escape(s) + ['\"']) && "" + ['\"'] == ['\"'];
    Both(q, Escape(s), ['\"']);
    Both(p, ['\"'], Escape(s) + ['\"']);
    Assoc(Lead(p), ['\"'], Escape(s) + ['\"']);
  }

  // ----- values -------------------------------------------------------------------------------

  lemma {:induction false} TabsAre(n: nat)
    ensures Tabs(n) == seq(n, _ => '\t')
  {
    if n > 0 {
      TabsAre(n - 1);
      assert seq(n, _ => '\t') == ['\t'] + seq(n - 1, _ => '\t');
    }
  }

  // One character of punctuation with nothing put in front of it.
  lemma {:induction false} Mark(p: Place, c: char, q: Place)
    requires p.mode == Outside && !IsBlank(c) && c != '\"' && Gap(p, c) == "" && q == Beyond(p, c)
    ensures Layout(p, [c]) == [c] && Read(p, [c]) == q && Clean(p, [c])
  {
    LayoutOne(p, c);
    assert Clean(q, [c][1..]);
  }

  // `a` and then `b`
  lemma {:induction false} Both(p: Place, a: string, b: string)
    requires Clean(p, a) && Clean(Read(p, a), b)
    ensures Layout(p, a + b) == Layout(p, a) + Layout(Read(p, a), b) && Read(p, a + b) == Read(Read(p, a), b)
    ensures Clean(p, a + b)
  {
    LayoutOn(p, a, b);
    ReadOn(p, a, b);
    CleanOn(p, a, b);
  }

  lemma {:induction false} Assoc(a: string, b: string, c: string)
    ensures (a + b) + c == a + (b + c)
  {
  }

  // A comma or a colon between two parts.
  lemma {:induction false} Joined(p: Place, a: string, fa: string, c: char, b: string, fb: string)
    requires Shapes(p, a, fa) && (c == ',' || c == ':')
    requires Shapes(Read(p, a).(last := c), b, fb)
    ensures Shapes(p, a + ([c] + b), fa + ([c] + (Lead(Read(p, a).(last := c)) + fb)))
  {
    hide Read, Layout, Clean, Lead, Gap, Beyond, IsBlank;
    var q := Read(p, a);
    var r := q.(last := c);
    Between(q, c);
    Both(q, [c], b);
    Both(p, a, [c] + b);
    Assoc(Lead(p), fa, [c] + (Lead(r) + fb));
  }

  lemma {:induction false} Between(q: Place, c: char)
    requires q.mode == Outside && q.last != '{' && q.last != ',' && q.last != ':' && (c == ',' || c == ':')
    ensures Layout(q, [c]) == [c] && Read(q, [c]) == q.(last := c) && Clean(q, [c])
  {
    Mark(q, c, q.(last := c));
  }

  // Brackets or braces around what stands inside.
  lemma {:induction false} Enclosed(p: Place, o: char, inside: string, e: char)
    requires p.mode == Outside && ((o == '[' && e == ']') || (o == '{' && e == '}'))
    requires var p1 := p.(open := p.open + [o], last := o);
             Clean(p1, inside) && Read(p1, inside).mode == Outside && Read(p1, inside).open == p1.open
    ensures var p1 := p.(open := p.open + [o], last := o);
            var text := [o] + (inside + [e]);
            && Layout(p, text) == Lead(p) + ([o] + (Layout(p1, inside) + (Gap(Read(p1, inside), e) + [e])))
            && Clean(p, text) && Read(p, text) == p.(last := e)
  {
    var p1 := p.(open := p.open + [o], last := o);
    var q := Read(p1, inside);
    LayoutOne(p, o);
    LayoutOne(q, e);
    assert q.open[..|q.open| - 1] == p.open;
    assert Clean(q.(open := p.open, last := e), [e][1..]) && Clean(p1, [o][1..]);
    Both(p1, inside, [e]);
    Both(p, [o], inside + [e]);
    assert (Lead(p) + [o]) + (Layout(p1, inside) + (Gap(q, e) + [e]))
           == Lead(p) + ([o] + (Layout(p1, inside) + (Gap(q, e) + [e])));
  }

  lemma {:induction false} AtomShapes(p: Place, j: Json)
    requires p.mode == Outside && !j.Arr? && !j.Obj?
    ensures Shapes(p, PrintValue(j, |p.open|, false), PrintValue(j, |p.open|, true))
  {
    hide Shapes;
    match j
    case Null => TameShapes(p, "null");
    case False => TameShapes(p, "false");
    case True => TameShapes(p, "true");
    case Number(m, e) => IntShapes(p, IntOf(m, e));
    case Str(s) => QuoteShapes(p, s);
  }

  // Each value is printed in the unformatted text as it is in the formatted one, less the gaps.
  lemma {:induction false} ValueShapes(p: Place, j: Json)
    requires p.mode == Outside
    ensures Shapes(p, PrintValue(j, |p.open|, false), PrintValue(j, |p.open|, true))
    decreases j
  {
    match j
    case Arr(items) =>
      ItemsShape(p.(open := p.open + ['['], last := '['), items);
      ArrayShapes(p, items);
    case Obj(members) =>
      MembersShape(p.(open := p.open + ['{'], last := '{'), members);
      ObjectShapes(p, members);
    case _ => AtomShapes(p, j);
  }

  lemma {:induction false} ArrayShapes(p: Place, items: seq<Json>)
    requires p.mode == Outside
    requires var p1 := p.(open := p.open + ['['], last := '[');
             items != [] ==> Shapes(p1, Join(PrintItems(items, |p1.open|, false), ","),
                                        Join(PrintItems(items, |p1.open|, true), ", "))
    ensures Shapes(p, PrintValue(Arr(items), |p.open|, false), PrintValue(Arr(items), |p.open|, true))
  {
    var p1 := p.(open := p.open + ['['], last := '[');
    var text, formed := Join(PrintItems(items, |p1.open|, false), ","), Join(PrintItems(items, |p1.open|, true), ", ");
    ArrayIs(items, |p.open|);
    if items == [] {
      NothingInside(p1);
    } else {
      InsideBrackets(p1, text, formed);
    }
    BracketsShape(p, text, formed);
  }

  lemma {:induction false} ArrayIs(items: seq<Json>, depth: nat)
    ensures PrintValue(Arr(items), depth, false) == ['['] + (Join(PrintItems(items, depth + 1, false), ",") + [']'])
    ensures PrintValue(Arr(items), depth, true) == ['['] + (Join(PrintItems(items, depth + 1, true), ", ") + [']'])
    ensures items == [] ==> Join(PrintItems(items, depth + 1, false), ",") == [] == Join(PrintItems(items, depth + 1, true), ", ")
  {
  }

  // What stands between brackets, and leaves no gap in front of the closing one.
  ghost predicate Filling(p: Place, text: string, formed: string) {
    && Clean(p, text) && Layout(p, text) == formed
    && var q := Read(p, text); q.mode == Outside && q.open == p.open && Gap(q, ']') == ""
  }

  lemma {:induction false} NothingInside(p: Place)
    requires p.mode == Outside && p.last == '['
    ensures Filling(p, [], [])
  {
  }

  lemma {:induction false} InsideBrackets(p: Place, text: string, formed: string)
    requires p.mode == Outside && p.last == '[' && Shapes(p, text, formed)
    ensures Filling(p, text, formed)
  {
    hide Read, Layout, Clean;
    assert Lead(p) == "" && "" + formed == formed;
  }

  lemma {:induction false} BracketsShape(p: Place, text: string, formed: string)
    requires p.mode == Outside && Filling(p.(open := p.open + ['['], last := '['), text, formed)
    ensures Shapes(p, ['['] + (text + [']']), ['['] + (formed + [']']))
  {
    hide Read, Layout, Clean, Lead, Gap;
    Enclosed(p, '[', text, ']');
    assert "" + [']'] == [']'];
  }

  lemma {:induction false} ItemsShape(p: Place, items: seq<Json>)
    requires p.mode == Outside && p.open != [] && p.open[|p.open| - 1] == '[' && (p.last == '[' || p.last == ',')
    ensures items != [] ==> Shapes(p, Join(PrintItems(items, |p.open|, false), ","),
                                      Join(PrintItems(items, |p.open|, true), ", "))
    decreases items
  {
    hide Shapes, Read, Lead, PrintValue, PrintItems, Join;
    if items != [] {
      ValueShapes(p, items[0]);
      var text, formed := PrintValue(items[0], |p.open|, false), PrintValue(items[0], |p.open|, true);
      if |items| == 1 {
        JoinOne(items, |p.open|, ",", false);
        JoinOne(items, |p.open|, ", ", true);
      } else {
        CommaLead(p, text, formed);
        ItemsShape(Read(p, text).(last := ','), items[1..]);
        JoinRest(items, |p.open|, ",", false);
        JoinRest(items, |p.open|, ", ", true);
        var more, formedMore := Join(PrintItems(items[1..], |p.open|, false), ","), Join(PrintItems(items[1..], |p.open|, true), ", ");
        Joined(p, text, formed, ',', more, formedMore);
        assert [','] + (" " + formedMore) == ", " + formedMore;
      }
    }
  }

  lemma {:induction false} CommaLead(p: Place, text: string, formed: string)
    requires Shapes(p, text, formed) && p.open != [] && p.open[|p.open| - 1] == '['
    ensures var r := Read(p, text).(last := ','); Lead(r) == " " && r.mode == Outside && r.open == p.open
  {
    hide Read, Layout, Clean;
  }

  lemma {:induction false} JoinOne(items: seq<Json>, depth: nat, sep: CString, fmt: bool)
    requires |items| == 1
    ensures Join(PrintItems(items, depth, fmt), sep) == PrintValue(items[0], depth, fmt)
  {
    hide PrintValue;
  }

  lemma {:induction false} JoinRest(items: seq<Json>, depth: nat, sep: CString, fmt: bool)
    requires |items| > 1
    ensures Join(PrintItems(items, depth, fmt), sep)
            == PrintValue(items[0], depth, fmt) + (sep + Join(PrintItems(items[1..], depth, fmt), sep))
  {
    var parts := PrintItems(items, depth, fmt);
    assert parts[0] == PrintValue(items[0], depth, fmt) && parts[1..] == PrintItems(items[1..], depth, fmt);
    hide PrintItems, PrintValue;
  }

  lemma {:induction false} ObjectShapes(p: Place, members: seq<Member>)
    requires p.mode == Outside
    requires var p1 := p.(open := p.open + ['{'], last := '{');
             Lines(p1, PrintMembers(members, |p1.open|, false), PrintMembers(members, |p1.open|, true))
    ensures Shapes(p, PrintValue(Obj(members), |p.open|, false), PrintValue(Obj(members), |p.open|, true))
  {
    ObjectIs(members, |p.open|);
    TabsAre(|p.open|);
    hide PrintMembers, PrintValue, Lines, Shapes, Tabs;
    BracesShape(p, PrintMembers(members, |p.open| + 1, false), PrintMembers(members, |p.open| + 1, true));
  }

  lemma {:induction false} ObjectIs(members: seq<Member>, depth: nat)
    ensures PrintValue(Obj(members), depth, false) == ['{'] + (PrintMembers(members, depth + 1, false) + ['}'])
    ensures PrintValue(Obj(members), depth, true)
            == ['{'] + (("\n" + (PrintMembers(members, depth + 1, true) + Tabs(depth))) + ['}'])
  {
    var text := PrintMembers(members, depth + 1, false);
    assert ObjectInside(text, depth, false) == text;
    hide PrintMembers, Tabs;
  }

  lemma {:induction false} BracesShape(p: Place, text: string, formed: string)
    requires p.mode == Outside && Lines(p.(open := p.open + ['{'], last := '{'), text, formed)
    ensures Shapes(p, ['{'] + (text + ['}']), ['{'] + (("\n" + (formed + seq(|p.open|, _ => '\t'))) + ['}']))
  {
    var p1 := p.(open := p.open + ['{'], last := '{');
    Enclosed(p, '{', text, '}');
    BraceGap(Read(p1, text), |p.open|);
    hide Read, Layout, Clean, Lead, Gap;
    BreakOver(Layout(p1, text), formed, seq(|p.open|, _ => '\t'), ['}']);
  }

  lemma {:induction false} BraceGap(q: Place, depth: nat)
    requires q.mode == Outside && |q.open| == depth + 1
    ensures Gap(q, '}') == "\n" + seq(depth, _ => '\t')
  {
  }

  // The break in front of the closing brace is the one that ends the last member.
  lemma {:induction false} BreakOver(laid: string, formed: string, tabs: string, e: string)
    requires laid + "\n" == "\n" + formed
    ensures laid + (("\n" + tabs) + e) == ("\n" + (formed + tabs)) + e
  {
    assert laid + (("\n" + tabs) + e) == (laid + "\n") + (tabs + e);
    assert ("\n" + formed) + (tabs + e) == ("\n" + (formed + tabs)) + e;
  }

  // The members of an object, each on its line.
  ghost predicate Lines(p: Place, text: string, formed: string) {
    && Layout(p, text) + "\n" == "\n" + formed && Clean(p, text)
    && Read(p, text).mode == Outside && Read(p, text).open == p.open
  }

  // One member, and the break in front of it.
  ghost predicate Line(p: Place, text: string, formed: string) {
    && Clean(p, text) && Layout(p, text) == "\n" + formed
    && var q := Read(p, text);
       q.mode == Outside && q.open == p.open && q.last != '{' && q.last != ',' && q.last != ':'
  }

  lemma {:induction false} MemberShapes(p: Place, m: Member)
    requires p.mode == Outside && p.open != [] && p.open[|p.open| - 1] == '{' && (p.last == '{' || p.last == ',')
    requires var r := Read(p, Quote(m.name)).(last := ':');
             Shapes(r, PrintValue(m.value, |p.open|, false), PrintValue(m.value, |p.open|, true))
    ensures Line(p, PrintMember(m, |p.open|, false), PrintMember(m, |p.open|, true))
  {
    var name, value, formed := Quote(m.name), PrintValue(m.value, |p.open|, false), PrintValue(m.value, |p.open|, true);
    QuoteShapes(p, m.name);
    MemberIs(m, |p.open|);
    TabsAre(|p.open|);
    ColonLead(Read(p, name));
    hide PrintValue, PrintMember, Quote, Shapes, Line, Lead, Read, Tabs;
    Joined(p, name, name, ':', value, formed);
    OwnLine(p, name + ([':'] + value), name + ([':'] + ("\t" + formed)));
  }

  lemma {:induction false} MemberIs(m: Member, depth: nat)
    ensures PrintMember(m, depth, false) == Quote(m.name) + ([':'] + PrintValue(m.value, depth, false))
    ensures PrintMember(m, depth, true)
            == Tabs(depth) + (Quote(m.name) + ([':'] + ("\t" + PrintValue(m.value, depth, true))))
  {
    hide PrintValue, Quote, Tabs;
    var value := PrintValue(m.value, depth, true);
    assert [':'] + ("\t" + value) == ":\t" + value;
  }

  lemma {:induction false} ColonLead(q: Place)
    requires q.open != []
    ensures Lead(q.(last := ':')) == "\t"
  {
  }

  lemma {:induction false} OwnLine(p: Place, text: string, formed: string)
    requires p.open != [] && p.open[|p.open| - 1] == '{' && (p.last == '{' || p.last == ',') && Shapes(p, text, formed)
    ensures Line(p, text, seq(|p.open|, _ => '\t') + formed)
  {
    hide Read, Layout, Clean;
    assert Lead(p) == "\n" + seq(|p.open|, _ => '\t');
    Assoc("\n", seq(|p.open|, _ => '\t'), formed);
  }

  lemma {:induction false} MembersShape(p: Place, members: seq<Member>)
    requires p.mode == Outside && p.open != [] && p.open[|p.open| - 1] == '{' && (p.last == '{' || p.last == ',')
    ensures Lines(p, PrintMembers(members, |p.open|, false), PrintMembers(members, |p.open|, true))
    decreases members
  {
    if members == [] {
      assert PrintMembers(members, |p.open|, false) == [] && PrintMembers(members, |p.open|, true) == [];
      assert Layout(p, []) + "\n" == "\n" + [];
    } else {
      var m := members[0];
      QuoteShapes(p, m.name);
      ValueShapes(Read(p, Quote(m.name)).(last := ':'), m.value);
      MemberShapes(p, m);
      var text := PrintMember(m, |p.open|, false);
      MembersShape(Read(p, text).(last := ','), members[1..]);
      MembersJoin(p, members);
    }
  }

  lemma {:induction false} MembersJoin(p: Place, members: seq<Member>)
    requires members != [] && p.mode == Outside
    requires Line(p, PrintMember(members[0], |p.open|, false), PrintMember(members[0], |p.open|, true))
    requires Lines(Read(p, PrintMember(members[0], |p.open|, false)).(last := ','),
                   PrintMembers(members[1..], |p.open|, false), PrintMembers(members[1..], |p.open|, true))
    ensures Lines(p, PrintMembers(members, |p.open|, false), PrintMembers(members, |p.open|, true))
  {
    MembersAre(members, |p.open|);
    var text, formed := PrintMember(members[0], |p.open|, false), PrintMember(members[0], |p.open|, true);
    hide PrintMembers, PrintMember, Lines, Line, Read;
    if |members| > 1 {
      MoreLines(p, text, formed, PrintMembers(members[1..], |p.open|, false), PrintMembers(members[1..], |p.open|, true));
    } else {
      LastLine(p, text, formed);
    }
  }

  lemma {:induction false} MembersAre(members: seq<Member>, depth: nat)
    requires members != []
    ensures PrintMembers(members, depth, false)
            == PrintMember(members[0], depth, false)
               + if |members| > 1 then [','] + PrintMembers(members[1..], depth, false) else []
    ensures PrintMembers(members, depth, true)
            == PrintMember(members[0], depth, true)
               + if |members| > 1 then [','] + ("\n" + PrintMembers(members[1..], depth, true)) else "\n"
  {
    hide PrintMember;
    var more, formed := PrintMembers(members[1..], depth, false), PrintMembers(members[1..], depth, true);
    if |members| == 1 {
      assert more == [] && formed == [] && "\n" + formed == "\n" && "" + ("" + more) == [];
      assert "" + ("\n" + formed) == "\n";
    } else {
      assert "" + more == more;
    }
  }

  lemma {:induction false} MoreLines(p: Place, text: string, formed: string, more: string, formedMore: string)
    requires Line(p, text, formed) && Lines(Read(p, text).(last := ','), more, formedMore)
    ensures Lines(p, text + ([','] + more), formed + ([','] + ("\n" + formedMore)))
  {
    hide Read, Layout, Clean;
    var q := Read(p, text);
    Between(q, ',');
    Both(q, [','], more);
    Both(p, text, [','] + more);
    var tail := Layout(q.(last := ','), more);
    assert (("\n" + formed) + ([','] + tail)) + "\n" == "\n" + (formed + ([','] + (tail + "\n")));
  }

  lemma {:induction false} LastLine(p: Place, text: string, formed: string)
    requires Line(p, text, formed)
    ensures Lines(p, text + [], formed + "\n")
  {
    hide Read, Layout, Clean;
    assert text + [] == text;
    Assoc("\n", formed, "\n");
  }

  // ----- whole texts --------------------------------------------------------------------------

  // Outside of literals the unformatted text has no white space, and the formatted text is the same
  // text with just these gaps: one blank behind each comma of an array, one tab behind each colon,
  // and in an object a new line for each member and for the closing brace, indented by as many tabs
  // as there are brackets and braces open.
  lemma {:induction false} FormattedIsLayout(j: Json)
    ensures Print(j, true) == Layout(START, Print(j, false))
  {
    ValueShapes(START, j);
    hide PrintValue;
    assert Lead(START) + Print(j, true) == Print(j, true);
  }

  lemma {:induction false} UnformattedIsBare(j: Json, i: nat)
    requires i < |Print(j, false)| && Read(START, Print(j, false)[..i]).mode == Outside
    ensures !IsBlank(Print(j, false)[i])
  {
    ValueShapes(START, j);
    hide PrintValue;
    CleanAt(START, Print(j, false), i);
  }

  // ----- escapes ------------------------------------------------------------------------------

  // Every escape with digits is spelled in lower case.
  ghost predicate Spells(p: Place, text: string)
    decreases text
  {
    text != [] ==> (p.mode == Escaping ==> Spelled(text)) && Spells(Beyond(p, text[0]), text[1..])
  }

  lemma {:induction false} SpellsAt(p: Place, text: string, i: nat)
    requires Spells(p, text) && i < |text|
    ensures Read(p, text[..i]).mode == Escaping ==> Spelled(text[i..])
    decreases i
  {
    if i == 0 {
      assert text[..0] == [] && text[0..] == text;
    } else {
      SpellsAt(Beyond(p, text[0]), text[1..], i - 1);
      assert text[..i][1..] == text[1..][..i - 1] && text[1..][i - 1..] == text[i..];
    }
  }

  // White space outside of literals does not matter for that.
  lemma {:induction false} BlanksSpell(p: Place, gap: string, text: string)
    requires p.mode == Outside && forall c <- gap :: IsBlank(c)
    requires forall q: Place :: q.mode == p.mode && q.open == p.open ==> Spells(q, text)
    ensures Spells(p, gap + text)
    decreases gap
  {
    if gap == [] {
      assert gap + text == text;
    } else {
      assert gap[0] in gap && (gap + text)[1..] == gap[1..] + text;
      BlanksSpell(Beyond(p, gap[0]), gap[1..], text);
    }
  }

  lemma {:induction false} GapIsBlank(p: Place, c: char)
    ensures (forall x <- Gap(p, c) :: IsBlank(x)) && (Gap(p, c) != "" ==> p.mode == Outside)
  {
  }

  lemma {:induction false} DigitsLaid(p: Place, text: string, n: nat)
    requires p.mode == Inside && n <= |text| && forall k :: 0 <= k < n ==> LowerHex(text[k])
    ensures var laid := Layout(p, text); n <= |laid| && forall k :: 0 <= k < n ==> laid[k] == text[k]
    decreases n
  {
    if n > 0 {
      assert Beyond(p, text[0]) == p && Gap(p, text[0]) == "";
      DigitsLaid(p, text[1..], n - 1);
      var laid := Layout(p, text);
      assert laid == [text[0]] + Layout(p, text[1..]);
      assert forall k :: 1 <= k < n ==> laid[k] == Layout(p, text[1..])[k - 1];
    }
  }

  lemma {:induction false} EscapeLaid(p: Place, text: string)
    requires p.mode == Escaping && Spelled(text)
    ensures Spelled(Layout(p, text))
  {
    var q := Beyond(p, text[0]);
    var laid := Layout(p, text);
    assert laid == [text[0]] + Layout(q, text[1..]);
    if text[0] == 'u' {
      DigitsLaid(q, text[1..], 4);
      assert forall k :: 1 <= k <= 4 ==> laid[k] == Layout(q, text[1..])[k - 1];
    }
  }

  lemma {:induction false} LaidSpells(p: Place, q: Place, text: string)
    requires q.mode == p.mode && q.open == p.open && Clean(p, text)
    ensures Spells(q, Layout(p, text))
    decreases text
  {
    if text != [] {
      var c := text[0];
      var tail := [c] + Layout(Beyond(p, c), text[1..]);
      if p.mode == Escaping {
        EscapeLaid(p, text);
        assert tail == Layout(p, text);
      }
      forall x: Place | x.mode == q.mode && x.open == q.open ensures Spells(x, tail) {
        LaidSpells(Beyond(p, c), Beyond(x, c), text[1..]);
        assert tail[1..] == Layout(Beyond(p, c), text[1..]);
      }
      GapIsBlank(p, c);
      if Gap(p, c) == "" {
        assert Layout(p, text) == tail;
      } else {
        BlanksSpell(q, Gap(p, c), tail);
      }
    }
  }

  lemma {:induction false} EscapesInLowerCase(j: Json, fmt: bool, i: nat)
    requires i < |Print(j, fmt)| && Read(START, Print(j, fmt)[..i]).mode == Escaping
    ensures Spelled(Print(j, fmt)[i..])
  {
    ValueShapes(START, j);
    hide PrintValue;
    if fmt {
      FormattedIsLayout(j);
      LaidSpells(START, START, Print(j, false));
      SpellsAt(START, Print(j, true), i);
    } else {
      CleanAt(START, Print(j, false), i);
    }
  }
}
