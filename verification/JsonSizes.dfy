/**
The sizes cJSON computes before it prints, against the bytes it then writes.
*/
module JsonSizes {
  import opened CInts
  import opened CStrings
  import opened JsonText

  // ----- numbers ------------------------------------------------------------------------------

  const NUMBER_BUFFER := 21

  lemma {:induction false} NatTextLength(n: nat, k: nat, power: nat)
    requires n < power && k > 0 && power == Power(k)
    ensures |NatText(n)| <= k
    decreases k
  {
    if n >= 10 {
      assert k > 1;
      NatTextLength(n / 10, k - 1, Power(k - 1));
    }
  }

  lemma {:induction false} TenDigits()
    ensures Power(10) == 10000000000
  {
    assert Power(2) == 100 && Power(4) == 10000;
    assert Power(6) == 1000000;
    assert Power(8) == 100000000;
  }

  // "%d" of a 32-bit integer and its terminator fit the buffer.
  lemma {:induction false} NumberFits(m: int)
    requires INT_MIN <= m <= INT_MAX
    ensures |IntText(m)| + 1 <= 12 < NUMBER_BUFFER
  {
    TenDigits();
    hide Power;
    NatTextLength(if m < 0 then -m else m, 10, Power(10));
  }

  // ----- arrays -------------------------------------------------------------------------------

  function Flag(fmt: bool): nat {
    if fmt then 1 else 0
  }

  // What the entries add to `len` in print_array.
  ghost function EntriesSize(parts: seq<CString>, fmt: bool): nat {
    if parts == [] then 0 else |parts[0]| + 2 + Flag(fmt) + EntriesSize(parts[1..], fmt)
  }

  lemma {:induction false} JoinSize(parts: seq<CString>, fmt: bool)
    ensures parts != [] ==> |Join(parts, Separator(fmt))| + |parts| + 1 + Flag(fmt) == EntriesSize(parts, fmt)
    ensures parts == [] ==> |Join(parts, Separator(fmt))| == 0 == EntriesSize(parts, fmt)
  {
    if parts != [] {
      JoinSize(parts[1..], fmt);
    }
  }

  // How much of the buffer of print_array stays unused.
  lemma {:induction false} ArrayFits(parts: seq<CString>, fmt: bool)
    ensures 5 + EntriesSize(parts, fmt)
            == |ArrayText(parts, fmt)| + 1 + if parts == [] then 2 else 3 + |parts| + Flag(fmt)
  {
    JoinSize(parts, fmt);
    hide Join, EntriesSize;
  }

  // ----- objects ------------------------------------------------------------------------------

  // What a member adds to `len` in print_object, at the depth of the members.
  ghost function MemberSize(name: CString, value: CString, depth: nat, fmt: bool): nat {
    |value| + |name| + 2 + if fmt then 2 + depth else 0
  }

  ghost function MembersSize(members: seq<Member>, depth: nat, fmt: bool): nat {
    if members == [] then 0
    else
      MemberSize(Quote(members[0].name), PrintValue(members[0].value, depth, fmt), depth, fmt)
      + MembersSize(members[1..], depth, fmt)
  }

  lemma {:induction false} PrintMembersSize(members: seq<Member>, depth: nat, fmt: bool)
    ensures members != [] ==> |PrintMembers(members, depth, fmt)| + 1 == MembersSize(members, depth, fmt)
    ensures members == [] ==> |PrintMembers(members, depth, fmt)| == 0 == MembersSize(members, depth, fmt)
  {
    if members != [] {
      PrintMembersSize(members[1..], depth, fmt);
      hide PrintValue, Quote;
    }
  }

  // How much of the buffer of print_object stays unused.
  lemma {:induction false} ObjectFits(members: seq<Member>, depth: nat, fmt: bool)
    ensures 7 + (if fmt then depth + 1 else 0) + MembersSize(members, depth + 1, fmt)
            == |PrintValue(Obj(members), depth, fmt)| + 1 + if members == [] then 4 else 5
  {
    PrintMembersSize(members, depth + 1, fmt);
    hide PrintMembers, MembersSize;
  }

  // ----- the int that holds the sizes ---------------------------------------------------------

  // print_array measures into an int, and mallocs that many bytes.  They are the bytes that were
  // measured, and enough for the text, exactly when the text with what stays unused fits an int.
  lemma {:induction false} ArrayRoom(parts: seq<CString>, fmt: bool)
    requires |parts| <= INT_MAX
    ensures var len, used := 5 + EntriesSize(parts, fmt), |ArrayText(parts, fmt)| + 1;
            var fits := used + (if parts == [] then 2 else 3 + |parts| + Flag(fmt)) <= INT_MAX;
            (ToInt32(len) == len <==> fits) && (used <= ToInt32(len) <==> fits)
  {
    ArrayFits(parts, fmt);
    Wrapped(5 + EntriesSize(parts, fmt));
    hide ArrayText, EntriesSize, ToInt32;
  }

  // The same for print_object.
  lemma {:induction false} ObjectRoom(members: seq<Member>, depth: nat, fmt: bool)
    ensures var len := 7 + (if fmt then depth + 1 else 0) + MembersSize(members, depth + 1, fmt);
            var used := |PrintValue(Obj(members), depth, fmt)| + 1;
            var fits := used + (if members == [] then 4 else 5) <= INT_MAX;
            (ToInt32(len) == len <==> fits) && (used <= ToInt32(len) <==> fits)
  {
    ObjectFits(members, depth, fmt);
    Wrapped(7 + (if fmt then depth + 1 else 0) + MembersSize(members, depth + 1, fmt));
    hide PrintValue, MembersSize, ToInt32;
  }

  // And for print_string_ptr, which measures exactly.
  lemma {:induction false} StringRoom(s: CString)
    ensures var len, used := |Escape(s)| + 3, |Quote(s)| + 1;
            len == used && (ToInt32(len) == len <==> used <= INT_MAX) && (used <= ToInt32(len) <==> used <= INT_MAX)
  {
    Wrapped(|Escape(s)| + 3);
    hide Escape, ToInt32;
  }

  // A size that does not fit comes out smaller by a multiple of 2^32.
  lemma {:induction false} Wrapped(len: nat)
    ensures len > INT_MAX ==> ToInt32(len) <= len - 0x1_0000_0000
  {
  }

  ghost function Repeated(c: char, n: nat): (s: CString)
    requires IsByte(c) && c != NUL
    ensures |s| == n && forall x <- s :: x == c
  {
    if n == 0 then [] else [c] + Repeated(c, n - 1)
  }

  lemma {:induction false} PlainText(s: CString)
    requires forall c <- s :: Plain(c)
    ensures Escape(s) == s
  {
    if s != [] {
      PlainText(s[1..]);
      assert s == [s[0]] + s[1..];
    }
  }

  // Three plain strings of a third of 2^32 bytes: each can be printed, and their array is written
  // into 19 bytes.
  lemma {:induction false} ArrayOverrun(s: CString, j: Json)
    requires s == Repeated('a', 1431655766) && j == Arr([Str(s), Str(s), Str(s)])
    ensures var parts := PrintItems(j.items, 1, false);
            && (forall p <- parts :: |p| + 1 <= INT_MAX) && ToInt32(5 + EntriesSize(parts, false)) == 19
            && |Print(j, false)| + 1 == 4294967309
  {
    hide *;
    PlainQuote(s);
    ThreeItems(Str(s), 1, false);
    StringPrints(s, 1, false);
    ThreeSizes(Quote(s));
    ArrayFits([Quote(s), Quote(s), Quote(s)], false);
    ArrayPrinted(j.items);
    WrapsTo19();
    NoFlag();
  }

  lemma {:induction false} PlainQuote(s: CString)
    requires s == Repeated('a', 1431655766)
    ensures |Quote(s)| == 1431655768
  {
    hide Repeated;
    PlainText(s);
  }

  lemma {:induction false} StringPrints(s: CString, depth: nat, fmt: bool)
    ensures PrintValue(Str(s), depth, fmt) == Quote(s)
  {
    hide Quote;
  }

  lemma {:induction false} ArrayPrinted(items: seq<Json>)
    ensures Print(Arr(items), false) == ArrayText(PrintItems(items, 1, false), false)
  {
    hide PrintItems, ArrayText;
  }

  lemma {:induction false} WrapsTo19()
    ensures ToInt32(4294967315) == 19 && 1431655769 <= INT_MAX
  {
  }

  lemma {:induction false} NoFlag()
    ensures Flag(false) == 0
  {
  }

  lemma {:induction false} ThreeItems(x: Json, depth: nat, fmt: bool)
    ensures var p := PrintValue(x, depth, fmt); PrintItems([x, x, x], depth, fmt) == [p, p, p]
  {
    hide PrintValue;
    assert [x, x, x][1..] == [x, x] && [x, x][1..] == [x] && [x][1..] == [];
    assert PrintItems([x], depth, fmt) == [PrintValue(x, depth, fmt)];
    assert PrintItems([x, x], depth, fmt) == [PrintValue(x, depth, fmt), PrintValue(x, depth, fmt)];
  }

  lemma {:induction false} ThreeSizes(q: CString)
    ensures EntriesSize([q, q, q], false) == 3 * (|q| + 2)
  {
    assert [q, q, q][1..] == [q, q] && [q, q][1..] == [q] && [q][1..] == [];
    assert EntriesSize([q], false) == |q| + 2;
    assert EntriesSize([q, q], false) == 2 * (|q| + 2);
  }

  // Every size that is measured when the value is printed fits an int.
  ghost predicate FitsInt(j: Json, depth: nat, fmt: bool)
    decreases j
  {
    match j
    case Str(s) => |Quote(s)| + 1 <= INT_MAX
    case Arr(items) =>
      && 5 + EntriesSize(PrintItems(items, depth + 1, fmt), fmt) <= INT_MAX
      && forall x <- items :: FitsInt(x, depth + 1, fmt)
    case Obj(members) =>
      && 7 + (if fmt then depth + 1 else 0) + MembersSize(members, depth + 1, fmt) <= INT_MAX
      && forall m <- members :: FitsMember(m, depth + 1, fmt)
    case _ => true
  }

  ghost predicate FitsMember(m: Member, depth: nat, fmt: bool)
    decreases m
  {
    |Quote(m.name)| + 1 <= INT_MAX && FitsInt(m.value, depth, fmt)
  }
}
