/**
The recursive-descent parser of cJSON.c as functions on offsets into the text.
*/
module JsonParse {
  import opened CInts
  import opened CStrings
  import opened JsonText

  // Ok: the value and the offset just behind it.  Fail: the parser returns 0.  Stray: the input is
  // not JSON and the C code would read behind the terminator or use an unset variable, or it has a
  // string literal too long for the int that counts it.
  datatype Parsed<+T> = Ok(value: T, next: nat) | Fail | Stray

  function Skip(t: CString, i: nat): (j: nat)
    requires i <= |t|
    ensures i <= j <= |t|
    decreases |t| - i
  {
    if i < |t| && t[i] as int <= 32 then Skip(t, i + 1) else i
  }

  predicate IsDigit(c: char) {
    '0' <= c <= '9'
  }

  function DigitValue(c: char): int {
    c as int - '0' as int
  }

  // ----- parse_number -------------------------------------------------------------------------

  // The offset behind the digits from `i` on.
  function DigitsEnd(t: CString, i: nat): (j: nat)
    requires i <= |t|
    ensures i <= j <= |t|
    decreases |t| - i
  {
    if i < |t| && IsDigit(t[i]) then DigitsEnd(t, i + 1) else i
  }

  // n, continued with the digits t[i..j].
  function Accumulate(n: int, t: string, i: nat, j: nat): int
    requires i <= j <= |t|
    decreases j - i
  {
    if i == j then n else Accumulate(n * 10 + DigitValue(t[i]), t, i + 1, j)
  }

  datatype NumberParts = NumberParts(n: int, sign: int, scale: int, subscale: int, signsubscale: int)

  // The digits with their sign, and the power of ten made of both scales.
  function NumberOf(p: NumberParts): Json {
    Number(p.sign * p.n, p.scale + p.subscale * p.signsubscale)
  }

  // sign and integer part
  function ParseWhole(t: CString, i: nat): (NumberParts, nat)
    requires i <= |t|
  {
    var sign := if At(t, i) == '-' then -1 else 1;
    var i1 := if At(t, i) == '-' then i + 1 else i;
    var i2 := if At(t, i1) == '0' then i1 + 1 else i1;
    if '1' <= At(t, i2) <= '9' then
      var j := DigitsEnd(t, i2);
      (NumberParts(Accumulate(0, t, i2, j), sign, 0, 0, 1), j)
    else (NumberParts(0, sign, 0, 0, 1), i2)
  }

  // The do-while loop takes whatever follows the point as its first digit.
  function ParseFraction(t: CString, i: nat, p: NumberParts): Parsed<NumberParts>
    requires i <= |t|
  {
    if At(t, i) != '.' then Ok(p, i)
    else if i + 1 == |t| then Stray
    else
      var j := DigitsEnd(t, i + 2);
      Ok(p.(n := Accumulate(p.n, t, i + 1, j), scale := -(j - i - 1)), j)
  }

  function ParseExponent(t: CString, i: nat, p: NumberParts): (NumberParts, nat)
    requires i <= |t|
  {
    if At(t, i) == 'e' || At(t, i) == 'E' then
      var k := if At(t, i + 1) == '+' || At(t, i + 1) == '-' then i + 2 else i + 1;
      var j := DigitsEnd(t, k);
      (p.(signsubscale := if At(t, i + 1) == '-' then -1 else 1, subscale := Accumulate(0, t, k, j)), j)
    else (p, i)
  }

  function ParseNumber(t: CString, i: nat): (r: Parsed<Json>)
    requires i <= |t|
    ensures r.Ok? ==> i <= r.next <= |t|
  {
    var (p, i1) := ParseWhole(t, i);
    match ParseFraction(t, i1, p)
    case Ok(p2, i2) =>
      var (p3, i3) := ParseExponent(t, i2, p2);
      Ok(NumberOf(p3), i3)
    case _ => Stray
  }

  // ----- parse_string -------------------------------------------------------------------------

  // The measuring loop: how many bytes to allocate besides the terminator, and where the loop stops.
  function Measure(t: CString, p: nat): (r: Parsed<nat>)
    requires p <= |t|
    ensures r.Ok? ==> p <= r.next <= |t|
    decreases |t| - p
  {
    if p == |t| || t[p] == '\"' then Ok(0, p)
    else if t[p] == '\\' && p + 1 == |t| then Stray
    else
      match Measure(t, if t[p] == '\\' then p + 2 else p + 1)
      case Ok(len, end) => Ok(len + 1, end)
      case _ => Stray
  }

  predicate IsHex(c: char) {
    IsDigit(c) || 'a' <= c <= 'f' || 'A' <= c <= 'F'
  }

  function HexValue(c: char): (v: nat)
    requires IsHex(c)
    ensures v < 16
  {
    if IsDigit(c) then c as int - '0' as int
    else if 'a' <= c then c as int - 'a' as int + 10
    else c as int - 'A' as int + 10
  }

  function HexNumber(a: char, b: char, c: char, d: char): (n: nat)
    requires IsHex(a) && IsHex(b) && IsHex(c) && IsHex(d)
    ensures n < 0x10000
  {
    ((HexValue(a) * 16 + HexValue(b)) * 16 + HexValue(c)) * 16 + HexValue(d)
  }

  // The low byte of an unsigned value, as bits.
  function Bits(n: nat): (b: bv8)
    requires n < 256
    ensures b as int == n
  {
    if n == 0 then 0 else Bits(n - 1) + 1
  }

  function ByteOf(b: bv8): char {
    b as int as char
  }

  // A continuation byte: the mark over the low six bits; only the low byte of the code counts.
  function Continuation(uc: nat): char {
    ByteOf((Bits(uc % 256) | 0x80) & 0xBF)
  }

  // The leading byte, with the mark of the length.
  function Leading(uc: nat, mark: bv8): char {
    ByteOf(Bits(uc % 256) | mark)
  }

  // The fall-through switch that writes the bytes of one \u escape back to front, shifting uc right
  // by six bits after each continuation byte.
  function Transcode(uc: nat): (s: string)
    ensures forall c <- s :: IsByte(c)
  {
    if uc < 0x80 then [Leading(uc, 0x00)]
    else if uc < 0x800 then [Leading(uc / 64, 0xC0), Continuation(uc)]
    else [Leading(uc / 64 / 64, 0xE0), Continuation(uc / 64), Continuation(uc)]
  }

  // The decoding loop.
  function Decode(t: CString, p: nat): (r: Parsed<string>)
    requires p <= |t|
    ensures r.Ok? ==> p <= r.next <= |t| && forall c <- r.value :: IsByte(c)
    decreases |t| - p
  {
    if p == |t| || t[p] == '\"' then Ok([], p)
    else if t[p] != '\\' then Prepend([t[p]], Decode(t, p + 1))
    else if p + 1 == |t| then Stray
    else if t[p + 1] == 'u' then
      if p + 6 <= |t| && IsHex(t[p + 2]) && IsHex(t[p + 3]) && IsHex(t[p + 4]) && IsHex(t[p + 5]) then
        Prepend(Transcode(HexNumber(t[p + 2], t[p + 3], t[p + 4], t[p + 5])), Decode(t, p + 6))
      else Stray
    else Prepend([Unescaped(t[p + 1])], Decode(t, p + 2))
  }

  function Unescaped(c: char): char {
    if c == 'b' then BACKSPACE
    else if c == 'f' then FORM_FEED
    else if c == 'n' then '\n'
    else if c == 'r' then '\r'
    else if c == 't' then '\t'
    else c
  }

  function Prepend(x: string, r: Parsed<string>): Parsed<string> {
    match r
    case Ok(value, next) => Ok(x + value, next)
    case _ => r
  }

  // The bytes up to the first NUL: what a C string can hold of a decoded text.
  function UpToNul(s: string): (r: string)
    ensures forall c <- r :: c != NUL && c in s
  {
    if s == [] || s[0] == NUL then [] else [s[0]] + UpToNul(s[1..])
  }

  function ParseString(t: CString, i: nat): (r: Parsed<CString>)
    requires i <= |t|
    ensures r.Ok? ==> i < r.next <= |t|
  {
    if At(t, i) != '\"' then Fail
    else if Measure(t, i + 1).Stray? || Measure(t, i + 1).value >= INT_MAX then Stray
    else
      match Decode(t, i + 1)
      case Ok(s, end) => Ok(UpToNul(s), if At(t, end) == '\"' then end + 1 else end)
      case _ => Stray
  }

  // ----- parse_value --------------------------------------------------------------------------

  predicate StartsNumber(c: char) {
    c == '-' || IsDigit(c)
  }

  function ParseValue(t: CString, i: nat): (r: Parsed<Json>)
    requires i <= |t|
    ensures r.Ok? ==> i < r.next <= |t|
    decreases |t| - i, 0
  {
    if Stands(t, i, "null") then Ok(Null, i + 4)
    else if Stands(t, i, "false") then Ok(False, i + 5)
    else if Stands(t, i, "true") then Ok(True, i + 4)
    else if At(t, i) == '\"' then
      match ParseString(t, i)
      case Ok(s, next) => Ok(Str(s), next)
      case Fail => Fail
      case Stray => Stray
    else if StartsNumber(At(t, i)) then NumberStarts(t, i); ParseNumber(t, i)
    else if At(t, i) == '[' then
      var j := Skip(t, i + 1);
      if At(t, j) == ']' then Ok(Arr([]), j + 1)
      else
        match ParseItems(t, j)
        case Ok(items, k) => if At(t, k) == ']' then Ok(Arr(items), k + 1) else Fail
        case Fail => Fail
        case Stray => Stray
    else if At(t, i) == '{' then
      var j := Skip(t, i + 1);
      if At(t, j) == '}' then Ok(Obj([]), j + 1)
      else
        match ParseMembers(t, j)
        case Ok(members, k) => if At(t, k) == '}' then Ok(Obj(members), k + 1) else Fail
        case Fail => Fail
        case Stray => Stray
    else Fail
  }

  lemma {:induction false} NumberStarts(t: CString, i: nat)
    requires i <= |t| && StartsNumber(At(t, i))
    ensures ParseNumber(t, i).Ok? ==> ParseNumber(t, i).next > i
  {
  }

  // Elements from `i` on, each with white space around it, up to what is not a comma.
  function ParseItems(t: CString, i: nat): (r: Parsed<seq<Json>>)
    requires i <= |t|
    ensures r.Ok? ==> i <= r.next <= |t|
    decreases |t| - i, 1
  {
    match ParseValue(t, Skip(t, i))
    case Ok(v, j) =>
      var k := Skip(t, j);
      if At(t, k) == ',' then
        match ParseItems(t, k + 1)
        case Ok(rest, n) => Ok([v] + rest, n)
        case Fail => Fail
        case Stray => Stray
      else Ok([v], k)
    case Fail => Fail
    case Stray => Stray
  }

  function ParseMember(t: CString, i: nat): (r: Parsed<Member>)
    requires i <= |t|
    ensures r.Ok? ==> i < r.next <= |t|
    decreases |t| - i, 1
  {
    match ParseString(t, Skip(t, i))
    case Ok(name, j) =>
      var k := Skip(t, j);
      if At(t, k) != ':' then Fail
      else
        (match ParseValue(t, Skip(t, k + 1))
         case Ok(v, n) => Ok(Member(name, v), n)
         case Fail => Fail
         case Stray => Stray)
    case Fail => Fail
    case Stray => Stray
  }

  function ParseMembers(t: CString, i: nat): (r: Parsed<seq<Member>>)
    requires i <= |t|
    ensures r.Ok? ==> i <= r.next <= |t|
    decreases |t| - i, 2
  {
    match ParseMember(t, i)
    case Ok(m, j) =>
      var k := Skip(t, j);
      if At(t, k) == ',' then
        match ParseMembers(t, k + 1)
        case Ok(rest, n) => Ok([m] + rest, n)
        case Fail => Fail
        case Stray => Stray
      else Ok([m], k)
    case Fail => Fail
    case Stray => Stray
  }

  // cJSON_Parse; what follows the value is not looked at.
  function Parse(t: CString): Parsed<Json> {
    ParseValue(t, Skip(t, 0))
  }
}
