/**
JSON values and the text cJSON prints for them.
*/
module JsonText {
  import opened CInts
  import opened CStrings

  // A number stands for mantissa * 10^exponent.
  datatype Json =
    | Null
    | False
    | True
    | Number(mantissa: int, exponent: int)
    | Str(text: CString)
    | Arr(items: seq<Json>)
    | Obj(members: seq<Member>)

  datatype Member = Member(name: CString, value: Json)

  function Power(k: nat): (p: nat)
    ensures p > 0
  {
    if k == 0 then 1 else 10 * Power(k - 1)
  }

  // valueint: the number, truncated toward zero.
  function IntOf(mantissa: int, exponent: int): int {
    if exponent >= 0 then mantissa * Power(exponent)
    else if mantissa < 0 then -(-mantissa / Power(-exponent))
    else mantissa / Power(-exponent)
  }

  // The number is a 32-bit integer.
  predicate IsInt(mantissa: int, exponent: int) {
    (exponent >= 0 || mantissa % Power(-exponent) == 0) && INT_MIN <= IntOf(mantissa, exponent) <= INT_MAX
  }

  // What print_number prints with "%d": every number is a 32-bit integer.
  ghost predicate Printable(j: Json) {
    match j
    case Number(m, e) => IsInt(m, e)
    case Arr(items) => forall x <- items :: Printable(x)
    case Obj(members) => forall x <- members :: Printable(x.value)
    case _ => true
  }

  // ----- numbers ------------------------------------------------------------------------------

  function Digit(d: nat): char
    requires d < 10
  {
    '0' + d as char
  }

  function NatText(n: nat): (s: CString)
    ensures |s| > 0
  {
    if n < 10 then [Digit(n)] else NatText(n / 10) + [Digit(n % 10)]
  }

  // sprintf "%d"
  function IntText(n: int): CString {
    if n < 0 then "-" + NatText(-n) else NatText(n)
  }

  // ----- strings ------------------------------------------------------------------------------

  const BACKSPACE: char := 8 as char
  const FORM_FEED: char := 12 as char

  function HexDigit(d: nat): char
    requires d < 16
  {
    if d < 10 then '0' + d as char else 'a' + (d - 10) as char
  }

  predicate Plain(c: char) {
    c as int > 31 && c != '\"' && c != '\\'
  }

  // How print_string_ptr writes one byte.
  function Escaped(c: char): CString
    requires IsByte(c) && c != NUL
  {
    if Plain(c) then [c]
    else if c == '\\' then "\\\\"
    else if c == '\"' then "\\\""
    else if c == BACKSPACE then "\\b"
    else if c == FORM_FEED then "\\f"
    else if c == '\n' then "\\n"
    else if c == '\r' then "\\r"
    else if c == '\t' then "\\t"
    else "\\u00" + [HexDigit(c as int / 16), HexDigit(c as int % 16)]
  }

  function Escape(s: CString): CString {
    if s == [] then [] else Escaped(s[0]) + Escape(s[1..])
  }

  function Quote(s: CString): CString {
    "\"" + Escape(s) + "\""
  }

  // ----- values -------------------------------------------------------------------------------

  function Tabs(n: nat): (s: CString)
    ensures |s| == n
  {
    if n == 0 then [] else "\t" + Tabs(n - 1)
  }

  function Join(parts: seq<CString>, sep: CString): CString {
    if parts == [] then []
    else if |parts| == 1 then parts[0]
    else parts[0] + (sep + Join(parts[1..], sep))
  }

  function Indent(depth: nat, fmt: bool): CString {
    if fmt then Tabs(depth) else ""
  }

  function NewLine(fmt: bool): CString {
    if fmt then "\n" else ""
  }

  function Separator(fmt: bool): CString {
    if fmt then ", " else ","
  }

  function ArrayText(parts: seq<CString>, fmt: bool): CString {
    ['['] + (Join(parts, Separator(fmt)) + [']'])
  }

  function ObjectInside(members: CString, depth: nat, fmt: bool): CString {
    NewLine(fmt) + (members + Indent(depth, fmt))
  }

  function PrintValue(j: Json, depth: nat, fmt: bool): CString
    decreases j
  {
    match j
    case Null => "null"
    case False => "false"
    case True => "true"
    case Number(m, e) => IntText(IntOf(m, e))
    case Str(s) => Quote(s)
    case Arr(items) => ArrayText(PrintItems(items, depth + 1, fmt), fmt)
    case Obj(members) => ['{'] + (ObjectInside(PrintMembers(members, depth + 1, fmt), depth, fmt) + ['}'])
  }

  function PrintItems(items: seq<Json>, depth: nat, fmt: bool): (parts: seq<CString>)
    ensures |parts| == |items|
    decreases items
  {
    if items == [] then [] else [PrintValue(items[0], depth, fmt)] + PrintItems(items[1..], depth, fmt)
  }

  // One member of an object, whose children sit at `depth`.
  function PrintMember(m: Member, depth: nat, fmt: bool): CString
    decreases m
  {
    Indent(depth, fmt) + (Quote(m.name) + ((if fmt then ":\t" else ":") + PrintValue(m.value, depth, fmt)))
  }

  function PrintMembers(members: seq<Member>, depth: nat, fmt: bool): CString
    decreases members
  {
    if members == [] then []
    else
      PrintMember(members[0], depth, fmt)
      + ((if |members| > 1 then "," else "") + (NewLine(fmt) + PrintMembers(members[1..], depth, fmt)))
  }

  // cJSON_Print and cJSON_PrintUnformatted
  function Print(j: Json, fmt: bool): CString {
    PrintValue(j, 0, fmt)
  }
}
