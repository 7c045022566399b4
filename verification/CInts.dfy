/**
The int of the C code, 32 bits wide.
*/
module CInts {
  const INT_MIN: int := -0x8000_0000
  const INT_MAX: int := 0x7fff_ffff

  type Int = x: int | INT_MIN <= x <= INT_MAX

  // What an int holds after a conversion from a wider integer.
  function ToInt32(x: int): (r: Int)
    ensures r == x <==> INT_MIN <= x <= INT_MAX
  {
    var m := x % 0x1_0000_0000;
    if m > INT_MAX then m - 0x1_0000_0000 else m
  }

  // An int that is counted up by `more` after a conversion comes out as the conversion of the sum.
  lemma {:induction false} IntAdds(x: int, more: int)
    ensures ToInt32(ToInt32(x) + more) == ToInt32(x + more)
  {
    assert (x - ToInt32(x)) % 0x1_0000_0000 == 0;
  }
}
