/**
C strings as sequences of bytes, one character for each byte, without the terminator.
*/
module CStrings {
  const NUL: char := '\0'

  predicate IsByte(c: char) {
    c as int < 256
  }

  type CString = s: string | forall c <- s :: c != NUL && IsByte(c)

  // The byte a pointer at offset `i` reads: the terminator sits at the end.
  function At(s: string, i: nat): char
    requires i <= |s|
  {
    if i < |s| then s[i] else NUL
  }

  // `x` stands at offset `i` of `s`.
  predicate Stands(s: string, i: nat, x: string) {
    i + |x| <= |s| && s[i..i + |x|] == x
  }

  lemma {:induction false} StandsSplit(s: string, i: nat, x: string, y: string)
    ensures Stands(s, i, x + y) <==> Stands(s, i, x) && Stands(s, i + |x|, y)
  {
    if i + |x| + |y| <= |s| {
      assert s[i..i + |x| + |y|] == s[i..i + |x|] + s[i + |x|..i + |x| + |y|];
      if s[i..i + |x| + |y|] == x + y {
        assert s[i..i + |x|] == (x + y)[..|x|];
        assert s[i + |x|..i + |x| + |y|] == (x + y)[|x|..];
      }
    }
  }

  lemma {:induction false} StandsAt(s: string, i: nat, x: string, k: nat)
    requires Stands(s, i, x) && k < |x|
    ensures s[i + k] == x[k]
  {
    assert s[i..i + |x|][k] == s[i + k];
  }

  // One character written, and the place behind it.
  method Put(b: array<char>, w: nat, c: char) returns (w': nat)
    requires w < b.Length
    modifies b
    ensures w' == w + 1 && b[..w'] == old(b[..w]) + [c]
  {
    b[w] := c;
    w' := w + 1;
  }
}
