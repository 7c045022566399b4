/**
Where the pipeline meets the width of an int: byte counts returned through one, and the length of a
mapping.
*/
module Limits {
  import opened CInts
  import opened CacheState

  // What is left of a response is below 2^32, so it comes through as a positive int exactly when it
  // fits one.
  lemma {:induction false} IntMeans(left: int)
    requires 0 <= left <= INT_MAX + PIPE_SIZE
    ensures ToInt32(left) <= 0 <==> left == 0 || left > INT_MAX
    ensures ToInt32(left) == 0 <==> left == 0
  {
    assert left % 0x1_0000_0000 == left;
  }

  // ceil(size / page) * page, the length passed to mmap
  function MmapLen(size: nat, page: nat): nat
    requires page > 0
  {
    (size + page - 1) / page * page
  }

  // The mapping is the least number of whole pages that covers the file.
  lemma {:induction false} MmapCovers(size: nat, page: nat)
    requires page > 0
    ensures size <= MmapLen(size, page) < size + page && MmapLen(size, page) % page == 0
  {
    var n := size + page - 1;
    var k := n / page;
    assert n == k * page + n % page;
    WholePages(k, page);
  }

  lemma {:induction false} WholePages(k: nat, page: nat)
    requires page > 0
    ensures k * page % page == 0
  {
    var n := k * page;
    var d := k - n / page;
    assert n == n / page * page + n % page;
    assert d * page == n % page;
    if d > 0 {
      Larger(d, page);
    } else if d < 0 {
      Larger(-d, page);
    }
  }

  lemma {:induction false} Larger(d: int, page: nat)
    requires d > 0
    ensures d * page >= page
  {
  }
}
