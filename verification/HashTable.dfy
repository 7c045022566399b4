/**
The chained hash table of ht.c: buckets of linked nodes that always spell the table's log.
*/
module HashTable {
  import opened Options
  import opened TableLog

  const HT_MIN_SIZE: nat := 8192

  // ----- key_hash -----------------------------------------------------------------------------

  // The hash of a key as a polynomial in 37 over its bytes, without any wrap-around.
  function Polynomial(key: Uri): nat {
    if key == [] then 0 else 37 * Polynomial(key[..|key| - 1]) + key[|key| - 1] as nat
  }

  // The 32-bit accumulator wraps at every byte, which loses nothing modulo 2^32.
  method KeyHash(key: Uri, max: nat) returns (hash: nat)
    requires max > 0
    ensures hash == Polynomial(key) % 0x1_0000_0000 % max
  {
    var h := 0;
    var p := 0;
    while p < |key|
      invariant 0 <= p <= |key| && h == Polynomial(key[..p]) % 0x1_0000_0000
    {
      assert key[..p + 1][..p] == key[..p];
      WrapStep(Polynomial(key[..p]), key[p] as nat);
      h := (37 * h + key[p] as nat) % 0x1_0000_0000;
      p := p + 1;
    }
    assert key[..p] == key;
    hash := h % max;
  }

  lemma {:induction false} WrapStep(x: nat, b: nat)
    ensures (37 * (x % 0x1_0000_0000) + b) % 0x1_0000_0000 == (37 * x + b) % 0x1_0000_0000
  {
    var q := x / 0x1_0000_0000;
    assert 37 * x + b == 37 * (x % 0x1_0000_0000) + b + 37 * q * 0x1_0000_0000;
  }

  // With 8192 buckets the bucket is the same as without wrap-around.
  lemma {:induction false} WrapKeepsBucket(key: Uri)
    ensures Polynomial(key) % 0x1_0000_0000 % HT_MIN_SIZE == Polynomial(key) % HT_MIN_SIZE
  {
    ModOfMod(Polynomial(key));
  }

  lemma {:induction false} ModOfMod(x: nat)
    ensures x % 0x1_0000_0000 % 8192 == x % 8192
  {
    var q, r := x / 0x1_0000_0000, x % 0x1_0000_0000;
    var n := 524288 * q + r / 8192;
    assert x - n * 8192 == r % 8192;
    Remainder(x, n, r % 8192);
  }

  lemma {:induction false} Remainder(x: nat, n: nat, r: nat)
    requires x - n * 8192 == r < 8192
    ensures x % 8192 == r
  {
  }

  function Bucket(key: Uri): (i: nat)
    ensures i < HT_MIN_SIZE
  {
    Polynomial(key) % 0x1_0000_0000 % HT_MIN_SIZE
  }

  // ----- the log, bucket by bucket ------------------------------------------------------------

  function InBucket<V>(log: seq<Entry<V>>, i: nat): seq<Entry<V>> {
    if log == [] then []
    else (if Bucket(log[0].key) == i then [log[0]] else []) + InBucket(log[1..], i)
  }

  lemma {:induction false} LookupInBucket<V>(log: seq<Entry<V>>, key: Uri)
    ensures Lookup(InBucket(log, Bucket(key)), key) == Lookup(log, key)
  {
    if log != [] {
      LookupInBucket(log[1..], key);
      var rest := InBucket(log[1..], Bucket(key));
      assert ([log[0]] + rest)[1..] == rest && [] + rest == rest;
    }
  }

  lemma {:induction false} DropInBucket<V>(log: seq<Entry<V>>, key: Uri, i: nat)
    ensures InBucket(Drop(log, key), i) == if i == Bucket(key) then Drop(InBucket(log, i), key) else InBucket(log, i)
  {
    if log != [] {
      var rest := InBucket(log[1..], i);
      assert ([log[0]] + rest)[1..] == rest && [] + rest == rest;
      if log[0].key != key {
        DropInBucket(log[1..], key, i);
        assert ([log[0]] + Drop(log[1..], key))[1..] == Drop(log[1..], key);
      }
    }
  }

  lemma {:induction false} AddInBucket<V>(log: seq<Entry<V>>, e: Entry<V>, i: nat)
    ensures InBucket([e] + log, i) == if i == Bucket(e.key) then [e] + InBucket(log, i) else InBucket(log, i)
  {
    assert ([e] + log)[1..] == log;
  }

  lemma {:induction false} AddInBuckets<V>(log: seq<Entry<V>>, e: Entry<V>)
    ensures forall i :: 0 <= i < HT_MIN_SIZE ==>
              InBucket([e] + log, i) == if i == Bucket(e.key) then [e] + InBucket(log, i) else InBucket(log, i)
  {
    hide InBucket, Bucket;
    forall i | 0 <= i < HT_MIN_SIZE
      ensures InBucket([e] + log, i) == if i == Bucket(e.key) then [e] + InBucket(log, i) else InBucket(log, i)
    {
      AddInBucket(log, e, i);
    }
  }

  // A prefix without the key hides nothing from a lookup or a deletion.
  lemma {:induction false} SkipLookup<V>(es: seq<Entry<V>>, key: Uri, j: nat)
    requires j <= |es| && forall k :: 0 <= k < j ==> es[k].key != key
    ensures Lookup(es, key) == Lookup(es[j..], key)
  {
    if j > 0 {
      assert es[1..][j - 1..] == es[j..];
      SkipLookup(es[1..], key, j - 1);
    } else {
      assert es[0..] == es;
    }
  }

  lemma {:induction false} SkipDrop<V>(es: seq<Entry<V>>, key: Uri, j: nat)
    requires j <= |es| && forall k :: 0 <= k < j ==> es[k].key != key
    ensures Drop(es, key) == es[..j] + Drop(es[j..], key)
  {
    if j > 0 {
      var tail := es[1..];
      SkipDrop(tail, key, j - 1);
      assert tail[j - 1..] == es[j..];
      assert es[..j] == [es[0]] + tail[..j - 1];
    } else {
      assert es[0..] == es && es[..0] == [];
    }
  }

  // The entries in the order table_each visits them: bucket by bucket.
  function Visits<V>(log: seq<Entry<V>>, n: nat): seq<Entry<V>> {
    if n == 0 then [] else Visits(log, n - 1) + InBucket(log, n - 1)
  }

  ghost function Times<V(!new)>(es: seq<Entry<V>>, e: Entry<V>): nat {
    if es == [] then 0 else (if es[0] == e then 1 else 0) + Times(es[1..], e)
  }

  lemma {:induction false} TimesOfSum<V(!new)>(xs: seq<Entry<V>>, ys: seq<Entry<V>>, e: Entry<V>)
    ensures Times(xs + ys, e) == Times(xs, e) + Times(ys, e)
  {
    if xs == [] {
      assert xs + ys == ys;
    } else {
      assert (xs + ys)[1..] == xs[1..] + ys;
      TimesOfSum(xs[1..], ys, e);
    }
  }

  // Every entry is visited as often as the table holds it.
  lemma {:induction false} VisitsAll<V(!new)>(log: seq<Entry<V>>, e: Entry<V>)
    ensures Times(Visits(log, HT_MIN_SIZE), e) == Times(log, e)
  {
    if log == [] {
      VisitsNone<V>(HT_MIN_SIZE);
    } else {
      VisitsFirst(log, HT_MIN_SIZE, e);
      VisitsAll(log[1..], e);
    }
  }

  lemma {:induction false} VisitsNone<V>(n: nat)
    ensures Visits<V>([], n) == []
  {
    if n > 0 {
      VisitsNone<V>(n - 1);
    }
  }

  lemma {:induction false} BucketFirst<V>(log: seq<Entry<V>>, i: nat)
    requires log != []
    ensures InBucket(log, i) == (if Bucket(log[0].key) == i then [log[0]] else []) + InBucket(log[1..], i)
  {
    hide Bucket;
  }

  lemma {:induction false} VisitsStep<V>(log: seq<Entry<V>>, n: nat)
    requires n > 0
    ensures Visits(log, n) == Visits(log, n - 1) + InBucket(log, n - 1)
  {
    hide InBucket;
  }

  lemma {:induction false} OneOrNone<V(!new)>(x: Entry<V>, there: bool, e: Entry<V>)
    ensures Times(if there then [x] else [], e) == if there && x == e then 1 else 0
  {
  }

  lemma {:induction false} VisitsFirst<V(!new)>(log: seq<Entry<V>>, n: nat, e: Entry<V>)
    requires log != []
    ensures Times(Visits(log, n), e) ==
            Times(Visits(log[1..], n), e) + (if log[0] == e && Bucket(e.key) < n then 1 else 0)
  {
    hide InBucket, Times, Bucket;
    if n > 0 {
      VisitsFirst(log, n - 1, e);
      VisitsStep(log, n);
      VisitsStep(log[1..], n);
      var rest := InBucket(log[1..], n - 1);
      TimesOfSum(Visits(log, n - 1), InBucket(log, n - 1), e);
      TimesOfSum(Visits(log[1..], n - 1), rest, e);
      BucketFirst(log, n - 1);
      OneOrNone(log[0], Bucket(log[0].key) == n - 1, e);
      TimesOfSum(if Bucket(log[0].key) == n - 1 then [log[0]] else [], rest, e);
    } else {
      NoVisits(log);
      NoVisits(log[1..]);
    }
  }

  lemma {:induction false} NoVisits<V>(log: seq<Entry<V>>)
    ensures Visits(log, 0) == []
  {
  }

  // The log without the entries whose keys are in `gone`.
  function Without<V>(log: seq<Entry<V>>, gone: set<Uri>): seq<Entry<V>> {
    if log == [] then []
    else (if log[0].key in gone then [] else [log[0]]) + Without(log[1..], gone)
  }

  lemma {:induction false} WithoutNone<V>(log: seq<Entry<V>>)
    ensures Without(log, {}) == log
  {
    if log != [] {
      WithoutNone(log[1..]);
    }
  }

  lemma {:induction false} InWithout<V>(log: seq<Entry<V>>, gone: set<Uri>, e: Entry<V>)
    ensures e in Without(log, gone) <==> e in log && e.key !in gone
  {
    if log != [] {
      InWithout(log[1..], gone, e);
      assert e in log <==> e == log[0] || e in log[1..];
    }
  }

  lemma {:induction false} UniqueTail<V>(log: seq<Entry<V>>)
    requires UniqueKeys(log) && log != []
    ensures UniqueKeys(log[1..]) && forall e <- log[1..] :: e in log && e.key != log[0].key
  {
    assert forall i :: 0 <= i < |log| - 1 ==> log[1..][i] == log[i + 1];
  }

  lemma {:induction false} UniqueCons<V>(e: Entry<V>, rest: seq<Entry<V>>)
    requires UniqueKeys(rest) && forall x <- rest :: x.key != e.key
    ensures UniqueKeys([e] + rest)
  {
    var log := [e] + rest;
    forall i, j | 0 <= i < j < |log| ensures log[i].key != log[j].key {
      assert log[j] == rest[j - 1] && rest[j - 1] in rest;
    }
  }

  lemma {:induction false} WithoutMore<V>(log: seq<Entry<V>>, gone: set<Uri>, key: Uri)
    requires UniqueKeys(log)
    ensures Drop(Without(log, gone), key) == Without(log, gone + {key})
  {
    if log != [] {
      var rest := Without(log[1..], gone);
      UniqueTail(log);
      hide UniqueKeys;
      WithoutMore(log[1..], gone, key);
      assert ([log[0]] + rest)[1..] == rest && [] + rest == rest;
      if log[0].key == key {
        WithoutAbsent(log[1..], gone, key);
      }
    }
  }

  lemma {:induction false} WithoutAbsent<V>(log: seq<Entry<V>>, gone: set<Uri>, key: Uri)
    requires forall e <- log :: e.key != key
    ensures Without(log, gone + {key}) == Without(log, gone)
  {
    if log != [] {
      WithoutAbsent(log[1..], gone, key);
    }
  }

  lemma {:induction false} BucketUnique<V>(log: seq<Entry<V>>, i: nat)
    requires UniqueKeys(log)
    ensures UniqueKeys(InBucket(log, i)) && forall e <- InBucket(log, i) :: e in log && Bucket(e.key) == i
  {
    if log != [] {
      UniqueTail(log);
      BucketUnique(log[1..], i);
      hide UniqueKeys;
      var rest := InBucket(log[1..], i);
      if Bucket(log[0].key) == i {
        UniqueCons(log[0], rest);
      } else {
        assert [] + rest == rest;
      }
    }
  }

  lemma {:induction false} DropUnique<V>(log: seq<Entry<V>>, key: Uri)
    requires UniqueKeys(log)
    ensures UniqueKeys(Drop(log, key)) && forall e <- Drop(log, key) :: e in log
  {
    if log != [] {
      UniqueTail(log);
      if log[0].key != key {
        DropUnique(log[1..], key);
        hide UniqueKeys;
        UniqueCons(log[0], Drop(log[1..], key));
      }
    }
  }

  // ----- the log as a map with shadowing ------------------------------------------------------

  // table_add pushes on the key's stack, table_del pops it, table_get reads its top, and no other
  // key's stack changes.
  lemma {:induction false} AddPushes<V>(log: seq<Entry<V>>, key: Uri, val: V, other: Uri)
    ensures Stack([Entry(key, val)] + log, other) == (if other == key then [val] else []) + Stack(log, other)
  {
    assert ([Entry(key, val)] + log)[1..] == log;
  }

  lemma {:induction false} DropPops<V>(log: seq<Entry<V>>, key: Uri, other: Uri)
    ensures Stack(Drop(log, key), other) ==
            if other == key && Stack(log, key) != [] then Stack(log, key)[1..] else Stack(log, other)
    ensures |Drop(log, key)| == |log| - if Stack(log, key) == [] then 0 else 1
  {
    if log != [] {
      var rest := Stack(log[1..], other);
      assert forall v: V :: ([v] + rest)[1..] == rest;
      if log[0].key != key {
        DropPops(log[1..], key, other);
        assert ([log[0]] + Drop(log[1..], key))[1..] == Drop(log[1..], key);
        assert [] + rest == rest && [] + Stack(log[1..], key) == Stack(log[1..], key);
      }
    }
  }

  lemma {:induction false} LookupIsTop<V>(log: seq<Entry<V>>, key: Uri)
    ensures Lookup(log, key) == if Stack(log, key) == [] then None else Some(Stack(log, key)[0])
  {
    if log != [] && log[0].key != key {
      LookupIsTop(log[1..], key);
    }
  }

  // ----- the linked buckets -------------------------------------------------------------------

  class Node<V> {
    const key: Uri
    const val: V
    var next: Node?<V>

    constructor (key: Uri, val: V, next: Node?<V>)
      ensures this.key == key && this.val == val && this.next == next
    {
      this.key := key;
      this.val := val;
      this.next := next;
    }
  }

  ghost function At<V>(chain: seq<Node<V>>, j: nat): Node?<V> {
    if j < |chain| then chain[j] else null
  }

  // The nodes from `first` on, following `next`, are exactly `chain`.
  ghost predicate Linked<V>(first: Node?<V>, chain: seq<Node<V>>)
    reads set n | n in chain
  {
    && first == At(chain, 0)
    && forall j {:trigger chain[j]} :: 0 <= j < |chain| ==> chain[j].next == At(chain, j + 1)
  }

  function Entries<V>(chain: seq<Node<V>>): (es: seq<Entry<V>>)
    ensures |es| == |chain| && forall j :: 0 <= j < |chain| ==> es[j] == Entry(chain[j].key, chain[j].val)
  {
    if chain == [] then [] else [Entry(chain[0].key, chain[0].val)] + Entries(chain[1..])
  }

  // The list starting at `first` is `chain`, without repetition, and holds the entries `es`.
  ghost predicate Spells<V>(first: Node?<V>, chain: seq<Node<V>>, es: seq<Entry<V>>)
    reads set n | n in chain
  {
    && Linked(first, chain) && Entries(chain) == es
    && forall j, k :: 0 <= j < k < |chain| ==> chain[j] != chain[k]
  }

  lemma {:induction false} Pushed<V>(node: Node<V>, chain: seq<Node<V>>, es: seq<Entry<V>>)
    requires Spells(node.next, chain, es) && node !in chain
    ensures Spells(node, [node] + chain, [Entry(node.key, node.val)] + es)
  {
    assert ([node] + chain)[1..] == chain;
    forall j | 0 <= j < |chain| + 1 ensures ([node] + chain)[j].next == At([node] + chain, j + 1) {
      if j > 0 {
        assert ([node] + chain)[j] == chain[j - 1];
      }
    }
  }

  // The chain without its j-th node, if it has one.
  ghost function Cut<V>(chain: seq<Node<V>>, j: nat): seq<Node<V>> {
    if j < |chain| then chain[..j] + chain[j + 1..] else chain
  }

  // The newest entry for `key` is at `j`, or nowhere if `j` is the length.
  ghost predicate First<V>(chain: seq<Node<V>>, key: Uri, j: nat) {
    && j <= |chain|
    && (forall k :: 0 <= k < j ==> chain[k].key != key)
    && (j < |chain| ==> chain[j].key == key)
  }

  lemma {:induction false} CutEntries<V>(chain: seq<Node<V>>, key: Uri, j: nat)
    requires First(chain, key, j)
    ensures Entries(Cut(chain, j)) == Drop(Entries(chain), key)
    ensures Lookup(Entries(chain), key) == if j < |chain| then Some(chain[j].val) else None
  {
    hide Entries;
    var es := Entries(chain);
    SkipDrop(es, key, j);
    SkipLookup(es, key, j);
    CutIsEntries(chain, j);
    if j < |chain| {
      assert es[j..][0] == es[j] && es[j..][1..] == es[j + 1..];
    } else {
      assert es[j..] == [] && es[..j] == es;
    }
  }

  lemma {:induction false} CutIsEntries<V>(chain: seq<Node<V>>, j: nat)
    ensures Entries(Cut(chain, j)) == if j < |chain| then Entries(chain)[..j] + Entries(chain)[j + 1..] else Entries(chain)
  {
    hide Entries;
    if j < |chain| {
      var c, es := Cut(chain, j), Entries(chain)[..j] + Entries(chain)[j + 1..];
      forall k | 0 <= k < |c| ensures Entries(c)[k] == es[k] {
        assert c[k] == chain[if k < j then k else k + 1];
      }
    }
  }

  // Relinking the predecessor of the j-th node, or the bucket itself, cuts that node out.
  lemma {:induction false} CutLinks<V>(first: Node?<V>, chain: seq<Node<V>>, j: nat)
    requires j < |chain| && first == (if j == 0 then At(chain, 1) else chain[0])
    requires forall k {:trigger chain[k]} :: 0 <= k < |chain| ==>
               chain[k].next == if k + 1 == j then At(chain, j + 1) else At(chain, k + 1)
    requires forall i, k :: 0 <= i < k < |chain| ==> chain[i] != chain[k]
    ensures Linked(first, Cut(chain, j))
    ensures forall i, k :: 0 <= i < k < |chain| - 1 ==> Cut(chain, j)[i] != Cut(chain, j)[k]
  {
    var c := Cut(chain, j);
    forall k | 0 <= k < |c| ensures c[k].next == At(c, k + 1) {
      assert c[k] == chain[if k < j then k else k + 1];
    }
  }

  lemma {:induction false} SpellsEntries<V>(first: Node?<V>, chain: seq<Node<V>>, es: seq<Entry<V>>)
    requires Spells(first, chain, es)
    ensures es == Entries(chain) && Spells(first, chain, Entries(chain))
  {
  }

  lemma {:induction false} CutWithin<V>(chain: seq<Node<V>>, j: nat)
    ensures forall n <- Cut(chain, j) :: n in chain
  {
  }

  // Just those entries whose visit (the k-th from `from`) asks for it are gone.
  ghost predicate Chosen<V>(es: seq<Entry<V>>, from: nat, evict: (nat, V) -> bool, gone: set<Uri>) {
    forall k :: 0 <= k < |es| ==> (es[k].key in gone <==> evict(from + k, es[k].val))
  }

  // What table_each has done when `j` entries of bucket `i` have been visited.
  ghost predicate Visited<V>(es: seq<Entry<V>>, j: nat, before: seq<Entry<V>>, after: seq<Entry<V>>,
                             evict: (nat, V) -> bool, i: nat, gone0: set<Uri>, gone: set<Uri>) {
    && j <= |es| && after == before + es[..j]
    && gone0 <= gone && (forall key <- gone - gone0 :: Bucket(key) == i)
    && Chosen(es[..j], |before|, evict, gone)
    && (forall k :: j <= k < |es| ==> es[k].key !in gone)
    && UniqueKeys(es) && (forall e <- es :: Bucket(e.key) == i)
  }

  lemma {:induction false} NothingChosen<V>(evict: (nat, V) -> bool, gone: set<Uri>)
    ensures Chosen([], 0, evict, gone)
  {
  }

  lemma {:induction false} ChosenAt<V>(es: seq<Entry<V>>, evict: (nat, V) -> bool, gone: set<Uri>, k: nat)
    requires Chosen(es, 0, evict, gone) && k < |es|
    ensures es[k].key in gone <==> evict(k, es[k].val)
  {
  }

  lemma {:induction false} ChosenSum<V>(log: seq<Entry<V>>, i: nat, before: seq<Entry<V>>, evict: (nat, V) -> bool, past: set<Uri>, gone: set<Uri>)
    requires before == Visits(log, i) && Chosen(before, 0, evict, past) && Chosen(InBucket(log, i), |before|, evict, gone)
    requires past <= gone && forall key <- gone - past :: Bucket(key) == i
    ensures Chosen(before + InBucket(log, i), 0, evict, gone)
  {
    hide Bucket, InBucket;
    var es := before + InBucket(log, i);
    forall k | 0 <= k < |es| ensures es[k].key in gone <==> evict(k, es[k].val) {
      if k < |before| {
        VisitsBelow(log, i, before[k]);
      } else {
        assert es[k] == InBucket(log, i)[k - |before|];
      }
    }
  }

  lemma {:induction false} VisitsBelow<V>(log: seq<Entry<V>>, n: nat, e: Entry<V>)
    requires e in Visits(log, n)
    ensures Bucket(e.key) < n && e in log
  {
    hide InBucket, Bucket;
    if e in Visits(log, n - 1) {
      VisitsBelow(log, n - 1, e);
    } else {
      InItsBucket(log, n - 1, e);
    }
  }

  lemma {:induction false} InItsBucket<V>(log: seq<Entry<V>>, i: nat, e: Entry<V>)
    requires e in InBucket(log, i)
    ensures Bucket(e.key) == i && e in log
  {
    if e != log[0] || Bucket(log[0].key) != i {
      InItsBucket(log[1..], i, e);
    }
  }

  lemma {:induction false} InVisits<V>(log: seq<Entry<V>>, n: nat, e: Entry<V>)
    ensures e in Visits(log, n) ==> e in log
  {
    if e in Visits(log, n) {
      VisitsBelow(log, n, e);
    }
  }

  // Deletions in other buckets do not show in this one.
  lemma {:induction false} OtherBucket<V>(log: seq<Entry<V>>, gone: set<Uri>, i: nat)
    requires forall key <- gone :: Bucket(key) != i
    ensures InBucket(Without(log, gone), i) == InBucket(log, i)
  {
    if log != [] {
      OtherBucket(log[1..], gone, i);
      var rest := Without(log[1..], gone);
      assert ([log[0]] + rest)[1..] == rest && [] + rest == rest;
      assert [] + InBucket(log[1..], i) == InBucket(log[1..], i);
    }
  }

  lemma {:induction false} NothingVisited<V>(es: seq<Entry<V>>, before: seq<Entry<V>>, evict: (nat, V) -> bool, i: nat, gone0: set<Uri>)
    requires UniqueKeys(es) && (forall e <- es :: Bucket(e.key) == i) && forall key <- gone0 :: Bucket(key) != i
    ensures Visited(es, 0, before, before, evict, i, gone0, gone0)
  {
    assert before + es[..0] == before;
    forall k | 0 <= k < |es| ensures es[k].key !in gone0 {
      assert es[k] in es;
    }
  }

  lemma {:induction false} OneVisited<V>(es: seq<Entry<V>>, j: nat, before: seq<Entry<V>>, after: seq<Entry<V>>,
                                         evict: (nat, V) -> bool, i: nat, gone0: set<Uri>, gone: set<Uri>)
    requires Visited(es, j, before, after, evict, i, gone0, gone) && j < |es|
    ensures Bucket(es[j].key) == i
    ensures Visited(es, j + 1, before, after + [es[j]], evict, i, gone0,
                    if evict(|after|, es[j].val) then gone + {es[j].key} else gone)
  {
    assert es[..j + 1] == es[..j] + [es[j]] && es[j] in es;
    assert forall k :: 0 <= k < |es| && k != j ==> es[k].key != es[j].key;
    hide Bucket;
  }

  lemma {:induction false} AllVisited<V>(es: seq<Entry<V>>, before: seq<Entry<V>>, after: seq<Entry<V>>,
                                         evict: (nat, V) -> bool, i: nat, gone0: set<Uri>, gone: set<Uri>)
    requires Visited(es, |es|, before, after, evict, i, gone0, gone)
    ensures after == before + es && Chosen(es, |before|, evict, gone)
    ensures gone0 <= gone && forall key <- gone - gone0 :: Bucket(key) == i
  {
    assert es[..|es|] == es;
  }

  lemma {:induction false} EntryOf<V>(chain: seq<Node<V>>, es: seq<Entry<V>>, j: nat)
    requires es == Entries(chain) && j < |chain|
    ensures j < |es| && es[j] == Entry(chain[j].key, chain[j].val)
  {
  }

  lemma {:induction false} StartOfChain<V>(first: Node?<V>, chain: seq<Node<V>>, es: seq<Entry<V>>)
    requires Spells(first, chain, es)
    ensures first == At(chain, 0) && es == Entries(chain) && |es| == |chain|
  {
  }

  lemma {:induction false} ChainOf<V>(first: Node?<V>, chain: seq<Node<V>>, es: seq<Entry<V>>)
    requires Spells(first, chain, es)
    ensures Linked(first, chain) && Entries(chain) == es
  {
  }

  // What a search of the chain returns when it stops at place j.
  lemma {:induction false} FoundAt<V>(chain: seq<Node<V>>, key: Uri, j: nat)
    requires j <= |chain| && forall k :: 0 <= k < j ==> chain[k].key != key
    ensures j < |chain| && chain[j].key == key ==> Lookup(Entries(chain), key) == Some(chain[j].val)
    ensures j == |chain| ==> Lookup(Entries(chain), key) == None
  {
    SkipLookup(Entries(chain), key, j);
  }

  // While `kept` and the unvisited rest make up the bucket, `next` leads to the next unvisited node.
  lemma {:induction false} NextInChain<V>(first: Node?<V>, kept: seq<Node<V>>, chain: seq<Node<V>>, j: nat, es: seq<Entry<V>>)
    requires j < |chain| && Spells(first, kept + chain[j..], es)
    ensures chain[j].next == At(chain, j + 1)
  {
    var c := kept + chain[j..];
    assert c[|kept|] == chain[j];
    assert j + 1 < |chain| ==> c[|kept| + 1] == chain[j + 1];
  }

  // With unique keys, deleting the visited node's key cuts out that node and no other.
  lemma {:induction false} VisitedIsFirst<V>(c: seq<Node<V>>, es: seq<Entry<V>>, p: nat, at: nat)
    requires Entries(c) == es && UniqueKeys(es) && p < |c| && First(c, c[p].key, at)
    ensures at == p
  {
    hide Entries;
  }

  lemma {:induction false} VisitedNode<V>(first: Node?<V>, kept: seq<Node<V>>, chain: seq<Node<V>>, j: nat, es: seq<Entry<V>>)
    requires j < |chain| && Spells(first, kept + chain[j..], es) && UniqueKeys(es)
    ensures Entry(chain[j].key, chain[j].val) in es
    ensures forall at :: First(kept + chain[j..], chain[j].key, at) ==> at == |kept|
  {
    var c := kept + chain[j..];
    assert c[|kept|] == chain[j] && es[|kept|] == Entry(chain[j].key, chain[j].val);
    forall at | First(c, chain[j].key, at) ensures at == |kept| {
      VisitedIsFirst(c, es, |kept|, at);
    }
  }

  lemma {:induction false} CutVisited<V>(kept: seq<Node<V>>, chain: seq<Node<V>>, j: nat)
    requires j < |chain|
    ensures Cut(kept + chain[j..], |kept|) == kept + chain[j + 1..]
  {
  }

  ghost predicate Apart<V>(xs: seq<Node<V>>, ys: seq<Node<V>>) {
    forall n <- xs :: n !in ys
  }

  lemma {:induction false} StaysApart<V>(x: Node<V>, xs: seq<Node<V>>, ys: seq<Node<V>>)
    requires Apart(xs, ys) && Apart(ys, xs) && x !in ys
    ensures Apart([x] + xs, ys) && Apart(ys, [x] + xs)
  {
  }

  class Table<V> {
    const store: array<Node?<V>>
    ghost var chains: seq<seq<Node<V>>>
    ghost var nodes: set<Node<V>>
    ghost var log: seq<Entry<V>>

    // Bucket i holds the log's entries with that hash, newest first, in nodes of its own.
    ghost predicate Valid()
      reads this, store, nodes
    {
      && store.Length == HT_MIN_SIZE == |chains|
      && (forall i :: 0 <= i < HT_MIN_SIZE ==> Within(chains[i], nodes))
      && (forall i :: 0 <= i < HT_MIN_SIZE ==> Spells(store[i], chains[i], InBucket(log, i)))
      && (forall i, k :: 0 <= i < HT_MIN_SIZE && 0 <= k < HT_MIN_SIZE && i != k ==> Apart(chains[i], chains[k]))
    }

    static ghost predicate Within(chain: seq<Node<V>>, nodes: set<Node<V>>) {
      forall n <- chain :: n in nodes
    }

    constructor ()
      ensures Valid() && log == [] && fresh(store) && fresh(nodes)
    {
      store := new Node?<V>[HT_MIN_SIZE](_ => null);
      chains := seq(HT_MIN_SIZE, _ => []);
      nodes := {};
      log := [];
    }

    method Get(key: Uri) returns (val: Option<V>)
      requires Valid()
      ensures val == Lookup(log, key)
    {
      hide InBucket, Lookup, Spells, Entries;
      var hash := KeyHash(key, HT_MIN_SIZE);
      ghost var chain := chains[hash];
      assert Spells(store[hash], chain, InBucket(log, hash));
      ChainOf(store[hash], chain, InBucket(log, hash));
      LookupInBucket(log, key);
      ghost var j := 0;
      var node := store[hash];
      while node != null
        invariant 0 <= j <= |chain| && node == At(chain, j)
        invariant forall k :: 0 <= k < j ==> chain[k].key != key
        decreases |chain| - j
      {
        if node.key == key {
          FoundAt(chain, key, j);
          return Some(node.val);
        }
        node := node.next;
        j := j + 1;
      }
      FoundAt(chain, key, j);
      val := None;
    }

    method Add(key: Uri, val: V)
      requires Valid()
      modifies this, store
      ensures Valid() && log == [Entry(key, val)] + old(log) && fresh(nodes - old(nodes))
    {
      hide InBucket, Linked, Spells, Apart;
      var hash := KeyHash(key, HT_MIN_SIZE);
      ghost var es := InBucket(log, hash);
      assert Spells(store[hash], chains[hash], es) && Within(chains[hash], nodes);
      var node := new Node(key, val, store[hash]);
      store[hash] := node;
      Pushed(node, chains[hash], es);
      AddInBuckets(log, Entry(key, val));
      assert forall i :: 0 <= i < HT_MIN_SIZE && i != hash ==> Within(chains[i], nodes);
      forall i | 0 <= i < HT_MIN_SIZE && i != hash
        ensures Apart([node] + chains[hash], chains[i]) && Apart(chains[i], [node] + chains[hash])
      {
        StaysApart(node, chains[hash], chains[i]);
      }
      chains := chains[hash := [node] + chains[hash]];
      nodes := nodes + {node};
      log := [Entry(key, val)] + log;
    }

    // table_del within one bucket: the first node for `key` is cut out and its value returned.
    method Unlink(hash: nat, key: Uri, ghost chain: seq<Node<V>>) returns (val: Option<V>, ghost j: nat)
      requires hash < store.Length && Spells(store[hash], chain, Entries(chain))
      modifies store, set n | n in chain
      ensures First(chain, key, j) && val == Lookup(Entries(chain), key)
      ensures Spells(store[hash], Cut(chain, j), Drop(Entries(chain), key))
      ensures forall i :: 0 <= i < store.Length && i != hash ==> store[i] == old(store[i])
    {
      val, j := None, 0;
      var node := store[hash];
      if node != null && node.key == key {
        val := Some(node.val);
        store[hash] := node.next;
        CutLinks(store[hash], chain, j);
      } else if node != null {
        var prev := node;
        node, j := node.next, 1;
        while node != null
          invariant 0 < j <= |chain| && node == At(chain, j) && prev == chain[j - 1]
          invariant forall k :: 0 <= k < j ==> chain[k].key != key
          invariant val == None
          decreases |chain| - j
        {
          if node.key == key {
            val := Some(node.val);
            break;
          }
          prev, node, j := node, node.next, j + 1;
        }
        if node != null {
          prev.next := node.next;
          CutLinks(store[hash], chain, j);
        }
      }
      CutEntries(chain, key, j);
    }

    method Del(key: Uri) returns (val: Option<V>, ghost j: nat)
      requires Valid()
      modifies this, store, nodes
      ensures Valid() && val == Lookup(old(log), key) && log == Drop(old(log), key)
      ensures nodes == old(nodes)
      ensures var h := Bucket(key);
              First(old(chains[h]), key, j) && chains == old(chains)[h := Cut(old(chains[h]), j)]
    {
      hide InBucket, Linked, Spells, Drop;
      var hash := KeyHash(key, HT_MIN_SIZE);
      ghost var chain := chains[hash];
      SpellsEntries(store[hash], chain, InBucket(log, hash));
      assert Within(chain, nodes);
      LookupInBucket(log, key);
      assert forall i :: 0 <= i < HT_MIN_SIZE && i != hash ==>
               Spells(store[i], chains[i], InBucket(log, i)) && Apart(chain, chains[i]) && Within(chains[i], nodes);
      val, j := Unlink(hash, key, chain);
      forall i | 0 <= i < HT_MIN_SIZE
        ensures InBucket(Drop(log, key), i) == if i == hash then Drop(InBucket(log, i), key) else InBucket(log, i)
      {
        DropInBucket(log, key, i);
      }
      CutWithin(chain, j);
      chains := chains[hash := Cut(chain, j)];
      log := Drop(log, key);
      forall i | 0 <= i < HT_MIN_SIZE ensures Spells(store[i], chains[i], InBucket(log, i)) && Within(chains[i], nodes) {
        if i != hash {
          assert store[i] == old(store[i]) && chains[i] == old(chains[i]);
        }
      }
    }

    // The callback on one node: it may delete (and free) the very node being visited.
    method Visit(node: Node<V>, evict: bool, ghost i: nat, ghost kept: seq<Node<V>>, ghost chain: seq<Node<V>>, ghost j: nat,
                 ghost log0: seq<Entry<V>>, ghost gone: set<Uri>)
      returns (ghost kept': seq<Node<V>>)
      requires Valid() && i < HT_MIN_SIZE && i < |chains| && UniqueKeys(log0) && UniqueKeys(log) && log == Without(log0, gone)
      requires j < |chain| && chain[j] == node && chains[i] == kept + chain[j..] && Bucket(node.key) == i
      modifies this, store, nodes
      ensures Valid() && UniqueKeys(log) && nodes == old(nodes) && i < |chains| && chains[i] == kept' + chain[j + 1..]
      ensures log == Without(log0, if evict then gone + {node.key} else gone)
    {
      hide InBucket, Without, Cut, Drop, Lookup, UniqueKeys;
      if evict {
        BucketUnique(log, i);
        assert Spells(store[i], chains[i], InBucket(log, i));
        hide Spells;
        VisitedNode(store[i], kept, chain, j, InBucket(log, i));
        WithoutMore(log0, gone, node.key);
        DropUnique(log, node.key);
        var val, at := Del(node.key);
        CutVisited(kept, chain, j);
        kept' := kept;
      } else {
        assert kept + chain[j..] == (kept + [node]) + chain[j + 1..];
        kept' := kept + [node];
      }
    }

    lemma {:induction false} BucketSpells(i: nat)
      requires Valid() && i < HT_MIN_SIZE
      ensures i < store.Length && i < |chains| && Spells(store[i], chains[i], InBucket(log, i))
    {
    }

    // table_each over one bucket: `next` is read before the callback runs.
    method EachInBucket(i: nat, evict: (nat, V) -> bool, visited: seq<Entry<V>>, ghost log0: seq<Entry<V>>, ghost gone0: set<Uri>)
      returns (visited': seq<Entry<V>>, ghost gone: set<Uri>)
      requires Valid() && i < HT_MIN_SIZE && UniqueKeys(log0) && UniqueKeys(log)
      requires log == Without(log0, gone0) && InBucket(log, i) == InBucket(log0, i)
      requires forall key <- gone0 :: Bucket(key) != i
      modifies this, store, nodes
      ensures Valid() && UniqueKeys(log) && nodes == old(nodes)
      ensures visited' == visited + InBucket(log0, i)
      ensures log == Without(log0, gone)
      ensures gone0 <= gone && forall key <- gone - gone0 :: Bucket(key) == i
      ensures Chosen(InBucket(log0, i), |visited|, evict, gone)
    {
      hide InBucket, Without, Bucket, Valid;
      BucketSpells(i);
      ghost var chain := chains[i];
      ghost var es := InBucket(log0, i);
      StartOfChain(store[i], chain, es);
      BucketUnique(log0, i);
      hide Spells, UniqueKeys, Visited;
      visited', gone := visited, gone0;
      ghost var kept: seq<Node<V>>, j := [], 0;
      assert [] + chain[0..] == chain;
      NothingVisited(es, visited, evict, i, gone0);
      var node := store[i];
      while node != null
        invariant Valid() && UniqueKeys(log) && nodes == old(nodes) && log == Without(log0, gone)
        invariant i < |chains| && i < store.Length
        invariant 0 <= j <= |chain| && node == At(chain, j) && chains[i] == kept + chain[j..]
        invariant Visited(es, j, visited, visited', evict, i, gone0, gone)
        decreases |chain| - j
      {
        BucketSpells(i);
        NextInChain(store[i], kept, chain, j, InBucket(log, i));
        var next := node.next;
        EntryOf(chain, es, j);
        var asked := evict(|visited'|, node.val);
        OneVisited(es, j, visited, visited', evict, i, gone0, gone);
        kept := Visit(node, asked, i, kept, chain, j, log0, gone);
        gone := if asked then gone + {node.key} else gone;
        visited' := visited' + [Entry(node.key, node.val)];
        node, j := next, j + 1;
      }
      AllVisited(es, visited, visited', evict, i, gone0, gone);
    }

    // table_each with the eviction callback: each entry is visited once, and afterwards just the
    // entries whose visit asked for it are gone; the others keep their order.
    method Each(evict: (nat, V) -> bool) returns (visited: seq<Entry<V>>, ghost gone: set<Uri>)
      requires Valid() && UniqueKeys(log)
      modifies this, store, nodes
      ensures Valid() && visited == Visits(old(log), HT_MIN_SIZE) && log == Without(old(log), gone)
      ensures forall k :: 0 <= k < |visited| ==> (visited[k] in log <==> !evict(k, visited[k].val))
    {
      hide InBucket, Without, Bucket, Valid, UniqueKeys, Chosen;
      ghost var log0 := log;
      visited, gone := [], {};
      WithoutNone(log);
      NothingChosen(evict, gone);
      var i := 0;
      while i < HT_MIN_SIZE
        invariant 0 <= i <= HT_MIN_SIZE && Valid() && UniqueKeys(log) && nodes == old(nodes)
        invariant visited == Visits(log0, i) && log == Without(log0, gone)
        invariant forall key <- gone :: Bucket(key) < i
        invariant Chosen(visited, 0, evict, gone)
      {
        OtherBucket(log0, gone, i);
        ghost var past := gone;
        ghost var before := visited;
        visited, gone := EachInBucket(i, evict, visited, log0, gone);
        ChosenSum(log0, i, before, evict, past, gone);
        i := i + 1;
      }
      forall k | 0 <= k < |visited| ensures visited[k] in log <==> !evict(k, visited[k].val) {
        InVisits(log0, HT_MIN_SIZE, visited[k]);
        InWithout(log0, gone, visited[k]);
        ChosenAt(visited, evict, gone, k);
      }
    }
  }
}
