/**
The caches of $cacheFactory: a hash and a doubly linked list of entries, most recently used last.
*/
module Lru {
  import opened Options

  // ----- what a cache stands for --------------------------------------------------------------

  // The stored values, and the keys from the least to the most recently used.
  datatype Model<V> = Model(data: map<string, V>, recency: seq<string>)

  function Drop<T(==)>(s: seq<T>, x: T): (r: seq<T>)
    ensures |r| <= |s|
  {
    if s == [] then []
    else if s[0] == x then s[1..]
    else [s[0]] + Drop(s[1..], x)
  }

  function Touch<T(==)>(s: seq<T>, x: T): seq<T> {
    Drop(s, x) + [x]
  }

  ghost predicate Distinct<T>(s: seq<T>) {
    forall i, j :: 0 <= i < j < |s| ==> s[i] != s[j]
  }

  ghost predicate Sound<V>(m: Model<V>) {
    Distinct(m.recency) && m.data.Keys == set k | k in m.recency
  }

  ghost function RemoveFrom<V>(m: Model<V>, key: string): Model<V> {
    if key in m.data then Model(m.data - {key}, Drop(m.recency, key)) else m
  }

  ghost function GetFrom<V>(m: Model<V>, key: string): Model<V> {
    if key in m.data then Model(m.data, Touch(m.recency, key)) else m
  }

  ghost function PutInto<V>(m: Model<V>, key: string, value: V, capacity: nat): Model<V> {
    var full := Model(m.data[key := value], Touch(m.recency, key));
    if |full.recency| > capacity then RemoveFrom(full, full.recency[0]) else full
  }

  lemma {:induction false} DropSplit<T>(s: seq<T>, k: nat, x: T)
    requires k < |s| && s[k] == x && forall i :: 0 <= i < k ==> s[i] != x
    ensures Drop(s, x) == s[..k] + s[k + 1..]
  {
    if k > 0 {
      DropSplit(s[1..], k - 1, x);
      assert s[1..][..k - 1] == s[1..k];
      assert [s[0]] + s[1..k] == s[..k];
      assert s[1..][k..] == s[k + 1..];
    }
  }

  lemma {:induction false} DropNothing<T>(s: seq<T>, x: T)
    requires x !in s
    ensures Drop(s, x) == s
  {
    if s != [] {
      assert s[0] in s;
      DropNothing(s[1..], x);
    }
  }

  // ----- the linked list ----------------------------------------------------------------------

  class Entry {
    const key: string
    var n: Entry?
    var p: Entry?

    constructor (key: string)
      ensures this.key == key && n == null && p == null
    {
      this.key := key;
      n, p := null, null;
    }
  }

  ghost function EntryAt(o: seq<Entry>, i: int): Entry? {
    if 0 <= i < |o| then o[i] else null
  }

  ghost predicate LinkAt(o: seq<Entry>, i: nat)
    requires i < |o|
    reads o
  {
    o[i].n == EntryAt(o, i + 1) && o[i].p == EntryAt(o, i - 1)
  }

  ghost function KeysOf(o: seq<Entry>): (r: seq<string>)
    ensures |r| == |o| && forall i :: 0 <= i < |o| ==> r[i] == o[i].key
  {
    seq(|o|, i requires 0 <= i < |o| => o[i].key)
  }

  // The hash names just the entries of the list, each under its key.
  ghost predicate Indexes(hash: map<string, Entry>, o: seq<Entry>) {
    && (forall e <- o :: e.key in hash && hash[e.key] == e)
    && (forall k <- hash :: hash[k] in o && hash[k].key == k)
  }

  lemma {:induction false} KeysDistinct(hash: map<string, Entry>, o: seq<Entry>)
    requires Indexes(hash, o) && Distinct(o)
    ensures Distinct(KeysOf(o))
  {
    forall i, j | 0 <= i < j < |o| ensures o[i].key != o[j].key {
      assert hash[o[i].key] == o[i] && hash[o[j].key] == o[j];
    }
  }

  // Where the entries of a touched list were before: entry moved from k to the end.
  lemma {:induction false} TouchSplit<T>(o: seq<T>, x: T, k: nat)
    requires Distinct(o) && k <= |o| && (if k < |o| then o[k] == x else x !in o)
    ensures Touch(o, x) == (if k < |o| then o[..k] + o[k + 1..] else o) + [x] && Distinct(Touch(o, x))
  {
    if k < |o| {
      DropSplit(o, k, x);
    } else {
      DropNothing(o, x);
    }
  }

  class Cache<V> {
    var size: int
    const capacity: nat
    var data: map<string, V>
    var lruHash: map<string, Entry>
    var freshEnd: Entry?
    var staleEnd: Entry?
    // the entries from staleEnd to freshEnd
    ghost var order: seq<Entry>

    // n and p spell the entries in both directions.
    ghost predicate Spells(o: seq<Entry>)
      reads this`staleEnd, this`freshEnd, o
    {
      && Distinct(o) && staleEnd == EntryAt(o, 0) && freshEnd == EntryAt(o, |o| - 1)
      && forall i :: 0 <= i < |o| ==> LinkAt(o, i)
    }

    ghost function Keys(): seq<string>
      reads this, order
    {
      KeysOf(order)
    }

    ghost function View(): Model<V>
      reads this, order
    {
      Model(data, Keys())
    }

    // In the middle of put the cache may hold one entry too many.
    ghost predicate Whole()
      reads this, order
    {
      Spells(order) && Indexes(lruHash, order) && data.Keys == lruHash.Keys && size == |order|
    }

    ghost predicate Valid()
      reads this, order
    {
      Whole() && capacity >= 1 && size <= capacity
    }

    constructor (capacity: nat)
      requires capacity >= 1
      ensures Valid() && View() == Model(map[], []) && this.capacity == capacity
    {
      size, this.capacity, data, lruHash := 0, capacity, map[], map[];
      freshEnd, staleEnd, order := null, null, [];
    }

    // bidirectionally links two entries
    method Link(nextEntry: Entry?, prevEntry: Entry?)
      modifies (if nextEntry == null then {} else {nextEntry})`p
      modifies (if prevEntry == null then {} else {prevEntry})`n
      ensures nextEntry != prevEntry && nextEntry != null ==> nextEntry.p == prevEntry
      ensures nextEntry != prevEntry && prevEntry != null ==> prevEntry.n == nextEntry
      ensures nextEntry == prevEntry && nextEntry != null ==> nextEntry.p == old(nextEntry.p) && nextEntry.n == old(nextEntry.n)
    {
      if nextEntry != prevEntry {
        if nextEntry != null {
          nextEntry.p := prevEntry;
        }
        if prevEntry != null {
          prevEntry.n := nextEntry;
        }
      }
    }

    // makes the entry the fresh end of the list
    method Refresh(entry: Entry, ghost o: seq<Entry>)
      requires Spells(o) && (entry in o || (entry.n == null && entry.p == null))
      modifies this`freshEnd, this`staleEnd, entry, o
      ensures Spells(Touch(o, entry))
    {
      ghost var k := if entry in o then IndexOf(o, entry) else |o|;
      TouchSplit(o, entry, k);
      ghost var o' := Touch(o, entry);
      hide Touch, Drop;
      if entry == freshEnd {
        assert k == |o| - 1 && o' == o;
      } else {
        assert k < |o| ==> LinkAt(o, k);
        if staleEnd == null {
          staleEnd := entry;
        } else if staleEnd == entry {
          staleEnd := entry.n;
        }
        Link(entry.n, entry.p);
        Link(entry, freshEnd);
        freshEnd := entry;
        freshEnd.n := null;
        forall j: nat | j < |o| && j != k ensures Joins(o, k, entry, j) {
          assert old(LinkAt(o, j));
        }
        Joined(o, k, entry, o');
      }
    }

    // The links of the j-th entry once the k-th is at the end.
    ghost predicate Joins(o: seq<Entry>, k: nat, entry: Entry, j: nat)
      requires j < |o|
      reads o
    {
      && o[j].n == (if j == |o| - 1 then entry else EntryAt(o, if j + 1 == k then k + 1 else j + 1))
      && o[j].p == EntryAt(o, if j == k + 1 then k - 1 else j - 1)
    }

    lemma {:induction false} Joined(o: seq<Entry>, k: nat, entry: Entry, o': seq<Entry>)
      requires k <= |o| && (k < |o| ==> o[k] == entry && k + 1 < |o|)
      requires o' == (if k < |o| then o[..k] + o[k + 1..] else o) + [entry]
      requires entry.n == null && entry.p == EntryAt(o, |o| - 1)
      requires forall j: nat :: j < |o| && j != k ==> Joins(o, k, entry, j)
      ensures forall i :: 0 <= i < |o'| ==> LinkAt(o', i)
    {
      forall i: nat | i < |o'| ensures LinkAt(o', i) {
        if i + 1 < |o'| {
          assert Joins(o, k, entry, if i < k then i else i + 1);
        }
      }
    }

    method Get(key: string) returns (r: Option<V>)
      requires Valid()
      modifies this`freshEnd, this`staleEnd, this`order, order
      ensures Valid() && View() == GetFrom(old(View()), key)
      ensures r == if key in old(data) then Some(old(data)[key]) else None
    {
      hide Touch, Drop, Distinct, Indexes, KeysOf;
      if key !in lruHash {
        return None;
      }
      var lruEntry := lruHash[key];
      HashAt(lruHash, order, key);
      IndexesTouched(lruHash, order, lruEntry);
      Refresh(lruEntry, order);
      order := Touch(order, lruEntry);
      r := Some(data[key]);
    }

    method Remove(key: string)
      requires Whole()
      modifies this`freshEnd, this`staleEnd, this`order, this`size, this`data, this`lruHash, order
      ensures Whole() && View() == RemoveFrom(old(View()), key)
      ensures key in old(data) ==> size == old(size) - 1
    {
      hide Touch, Drop, Distinct, Indexes, KeysOf;
      if key !in lruHash {
        return;
      }
      var lruEntry := lruHash[key];
      HashAt(lruHash, order, key);
      ghost var k := IndexOf(order, lruEntry);
      Unlink(lruEntry, order, k);
      IndexesRemoved(lruHash, order, lruEntry, k);
      order := order[..k] + order[k + 1..];
      lruHash := lruHash - {key};
      data := data - {key};
      size := size - 1;
    }

    // The links of remove.
    method Unlink(lruEntry: Entry, ghost o: seq<Entry>, ghost k: nat)
      requires Spells(o) && k < |o| && o[k] == lruEntry
      modifies this`freshEnd, this`staleEnd, o
      ensures Spells(o[..k] + o[k + 1..])
    {
      assert LinkAt(o, k);
      if lruEntry == freshEnd {
        freshEnd := lruEntry.p;
      }
      if lruEntry == staleEnd {
        staleEnd := lruEntry.n;
      }
      Link(lruEntry.n, lruEntry.p);
      ghost var o' := o[..k] + o[k + 1..];
      forall i: nat | i < |o'| ensures LinkAt(o', i) {
        assert old(LinkAt(o, if i < k then i else i + 1));
      }
    }

    method RemoveAll()
      requires Valid()
      modifies this`freshEnd, this`staleEnd, this`order, this`size, this`data, this`lruHash
      ensures Valid() && View() == Model(map[], [])
    {
      data, size, lruHash := map[], 0, map[];
      freshEnd, staleEnd, order := null, null, [];
    }

    lemma {:induction false} SpelledOnce(o: seq<Entry>)
      requires Spells(o)
      ensures Distinct(o)
    {
    }

    // The entry under the key, which is made if there is none.
    method EntryOf(key: string) returns (lruEntry: Entry)
      requires Whole()
      modifies this`lruHash
      ensures Spells(order) && (lruEntry in order || (fresh(lruEntry) && lruEntry.n == null && lruEntry.p == null))
      ensures Indexes(lruHash, Touch(order, lruEntry)) && KeysOf(Touch(order, lruEntry)) == Touch(KeysOf(order), key)
      ensures |Touch(order, lruEntry)| == |order| + (if key in data then 0 else 1) && lruHash.Keys == data.Keys + {key}
      ensures forall i :: 0 <= i < |Touch(order, lruEntry)| ==> Touch(order, lruEntry)[i] in order || Touch(order, lruEntry)[i] == lruEntry
    {
      hide Touch, Drop, Distinct, Indexes, KeysOf;
      SpelledOnce(order);
      if key in lruHash {
        lruEntry := lruHash[key];
        HashAt(lruHash, order, key);
      } else {
        lruEntry := new Entry(key);
        NotHashed(lruHash, order, lruEntry);
      }
      IndexesTouched(lruHash, order, lruEntry);
      lruHash := lruHash[key := lruEntry];
    }

    // put, up to the check of the capacity
    method Store(key: string, value: V)
      requires Valid()
      modifies this`freshEnd, this`staleEnd, this`order, this`size, this`data, this`lruHash, order
      ensures Whole() && size <= capacity + 1 && data == old(data)[key := value] && Keys() == Touch(old(Keys()), key)
      ensures forall i :: 0 <= i < |order| ==> order[i] in old(order) || fresh(order[i])
    {
      hide Touch, Drop, Distinct, Indexes, KeysOf, Spells;
      var lruEntry := EntryOf(key);
      Refresh(lruEntry, order);
      order := Touch(order, lruEntry);
      if key !in data {
        size := size + 1;
      }
      data := data[key := value];
    }

    method Put(key: string, value: V)
      requires Valid()
      modifies this`freshEnd, this`staleEnd, this`order, this`size, this`data, this`lruHash, order
      ensures Valid() && View() == PutInto(old(View()), key, value, capacity)
    {
      hide Touch, Drop, Distinct, Indexes, KeysOf, Spells;
      Store(key, value);
      FirstKey(lruHash, order);
      if size > capacity {
        StaleFirst(order);
        Remove(staleEnd.key);
      }
    }

    lemma {:induction false} StaleFirst(o: seq<Entry>)
      requires Spells(o)
      ensures staleEnd == EntryAt(o, 0)
    {
    }
  }

  lemma {:induction false} FirstKey(hash: map<string, Entry>, o: seq<Entry>)
    requires Indexes(hash, o)
    ensures o != [] ==> KeysOf(o) != [] && KeysOf(o)[0] == o[0].key && o[0].key in hash
  {
  }

  lemma {:induction false} HashAt(hash: map<string, Entry>, o: seq<Entry>, key: string)
    requires Indexes(hash, o) && key in hash
    ensures hash[key] in o && hash[key].key == key
  {
  }

  lemma {:induction false} NotHashed(hash: map<string, Entry>, o: seq<Entry>, e: Entry)
    requires Indexes(hash, o) && e.key !in hash
    ensures e !in o
  {
  }

  lemma {:induction false} KeysTouched(o: seq<Entry>, e: Entry)
    requires Distinct(o) && Distinct(KeysOf(o)) && (e in o <==> e.key in KeysOf(o))
    ensures KeysOf(Touch(o, e)) == Touch(KeysOf(o), e.key)
    ensures |Touch(o, e)| == |o| + if e in o then 0 else 1
    ensures forall x :: x in Touch(o, e) <==> x in o || x == e
    ensures forall i :: 0 <= i < |Touch(o, e)| ==> Touch(o, e)[i] in o || Touch(o, e)[i] == e
  {
    var k := if e in o then IndexOf(o, e) else |o|;
    TouchSplit(o, e, k);
    TouchSplit(KeysOf(o), e.key, k);
    hide Touch, Drop, Distinct;
    if e in o {
      MembersMoved(o, k);
    }
  }

  lemma {:induction false} MembersMoved<T>(o: seq<T>, k: nat)
    requires k < |o|
    ensures forall x :: x in o[..k] + o[k + 1..] + [o[k]] <==> x in o
  {
    assert o == o[..k] + [o[k]] + o[k + 1..];
  }

  // Touching an entry, be it old or new.
  lemma {:induction false} IndexesTouched(hash: map<string, Entry>, o: seq<Entry>, e: Entry)
    requires Indexes(hash, o) && Distinct(o) && (e in o || e.key !in hash)
    ensures Indexes(hash[e.key := e], Touch(o, e)) && KeysOf(Touch(o, e)) == Touch(KeysOf(o), e.key)
    ensures |Touch(o, e)| == |o| + (if e in o then 0 else 1) && forall i :: 0 <= i < |Touch(o, e)| ==> Touch(o, e)[i] in o || Touch(o, e)[i] == e
    ensures e in o <==> e.key in hash
    ensures e in o ==> hash[e.key := e] == hash
  {
    hide *;
    KeysDistinct(hash, o);
    KeyOf(hash, o, e);
    KeysTouched(o, e);
    IndexesMore(hash, o, e, Touch(o, e));
  }

  lemma {:induction false} IndexesMore(hash: map<string, Entry>, o: seq<Entry>, e: Entry, o': seq<Entry>)
    requires Indexes(hash, o) && (e in o || e.key !in hash) && forall x :: x in o' <==> x in o || x == e
    ensures Indexes(hash[e.key := e], o') && (e in o <==> e.key in hash) && (e in o ==> hash[e.key := e] == hash)
  {
  }

  lemma {:induction false} KeyOf(hash: map<string, Entry>, o: seq<Entry>, e: Entry)
    requires Indexes(hash, o) && (e in o || e.key !in hash)
    ensures e in o <==> e.key in KeysOf(o)
  {
    if e.key in KeysOf(o) {
      var i :| 0 <= i < |o| && KeysOf(o)[i] == e.key;
      assert o[i].key in hash;
    }
    if e in o {
      var i :| 0 <= i < |o| && o[i] == e;
      assert KeysOf(o)[i] == e.key;
    }
  }

  lemma {:induction false} IndexesRemoved(hash: map<string, Entry>, o: seq<Entry>, e: Entry, k: nat)
    requires Indexes(hash, o) && Distinct(o) && k < |o| && o[k] == e
    ensures Indexes(hash - {e.key}, o[..k] + o[k + 1..]) && KeysOf(o[..k] + o[k + 1..]) == Drop(KeysOf(o), e.key)
  {
    hide *;
    KeysDistinct(hash, o);
    KeysSplit(o, k);
    DropSplit(KeysOf(o), k, e.key);
    Others(o, k);
    IndexesFewer(hash, o, e, o[..k] + o[k + 1..]);
  }

  lemma {:induction false} KeysSplit(o: seq<Entry>, k: nat)
    requires k < |o| && Distinct(KeysOf(o))
    ensures KeysOf(o)[k] == o[k].key && forall i :: 0 <= i < k ==> KeysOf(o)[i] != o[k].key
    ensures KeysOf(o[..k] + o[k + 1..]) == KeysOf(o)[..k] + KeysOf(o)[k + 1..]
  {
  }

  lemma {:induction false} Others<T>(o: seq<T>, k: nat)
    requires k < |o| && Distinct(o)
    ensures forall x :: x in o[..k] + o[k + 1..] <==> x in o && x != o[k]
  {
    var o' := o[..k] + o[k + 1..];
    assert forall i :: 0 <= i < |o'| ==> o'[i] == o[if i < k then i else i + 1] != o[k];
    forall x | x in o && x != o[k] ensures x in o' {
      var i :| 0 <= i < |o| && o[i] == x;
      assert o'[if i < k then i else i - 1] == x;
    }
  }

  lemma {:induction false} IndexesFewer(hash: map<string, Entry>, o: seq<Entry>, e: Entry, o': seq<Entry>)
    requires Indexes(hash, o) && e in o && forall x :: x in o' <==> x in o && x != e
    ensures Indexes(hash - {e.key}, o')
  {
  }

  ghost function IndexOf<T>(s: seq<T>, x: T): (k: nat)
    requires x in s
    ensures k < |s| && s[k] == x && forall i :: 0 <= i < k ==> s[i] != x
  {
    if s[0] == x then 0 else 1 + IndexOf(s[1..], x)
  }
}
