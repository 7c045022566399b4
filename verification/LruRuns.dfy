/**
Runs of a cache of bounded capacity: what is stored, what is thrown out, and in which order.
*/
module LruRuns {
  import opened Lru

  datatype Op<V> = PutOp(key: string, value: V) | GetOp(key: string) | RemoveOp(key: string) | RemoveAllOp

  ghost function Apply<V>(m: Model<V>, op: Op<V>, capacity: nat): Model<V> {
    match op
    case PutOp(key, value) => PutInto(m, key, value, capacity)
    case GetOp(key) => GetFrom(m, key)
    case RemoveOp(key) => RemoveFrom(m, key)
    case RemoveAllOp => Model(map[], [])
  }

  ghost function After<V>(ops: seq<Op<V>>, capacity: nat): Model<V> {
    if ops == [] then Model(map[], []) else Apply(After(ops[..|ops| - 1], capacity), ops[|ops| - 1], capacity)
  }

  ghost predicate Touches<V>(op: Op<V>, key: string) {
    (op.PutOp? || op.GetOp?) && op.key == key
  }

  // The step that last put or got the key; -1 when there is none.
  ghost function LastTouch<V>(ops: seq<Op<V>>, key: string): (t: int)
    ensures -1 <= t < |ops|
  {
    if ops == [] then -1
    else if Touches(ops[|ops| - 1], key) then |ops| - 1
    else LastTouch(ops[..|ops| - 1], key)
  }

  ghost function LastPut<V>(ops: seq<Op<V>>, key: string): (t: int)
    ensures -1 <= t < |ops| && (t >= 0 ==> ops[t].PutOp? && ops[t].key == key)
  {
    if ops == [] then -1
    else if ops[|ops| - 1].PutOp? && ops[|ops| - 1].key == key then |ops| - 1
    else LastPut(ops[..|ops| - 1], key)
  }

  // ----- lists of keys ------------------------------------------------------------------------

  lemma {:induction false} DropFacts(s: seq<string>, x: string)
    requires Lru.Distinct(s)
    ensures Lru.Distinct(Drop(s, x)) && x !in Drop(s, x) && |Drop(s, x)| == |s| - (if x in s then 1 else 0)
    ensures forall k :: k in Drop(s, x) <==> k in s && k != x
  {
    if x in s {
      var i := IndexOf(s, x);
      DropSplit(s, i, x);
      Others(s, i);
    } else {
      DropNothing(s, x);
    }
  }

  // From the least to the most recently touched.
  ghost predicate Sorted<V>(s: seq<string>, ops: seq<Op<V>>) {
    forall i, j :: 0 <= i < j < |s| ==> LastTouch(ops, s[i]) < LastTouch(ops, s[j])
  }

  lemma {:induction false} DropSorted<V>(s: seq<string>, x: string, ops: seq<Op<V>>)
    requires Lru.Distinct(s) && Sorted(s, ops)
    ensures Sorted(Drop(s, x), ops)
  {
    hide LastTouch, Drop;
    if x in s {
      var k := IndexOf(s, x);
      DropSplit(s, k, x);
      var d := Drop(s, x);
      forall i, j | 0 <= i < j < |d| ensures LastTouch(ops, d[i]) < LastTouch(ops, d[j]) {
        assert d[i] == s[if i < k then i else i + 1] && d[j] == s[if j < k then j else j + 1];
      }
    } else {
      DropNothing(s, x);
    }
  }

  lemma {:induction false} SameTouches<V>(s: seq<string>, ops: seq<Op<V>>, op: Op<V>)
    requires Sorted(s, ops) && forall k <- s :: !Touches(op, k)
    ensures Sorted(s, ops + [op])
  {
    assert (ops + [op])[..|ops|] == ops;
    forall i, j | 0 <= i < j < |s| ensures LastTouch(ops + [op], s[i]) < LastTouch(ops + [op], s[j]) {
      assert s[i] in s && s[j] in s;
    }
  }

  lemma {:induction false} TouchSorted<V>(s: seq<string>, ops: seq<Op<V>>, op: Op<V>)
    requires Lru.Distinct(s) && Sorted(s, ops) && (op.PutOp? || op.GetOp?)
    ensures Sorted(Touch(s, op.key), ops + [op])
  {
    hide Drop;
    DropFacts(s, op.key);
    DropSorted(s, op.key, ops);
    SameTouches(Drop(s, op.key), ops, op);
    assert (ops + [op])[..|ops|] == ops;
    var s' := Touch(s, op.key);
    forall i, j | 0 <= i < j < |s'| ensures LastTouch(ops + [op], s'[i]) < LastTouch(ops + [op], s'[j]) {
      assert s'[i] in Drop(s, op.key);
    }
  }

  // ----- every run ----------------------------------------------------------------------------

  ghost predicate Bounded<V>(m: Model<V>, capacity: nat) {
    Sound(m) && |m.recency| <= capacity && |m.data| == |m.recency|
  }

  lemma {:induction false} KeyCount<V>(m: Model<V>)
    requires Sound(m)
    ensures |m.data| == |m.recency|
  {
    DistinctCount(m.recency);
    assert |m.data| == |m.data.Keys|;
  }

  lemma {:induction false} DistinctCount(s: seq<string>)
    requires Lru.Distinct(s)
    ensures |set k | k in s| == |s|
  {
    if s != [] {
      var rest := s[..|s| - 1];
      DistinctCount(rest);
      assert s == rest + [s[|s| - 1]];
      assert (set k | k in s) == (set k | k in rest) + {s[|s| - 1]};
    }
  }

  lemma {:induction false} RemoveSound<V>(m: Model<V>, key: string)
    requires Sound(m)
    ensures Sound(RemoveFrom(m, key)) && |RemoveFrom(m, key).recency| == |m.recency| - (if key in m.data then 1 else 0)
    ensures RemoveFrom(m, key).data == m.data - {key}
  {
    DropFacts(m.recency, key);
    hide Drop;
    assert key !in m.data ==> m.data - {key} == m.data;
  }

  lemma {:induction false} TouchSound<V>(m: Model<V>, key: string, data: map<string, V>)
    requires Sound(m) && data.Keys == m.data.Keys + {key}
    ensures var m' := Model(data, Touch(m.recency, key));
            && Sound(m') && |m'.recency| == |m.recency| + (if key in m.data then 0 else 1)
            && m'.recency[|m'.recency| - 1] == key
  {
    DropFacts(m.recency, key);
    hide Drop;
  }

  lemma {:induction false} ApplyBounded<V>(m: Model<V>, op: Op<V>, capacity: nat)
    requires Bounded(m, capacity) && capacity >= 1
    ensures Bounded(Apply(m, op, capacity), capacity)
  {
    hide Drop, Touch;
    match op
    case PutOp(key, value) =>
      TouchSound(m, key, m.data[key := value]);
      var full := Model(m.data[key := value], Touch(m.recency, key));
      RemoveSound(full, full.recency[0]);
      KeyCount(PutInto(m, key, value, capacity));
    case GetOp(key) =>
      if key in m.data {
        TouchSound(m, key, m.data);
      }
      KeyCount(GetFrom(m, key));
    case RemoveOp(key) =>
      RemoveSound(m, key);
      KeyCount(RemoveFrom(m, key));
    case RemoveAllOp =>
  }

  // The capacity is never exceeded, and the list names each stored key once.
  lemma {:induction false} RunBounded<V>(ops: seq<Op<V>>, capacity: nat)
    requires capacity >= 1
    ensures Bounded(After(ops, capacity), capacity)
  {
    if ops != [] {
      RunBounded(ops[..|ops| - 1], capacity);
      ApplyBounded(After(ops[..|ops| - 1], capacity), ops[|ops| - 1], capacity);
    }
  }

  lemma {:induction false} ApplySorted<V>(m: Model<V>, ops: seq<Op<V>>, op: Op<V>, capacity: nat)
    requires Bounded(m, capacity) && capacity >= 1 && Sorted(m.recency, ops)
    ensures Sorted(Apply(m, op, capacity).recency, ops + [op])
  {
    hide Drop, Touch;
    match op
    case PutOp(key, value) =>
      TouchSound(m, key, m.data[key := value]);
      TouchSorted(m.recency, ops, op);
      var full := Model(m.data[key := value], Touch(m.recency, key));
      DropSorted(full.recency, full.recency[0], ops + [op]);
    case GetOp(key) =>
      if key in m.data {
        TouchSorted(m.recency, ops, op);
      } else {
        SameTouches(m.recency, ops, op);
      }
    case RemoveOp(key) =>
      SameTouches(m.recency, ops, op);
      DropSorted(m.recency, key, ops + [op]);
    case RemoveAllOp =>
  }

  // In every run the list is sorted by the step that last put or got each key.
  lemma {:induction false} RunSorted<V>(ops: seq<Op<V>>, capacity: nat)
    requires capacity >= 1
    ensures Sorted(After(ops, capacity).recency, ops)
  {
    if ops != [] {
      var before := ops[..|ops| - 1];
      RunSorted(before, capacity);
      RunBounded(before, capacity);
      ApplySorted(After(before, capacity), before, ops[|ops| - 1], capacity);
      assert before + [ops[|ops| - 1]] == ops;
    }
  }

  // k is the stored key whose last use lies furthest back.
  ghost predicate LeastRecent<V>(ops: seq<Op<V>>, m: Model<V>, k: string) {
    k in m.data && forall x <- m.data :: x != k ==> LastTouch(ops, k) < LastTouch(ops, x)
  }

  lemma {:induction false} FirstIsLeastRecent<V>(ops: seq<Op<V>>, m: Model<V>, k: string)
    requires Sound(m) && Sorted(m.recency, ops) && m.recency != []
    ensures LeastRecent(ops, m, k) <==> k == m.recency[0]
  {
    assert m.recency[0] in m.data;
    forall x | x in m.data && x != m.recency[0] ensures LastTouch(ops, m.recency[0]) < LastTouch(ops, x) {
      var i :| 0 <= i < |m.recency| && m.recency[i] == x;
    }
  }

  // A put throws another key out just when the cache is full and its own key is new, and then the
  // least recently used one.
  lemma {:induction false} EvictsLeastRecent<V>(ops: seq<Op<V>>, key: string, value: V, capacity: nat, k: string)
    requires capacity >= 1 && k in After(ops, capacity).data && k != key
    ensures var m := After(ops, capacity);
            k !in PutInto(m, key, value, capacity).data
            <==> |m.data| == capacity && key !in m.data && LeastRecent(ops, m, k)
  {
    hide *;
    var m := After(ops, capacity);
    RunBounded(ops, capacity);
    RunSorted(ops, capacity);
    BoundedIs(m, capacity);
    KeyIn(m, k);
    FirstIsLeastRecent(ops, m, k);
    PutData(m, key, value, capacity);
  }

  lemma {:induction false} BoundedIs<V>(m: Model<V>, capacity: nat)
    requires Bounded(m, capacity)
    ensures Sound(m) && |m.recency| <= capacity && |m.data| == |m.recency|
  {
  }

  lemma {:induction false} KeyIn<V>(m: Model<V>, k: string)
    requires Sound(m) && k in m.data
    ensures m.recency != []
  {
  }

  lemma {:induction false} KeyListed<V>(m: Model<V>, key: string)
    requires Sound(m)
    ensures key in m.recency <==> key in m.data
  {
    assert key in m.data <==> key in m.data.Keys;
  }

  lemma {:induction false} PutData<V>(m: Model<V>, key: string, value: V, capacity: nat)
    requires Bounded(m, capacity) && capacity >= 1
    ensures PutInto(m, key, value, capacity).data
            == if |m.recency| == capacity && key !in m.data then m.data[key := value] - {m.recency[0]} else m.data[key := value]
  {
    hide Touch, Drop, RemoveFrom, Sound;
    BoundedIs(m, capacity);
    var full := Model(m.data[key := value], Touch(m.recency, key));
    TouchSound(m, key, m.data[key := value]);
    RemoveSound(full, full.recency[0]);
    if key !in m.data && m.recency != [] {
      KeyListed(m, key);
      FirstTouched(m.recency, key);
    }
  }

  lemma {:induction false} FirstTouched(s: seq<string>, key: string)
    requires key !in s && s != []
    ensures Touch(s, key)[0] == s[0]
  {
    DropNothing(s, key);
  }

  // ----- what get returns ---------------------------------------------------------------------

  // Step t takes the key out of the cache.
  ghost predicate Loses<V>(ops: seq<Op<V>>, t: nat, key: string, capacity: nat)
    requires t < |ops|
  {
    key in After(ops[..t], capacity).data && key !in After(ops[..t + 1], capacity).data
  }

  lemma {:induction false} ApplyStores<V>(m: Model<V>, op: Op<V>, capacity: nat, k: string)
    requires Bounded(m, capacity) && capacity >= 1
    ensures var m' := Apply(m, op, capacity);
            && (op.PutOp? && op.key == k ==> k in m'.data && m'.data[k] == op.value)
            && (!(op.PutOp? && op.key == k) && k in m'.data ==> k in m.data && m'.data[k] == m.data[k])
  {
    hide Drop, Touch;
    match op
    case PutOp(key, value) =>
      TouchSound(m, key, m.data[key := value]);
      var full := Model(m.data[key := value], Touch(m.recency, key));
      RemoveSound(full, full.recency[0]);
      assert |full.recency| > 1 ==> full.recency[0] != full.recency[|full.recency| - 1];
    case _ =>
  }

  // A key is stored just when it was put and no step since took it out, and then with the value
  // last put.
  lemma {:induction false} StoresLastPut<V>(ops: seq<Op<V>>, key: string, capacity: nat)
    requires capacity >= 1
    ensures var m, t := After(ops, capacity), LastPut(ops, key);
            && (key in m.data <==> t >= 0 && forall u :: t < u < |ops| ==> !Loses(ops, u, key, capacity))
            && (key in m.data ==> m.data[key] == ops[t].value)
  {
    if ops != [] {
      hide Apply, Loses, Bounded, After;
      var n := |ops| - 1;
      var before, op := ops[..n], ops[n];
      StoresLastPut(before, key, capacity);
      RunBounded(before, capacity);
      ApplyStores(After(before, capacity), op, capacity, key);
      AfterStep(ops, capacity);
      SameLosses(ops, key, capacity);
      if !(op.PutOp? && op.key == key) {
        var t := LastPut(before, key);
        assert LastPut(ops, key) == t && (t >= 0 ==> ops[t] == before[t]);
      }
    } else {
      AfterNone<V>(capacity);
    }
  }

  lemma {:induction false} AfterNone<V>(capacity: nat)
    ensures After<V>([], capacity).data == map[]
  {
  }

  lemma {:induction false} AfterStep<V>(ops: seq<Op<V>>, capacity: nat)
    requires ops != []
    ensures After(ops, capacity) == Apply(After(ops[..|ops| - 1], capacity), ops[|ops| - 1], capacity)
  {
  }

  lemma {:induction false} SameLosses<V>(ops: seq<Op<V>>, key: string, capacity: nat)
    requires ops != []
    ensures var n := |ops| - 1;
            && (forall u: nat :: u < n ==> Loses(ops, u, key, capacity) == Loses(ops[..n], u, key, capacity))
            && (Loses(ops, n, key, capacity) <==> key in After(ops[..n], capacity).data && key !in After(ops, capacity).data)
  {
    var n := |ops| - 1;
    hide After;
    assert ops[..n + 1] == ops;
    forall u: nat | u < n ensures Loses(ops, u, key, capacity) == Loses(ops[..n], u, key, capacity) {
      assert ops[..n][..u] == ops[..u] && ops[..n][..u + 1] == ops[..u + 1];
    }
  }

  // What takes a key out: remove, removeAll, or a put that finds the cache full of keys used since.
  lemma {:induction false} LostBy<V>(ops: seq<Op<V>>, t: nat, key: string, capacity: nat)
    requires t < |ops| && capacity >= 1 && key in After(ops[..t], capacity).data
    ensures var m, op := After(ops[..t], capacity), ops[t];
            Loses(ops, t, key, capacity)
            <==> || op == RemoveOp(key) || op == RemoveAllOp
                 || (op.PutOp? && op.key != key && |m.data| == capacity && op.key !in m.data && LeastRecent(ops[..t], m, key))
  {
    var m, op := After(ops[..t], capacity), ops[t];
    assert ops[..t + 1][..t] == ops[..t];
    assert After(ops[..t + 1], capacity) == Apply(m, op, capacity);
    RunBounded(ops[..t], capacity);
    ApplyStores(m, op, capacity, key);
    if op.PutOp? && op.key != key {
      EvictsLeastRecent(ops[..t], op.key, op.value, capacity, key);
    }
    RemoveSound(m, key);
    hide After, LeastRecent, PutInto;
    if op.RemoveOp? {
      RemoveSound(m, op.key);
    }
  }
}
