/**
Every live pipe has exactly one owner: the pool, file and request operations hand pipes over
without losing or sharing one.
*/
module Ownership {
  import opened CacheState
  import opened Protocol

  // No pipe changes hands between `s` and `s'`.
  ghost predicate SamePlaces(s: State, s': State) {
    && s'.pipes.Keys == s.pipes.Keys && s'.files.Keys == s.files.Keys && s'.reqs.Keys == s.reqs.Keys
    && s'.workers.Keys == s.workers.Keys
    && (forall f <- s.files :: SamePipes(s.files[f], s'.files[f]))
    && (forall r <- s.reqs :: s'.reqs[r].buf == s.reqs[r].buf)
    && (forall t <- s.workers :: s'.workers[t].pipePool == s.workers[t].pipePool)
  }

  ghost predicate SamePipes(x: File, y: File) {
    x.headers == y.headers && x.chunks == y.chunks
  }

  lemma {:induction false} SameHolds(s: State, s': State, held: seq<PipeId>, slot: Slot, p: PipeId)
    requires SamePlaces(s, s') && Holds(s, held, slot, p)
    ensures Holds(s', held, slot, p)
  {
    if slot.HeaderOf? || slot.ChunkOf? {
      assert SamePipes(s.files[slot.f], s'.files[slot.f]);
    }
  }

  lemma {:induction false} SameOwnedBy(s: State, s': State, held: seq<PipeId>, owner: map<PipeId, Slot>)
    requires SamePlaces(s, s') && OwnedBy(s, held, owner)
    ensures OwnedBy(s', held, owner)
  {
    forall f | f in s'.files ensures FileOwned(s'.files[f], f, owner) {
      assert FileOwned(s.files[f], f, owner) && SamePipes(s.files[f], s'.files[f]);
    }
    forall t | t in s'.workers ensures PoolOwned(s'.workers[t].pipePool, t, owner) {
      assert PoolOwned(s.workers[t].pipePool, t, owner);
    }
    forall p | p in owner ensures Holds(s', held, owner[p], p) {
      SameHolds(s, s', held, owner[p], p);
    }
  }

  lemma {:induction false} SameOwners(s: State, s': State, held: seq<PipeId>)
    requires SamePlaces(s, s') && Owned(s, held)
    ensures Owned(s', held)
  {
    var owner :| OwnedBy(s, held, owner);
    SameOwnedBy(s, s', held, owner);
  }

  // A pooled pipe counts all it holds, and no handler has it in hand.
  ghost predicate Spare(s: State, held: seq<PipeId>, p: PipeId) {
    p in s.pipes && s.pipes[p].filled == |s.pipes[p].data| && p !in held
  }

  ghost predicate PoolSpare(s: State, t: Thread, held: seq<PipeId>) {
    t in s.workers && forall p <- s.workers[t].pipePool :: Spare(s, held, p)
  }

  lemma {:induction false} PooledNotWritten(s: State, held: seq<PipeId>, owner: map<PipeId, Slot>, t: Thread, p: PipeId)
    requires OwnedBy(s, held, owner) && t in s.workers && p in s.workers[t].pipePool
    ensures p in s.pipes && p !in held && !Writing(s, p)
  {
    assert PoolOwned(s.workers[t].pipePool, t, owner);
    assert OwnerIs(owner, p, PooledBy(t));
    forall f | f in s.files ensures s.files[f].headers != p {
      assert FileOwned(s.files[f], f, owner);
    }
  }

  lemma {:induction false} PoolIsSpare(s: State, held: seq<PipeId>, t: Thread)
    requires Owned(s, held) && PipesOk(s) && t in s.workers
    ensures PoolSpare(s, t, held)
  {
    var owner :| OwnedBy(s, held, owner);
    forall p | p in s.workers[t].pipePool ensures Spare(s, held, p) {
      PooledNotWritten(s, held, owner, t, p);
    }
  }

  lemma {:induction false} HeldIsLive(s: State, held: seq<PipeId>)
    requires Owned(s, held)
    ensures forall p <- held :: p in s.pipes
  {
    var owner :| OwnedBy(s, held, owner);
    forall p | p in held ensures p in s.pipes {
      assert OwnerIs(owner, p, InHand);
    }
  }

  lemma {:induction false} NoDupTail<T(!new)>(s: seq<T>)
    requires NoDup(s) && s != []
    ensures NoDup(s[1..]) && s[0] !in s[1..]
  {
  }

  lemma {:induction false} NoDupAppend<T(!new)>(s: seq<T>, x: T)
    requires NoDup(s) && x !in s
    ensures NoDup(s + [x])
  {
  }

  lemma {:induction false} SizeWith<K, V>(m: map<K, V>, k: K, v: V)
    ensures |m[k := v]| == |m| + if k in m then 0 else 1
  {
    assert m[k := v].Keys == m.Keys + {k};
    assert k in m ==> m.Keys + {k} == m.Keys;
    assert |m[k := v]| == |m[k := v].Keys| && |m| == |m.Keys|;
  }

  lemma {:induction false} SizeWithout<K, V>(m: map<K, V>, k: K)
    requires k in m
    ensures |m - {k}| == |m| - 1
  {
    assert (m - {k}).Keys == m.Keys - {k};
    assert |m - {k}| == |(m - {k}).Keys| && |m| == |m.Keys|;
  }

  // ----- pipe_buf_new -------------------------------------------------------------------------

  lemma {:induction false} PipeNewHolds(s: State, t: Thread, held: seq<PipeId>, slot: Slot, q: PipeId)
    requires t in s.workers && (forall p <- s.workers[t].pipePool :: p in s.pipes)
    requires Holds(s, held, slot, q) && q != PipeNew(s, t).1
    ensures Holds(PipeNew(s, t).0, held + [PipeNew(s, t).1], slot, q)
  {
    var pool := s.workers[t].pipePool;
    if pool != [] && slot == PooledBy(t) {
      assert q in pool[1..];
    }
  }

  // The new owner map agrees with the old one on every other pipe.
  lemma {:induction false} PipeNewFrom(s: State, t: Thread, held: seq<PipeId>, owner: map<PipeId, Slot>)
    requires OwnedBy(s, held, owner) && t in s.workers
    requires s.workers[t].pipePool == [] ==> s.nextPipe !in s.pipes
    ensures var (s', p) := PipeNew(s, t);
            && (p in owner ==> owner[p] == PooledBy(t))
            && s'.pipes.Keys == s.pipes.Keys + {p} && s'.files == s.files && s'.reqs == s.reqs && t in s'.workers
            && s'.workers == s.workers[t := s'.workers[t]]
            && s'.workers[t].pipePool == (if s.workers[t].pipePool == [] then [] else s.workers[t].pipePool[1..])
            && (s.workers[t].pipePool != [] ==> p == s.workers[t].pipePool[0])
            && (s.workers[t].pipePool == [] ==> p !in owner)
  {
    assert PoolOwned(s.workers[t].pipePool, t, owner);
    assert s.workers[t].pipePool != [] ==> OwnerIs(owner, s.workers[t].pipePool[0], PooledBy(t));
  }

  lemma {:induction false} OwnerStays(owner: map<PipeId, Slot>, p: PipeId, t: Thread, q: PipeId, slot: Slot)
    requires OwnerIs(owner, q, slot) && (p in owner ==> owner[p] == PooledBy(t)) && slot != PooledBy(t)
    ensures OwnerIs(owner[p := InHand], q, slot) && q != p
  {
  }

  lemma {:induction false} FileStaysOwned(file: File, f: FileId, owner: map<PipeId, Slot>, p: PipeId, t: Thread)
    requires FileOwned(file, f, owner) && (p in owner ==> owner[p] == PooledBy(t))
    ensures FileOwned(file, f, owner[p := InHand])
  {
  }

  lemma {:induction false} PoolStaysOwned(pool: seq<PipeId>, u: Thread, owner: map<PipeId, Slot>, p: PipeId)
    requires PoolOwned(pool, u, owner)
    ensures p !in pool ==> PoolOwned(pool, u, owner[p := InHand])
    ensures pool != [] && p == pool[0] ==> PoolOwned(pool[1..], u, owner[p := InHand])
  {
    if pool != [] {
      NoDupTail(pool);
      assert forall q <- pool[1..] :: q in pool;
    }
    forall q | q in pool && q != p ensures OwnerIs(owner[p := InHand], q, PooledBy(u)) {
      assert OwnerIs(owner, q, PooledBy(u));
    }
  }

  lemma {:induction false} HeldStaysOwned(held: seq<PipeId>, owner: map<PipeId, Slot>, p: PipeId, t: Thread)
    requires InHandOwned(held, owner) && (p in owner ==> owner[p] == PooledBy(t))
    ensures InHandOwned(held + [p], owner[p := InHand])
  {
    forall q | q in held ensures q != p {
      assert OwnerIs(owner, q, InHand);
    }
    NoDupAppend(held, p);
  }

  lemma {:induction false} PipeNewOwnedBy(s: State, t: Thread, held: seq<PipeId>, owner: map<PipeId, Slot>)
    requires OwnedBy(s, held, owner) && t in s.workers
    requires forall p <- s.workers[t].pipePool :: p in s.pipes
    requires s.workers[t].pipePool == [] ==> s.nextPipe !in s.pipes
    ensures var (s', p) := PipeNew(s, t); OwnedBy(s', held + [p], owner[p := InHand])
  {
    var (s', p) := PipeNew(s, t);
    var owner' := owner[p := InHand];
    PipeNewFrom(s, t, held, owner);
    hide PipeNew, FileOwned, PoolOwned, InHandOwned, Holds;
    forall f | f in s'.files ensures FileOwned(s'.files[f], f, owner') {
      FileStaysOwned(s.files[f], f, owner, p, t);
    }
    forall r | r in s'.reqs ensures OwnerIs(owner', s'.reqs[r].buf, BufferOf(r)) {
      OwnerStays(owner, p, t, s.reqs[r].buf, BufferOf(r));
    }
    forall u | u in s'.workers ensures PoolOwned(s'.workers[u].pipePool, u, owner') {
      PoolStaysOwned(s.workers[u].pipePool, u, owner, p);
      if u != t {
        PoolsApart(s.workers[u].pipePool, u, owner, p, t);
      } else if s.workers[t].pipePool == [] {
        NothingPooled(t, owner');
      }
    }
    forall q | q in owner' ensures Holds(s', held + [p], owner'[q], q) {
      if q != p {
        PipeNewHolds(s, t, held, owner[q], q);
      } else {
        InHandHolds(s', held, p);
      }
    }
    HeldStaysOwned(held, owner, p, t);
  }

  lemma {:induction false} PoolsApart(pool: seq<PipeId>, u: Thread, owner: map<PipeId, Slot>, p: PipeId, t: Thread)
    requires PoolOwned(pool, u, owner) && (p in owner ==> owner[p] == PooledBy(t)) && u != t
    ensures p !in pool
  {
    assert p in pool ==> OwnerIs(owner, p, PooledBy(u));
  }

  lemma {:induction false} NothingPooled(t: Thread, owner: map<PipeId, Slot>)
    ensures PoolOwned([], t, owner)
  {
  }

  lemma {:induction false} InHandHolds(s: State, held: seq<PipeId>, p: PipeId)
    ensures Holds(s, held + [p], InHand, p)
  {
  }

  lemma {:induction false} PipeNewOwned(s: State, t: Thread, held: seq<PipeId>)
    requires Owned(s, held) && PipesOk(s) && t in s.workers
    requires forall p <- s.workers[t].pipePool :: p in s.pipes
    ensures var (s', p) := PipeNew(s, t); Owned(s', held + [p])
  {
    var owner :| OwnedBy(s, held, owner);
    PipeNewOwnedBy(s, t, held, owner);
  }

  // pipe_buf_new hands out an empty pipe, whatever a pooled one was left holding.
  lemma {:induction false} PipeNewEmpty(s: State, t: Thread, held: seq<PipeId>)
    requires PoolSpare(s, t, held) && PipesOk(s) && forall p <- held :: p in s.pipes
    ensures var (s', p) := PipeNew(s, t);
            && p in s'.pipes && s'.pipes[p] == EMPTY_PIPE && p !in held
            && s.pipes.Keys <= s'.pipes.Keys && (p in s.pipes ==> p in s.workers[t].pipePool)
            && forall q <- s.pipes :: q != p ==> s'.pipes[q] == s.pipes[q]
  {
    var (s', p) := PipeNew(s, t);
    assert s.workers[t].pipePool != [] ==> Spare(s, held, p);
  }

  lemma {:induction false} PipeNewPipesOk(s: State, t: Thread, held: seq<PipeId>)
    requires PoolSpare(s, t, held) && PipesOk(s) && forall p <- held :: p in s.pipes
    ensures PipesOk(PipeNew(s, t).0)
  {
    var (s', p) := PipeNew(s, t);
    PipeNewEmpty(s, t, held);
    forall q | q in s'.pipes && q != p
      ensures s'.pipes[q].filled == |s'.pipes[q].data| || Writing(s', q)
    {
      assert Writing(s, q) ==> Writing(s', q);
    }
    if s.workers[t].pipePool != [] {
      assert Spare(s, held, p);
    }
    SizeWith(s.pipes, p, s'.pipes[p]);
    assert s'.pipes == s.pipes[p := s'.pipes[p]];
  }

  // A pipe that was in hand, or a request's, changes hands: files and pools keep theirs.
  lemma {:induction false} FileKeepsPipes(file: File, f: FileId, owner: map<PipeId, Slot>, p: PipeId, slot: Slot)
    requires FileOwned(file, f, owner) && p in owner && (owner[p].InHand? || owner[p].BufferOf?)
    ensures FileOwned(file, f, owner[p := slot])
  {
  }

  lemma {:induction false} PoolKeepsPipes(pool: seq<PipeId>, u: Thread, owner: map<PipeId, Slot>, p: PipeId, slot: Slot)
    requires PoolOwned(pool, u, owner) && p in owner && (owner[p].InHand? || owner[p].BufferOf?)
    ensures PoolOwned(pool, u, owner[p := slot]) && p !in pool
  {
    forall q | q in pool ensures q != p && OwnerIs(owner[p := slot], q, PooledBy(u)) {
      assert OwnerIs(owner, q, PooledBy(u));
    }
  }

  // ----- pipe_buf_free ------------------------------------------------------------------------

  lemma {:induction false} OnlyInHand(s: State, p: PipeId, rest: seq<PipeId>, owner: map<PipeId, Slot>)
    requires OwnedBy(s, [p] + rest, owner)
    ensures OwnerIs(owner, p, InHand) && NoDup(rest) && p !in rest
    ensures forall q <- rest :: OwnerIs(owner, q, InHand)
  {
    var held := [p] + rest;
    assert InHandOwned(held, owner) && held[0] == p && held[1..] == rest;
    NoDupTail(held);
    assert p in held && forall q <- rest :: q in held;
  }

  lemma {:induction false} PipeFreeHolds(s: State, t: Thread, p: PipeId, rest: seq<PipeId>, slot: Slot, q: PipeId)
    requires Holds(s, [p] + rest, slot, q) && q != p && t in s.workers
    ensures Holds(PipeFree(s, t, p), rest, slot, q)
  {
  }

  // Whatever pipe_buf_free does with the pipe, files, requests and pools keep theirs.
  lemma {:induction false} PipeFreeKeeps(s: State, t: Thread, p: PipeId, rest: seq<PipeId>,
                                         owner: map<PipeId, Slot>, owner': map<PipeId, Slot>)
    requires OwnedBy(s, [p] + rest, owner) && t in s.workers
    requires forall q <- owner :: q != p ==> OwnerIs(owner', q, owner[q])
    ensures forall f <- s.files :: FileOwned(s.files[f], f, owner')
    ensures forall r <- s.reqs :: OwnerIs(owner', s.reqs[r].buf, BufferOf(r))
    ensures forall u <- s.workers :: PoolOwned(s.workers[u].pipePool, u, owner') && p !in s.workers[u].pipePool
    ensures InHandOwned(rest, owner')
  {
    OnlyInHand(s, p, rest, owner);
    forall f | f in s.files ensures FileOwned(s.files[f], f, owner') {
      assert FileOwned(s.files[f], f, owner);
    }
    forall u | u in s.workers ensures PoolOwned(s.workers[u].pipePool, u, owner') && p !in s.workers[u].pipePool {
      assert PoolOwned(s.workers[u].pipePool, u, owner);
      forall q | q in s.workers[u].pipePool ensures q != p && OwnerIs(owner', q, PooledBy(u)) {
        assert OwnerIs(owner, q, PooledBy(u));
      }
    }
    forall r | r in s.reqs ensures OwnerIs(owner', s.reqs[r].buf, BufferOf(r)) {
      assert OwnerIs(owner, s.reqs[r].buf, BufferOf(r));
    }
  }

  lemma {:induction false} PipePooledOwnedBy(s: State, t: Thread, p: PipeId, rest: seq<PipeId>, owner: map<PipeId, Slot>)
    requires OwnedBy(s, [p] + rest, owner) && t in s.workers && |s.workers[t].pipePool| < PIPE_BUF_POOL_MAX
    ensures OwnedBy(PipeFree(s, t, p), rest, owner[p := PooledBy(t)])
  {
    hide Holds, FileOwned, InHandOwned;
    OnlyInHand(s, p, rest, owner);
    var s', owner' := PipeFree(s, t, p), owner[p := PooledBy(t)];
    PipeFreeKeeps(s, t, p, rest, owner, owner');
    hide PoolOwned;
    forall u | u in s'.workers ensures PoolOwned(s'.workers[u].pipePool, u, owner') {
      if u == t {
        OneMorePooled(s.workers[t].pipePool, t, p, owner');
      }
    }
    forall q | q in owner' ensures Holds(s', rest, owner'[q], q) {
      if q != p {
        PipeFreeHolds(s, t, p, rest, owner[q], q);
      } else {
        PooledHolds(s', rest, t, p);
      }
    }
  }

  lemma {:induction false} OneMorePooled(pool: seq<PipeId>, t: Thread, p: PipeId, owner: map<PipeId, Slot>)
    requires PoolOwned(pool, t, owner) && p !in pool && OwnerIs(owner, p, PooledBy(t))
    ensures PoolOwned(pool + [p], t, owner)
  {
    NoDupAppend(pool, p);
  }

  lemma {:induction false} PooledHolds(s: State, held: seq<PipeId>, t: Thread, p: PipeId)
    requires t in s.workers && p in s.workers[t].pipePool
    ensures Holds(s, held, PooledBy(t), p)
  {
  }

  lemma {:induction false} PipeClosedOwnedBy(s: State, t: Thread, p: PipeId, rest: seq<PipeId>, owner: map<PipeId, Slot>)
    requires OwnedBy(s, [p] + rest, owner) && t in s.workers && |s.workers[t].pipePool| >= PIPE_BUF_POOL_MAX
    ensures OwnedBy(PipeFree(s, t, p), rest, owner - {p})
  {
    OnlyInHand(s, p, rest, owner);
    var s', owner' := PipeFree(s, t, p), owner - {p};
    PipeFreeKeeps(s, t, p, rest, owner, owner');
    forall q | q in owner' ensures Holds(s', rest, owner'[q], q) {
      PipeFreeHolds(s, t, p, rest, owner[q], q);
    }
  }

  lemma {:induction false} PipeFreeOwned(s: State, t: Thread, p: PipeId, rest: seq<PipeId>)
    requires Owned(s, [p] + rest) && t in s.workers
    ensures Owned(PipeFree(s, t, p), rest) && p in s.pipes
  {
    var owner :| OwnedBy(s, [p] + rest, owner);
    OnlyInHand(s, p, rest, owner);
    if |s.workers[t].pipePool| < PIPE_BUF_POOL_MAX {
      PipePooledOwnedBy(s, t, p, rest, owner);
    } else {
      PipeClosedOwnedBy(s, t, p, rest, owner);
    }
  }

  lemma {:induction false} PipeFreePipesOk(s: State, t: Thread, p: PipeId)
    requires PipesOk(s) && t in s.workers && p in s.pipes
    ensures var s' := PipeFree(s, t, p);
            && PipesOk(s') && s'.pipes.Keys + {p} == s.pipes.Keys
            && forall q <- s'.pipes :: s'.pipes[q] == s.pipes[q]
  {
    var s' := PipeFree(s, t, p);
    SizeWithout(s.pipes, p);
    PipeFreeFrame(s, t, p);
    hide PipeFree;
    forall q | q in s'.pipes ensures s'.pipes[q].filled == |s'.pipes[q].data| || Writing(s', q) {
      assert Writing(s, q) ==> Writing(s', q);
    }
  }

  lemma {:induction false} PipeFreeFrame(s: State, t: Thread, p: PipeId)
    requires t in s.workers && p in s.pipes
    ensures var s' := PipeFree(s, t, p);
            && s'.files == s.files && s'.nextPipe == s.nextPipe && s'.workers.Keys == s.workers.Keys
            && (forall u <- s.workers :: u != t ==> s'.workers[u] == s.workers[u])
            && (s'.workers[t].pipePool == s.workers[t].pipePool || |s'.workers[t].pipePool| <= PIPE_BUF_POOL_MAX)
            && ((s'.pipes == s.pipes && s'.memUsed == s.memUsed)
                || (s'.pipes == s.pipes - {p} && s'.memUsed == s.memUsed - PIPE_SIZE))
  {
  }

  lemma {:induction false} PipesFreeOwned(s: State, t: Thread, ps: seq<PipeId>)
    requires Owned(s, ps) && PipesOk(s) && t in s.workers
    ensures var s' := PipesFree(s, t, ps);
            && Owned(s', []) && PipesOk(s') && s'.pipes.Keys <= s.pipes.Keys
            && (forall q <- s.pipes :: q !in ps ==> q in s'.pipes)
            && forall q <- s'.pipes :: s'.pipes[q] == s.pipes[q]
    decreases |ps|
  {
    hide Owned, PipesOk;
    if ps == [] {
      assert ps == [];
    } else {
      assert ps == [ps[0]] + ps[1..];
      PipeFreeOwned(s, t, ps[0], ps[1..]);
      PipeFreePipesOk(s, t, ps[0]);
      PipesFreeOwned(PipeFree(s, t, ps[0]), t, ps[1..]);
    }
  }

  lemma {:induction false} PipesNewOwned(s: State, t: Thread, n: nat)
    requires Owned(s, []) && PipesOk(s) && t in s.workers
    requires forall p <- s.workers[t].pipePool :: p in s.pipes
    ensures Owned(PipesNew(s, t, n).0, PipesNew(s, t, n).1) && PipesOk(PipesNew(s, t, n).0)
  {
    hide Owned, PipesOk;
    if n != 0 {
      PipesNewOwned(s, t, n - 1);
      var (s1, ps) := PipesNew(s, t, n - 1);
      PoolIsSpare(s1, ps, t);
      HeldIsLive(s1, ps);
      PipeNewOwned(s1, t, ps);
      PipeNewPipesOk(s1, t, ps);
    }
  }

  lemma {:induction false} PipesNewEmpty(s: State, t: Thread, n: nat)
    requires Owned(s, []) && PipesOk(s) && t in s.workers
    requires forall p <- s.workers[t].pipePool :: p in s.pipes
    ensures var (s', ps) := PipesNew(s, t, n);
            && s.pipes.Keys <= s'.pipes.Keys
            && (forall p <- ps :: p in s'.pipes && s'.pipes[p] == EMPTY_PIPE && (p in s.pipes ==> p in s.workers[t].pipePool))
            && (forall q <- s.pipes :: q !in ps ==> s'.pipes[q] == s.pipes[q])
            && (forall q <- s'.workers[t].pipePool :: q in s.workers[t].pipePool)
  {
    hide Owned, PipesOk;
    if n != 0 {
      PipesNewEmpty(s, t, n - 1);
      PipesNewOwned(s, t, n - 1);
      var (s1, ps) := PipesNew(s, t, n - 1);
      PoolIsSpare(s1, ps, t);
      HeldIsLive(s1, ps);
      PipeNewEmpty(s1, t, ps);
    }
  }
}
