/**
Release of requests: off the thread's list, off the file's count, into the pool or away.
*/
module Requests {
  import opened Options
  import opened TableLog
  import opened CacheState
  import opened Protocol
  import opened Ownership
  import opened Streams
  import opened Steps
  import opened Lifecycle

  // ----- cache_req_del ------------------------------------------------------------------------

  // The request is off its thread's list and no longer counted.
  ghost function Detached(s: State, r: ReqId): State
    requires r in s.reqs && s.reqs[r].home in s.workers && s.reqs[r].file in s.files
  {
    var q := s.reqs[r];
    var w := s.workers[q.home];
    s.(workers := s.workers[q.home := w.(live := Remove(w.live, r))], reqs := s.reqs[r := q.(phase := Idle)],
       files := s.files[q.file := s.files[q.file].(pending := s.files[q.file].pending - 1)])
  }

  lemma {:induction false} DetachedPlaces(s: State, r: ReqId, s1: State)
    requires r in s.reqs && s.reqs[r].home in s.workers && s.reqs[r].file in s.files && s1 == Detached(s, r)
    requires Owned(s, []) && PipesOk(s)
    ensures Owned(s1, []) && PipesOk(s1)
  {
    hide OwnedBy;
    SameOwners(s, s1, []);
    forall p | p in s1.pipes ensures s1.pipes[p].filled == |s1.pipes[p].data| || Writing(s1, p) {
      if Writing(s, p) {
        var g :| g in s.files && s.files[g].headers == p && s.files[g].writer.Some?;
        assert s1.files[g].headers == p && s1.files[g].writer.Some?;
      }
    }
  }

  lemma {:induction false} DetachedFile(s: State, r: ReqId, s1: State, f: FileId)
    requires ReqRefs(s, r) && s.reqs[r].phase == Head && s1 == Detached(s, r) && f in s1.files
    requires ContentOk(s)
    ensures FileCalm(s, s1, f)
  {
    assert ChunksOk(s, f) && HeadersOk(s, f);
  }

  lemma {:induction false} DetachedReq(s: State, r: ReqId, s1: State, i: ReqId)
    requires ReqRefs(s, r) && s.reqs[r].phase == Head && s1 == Detached(s, r) && i in s1.reqs && s1.reqs[i].phase != Idle
    requires ContentOk(s)
    ensures ReqCalm(s, s1, i)
  {
    assert ReqRefs(s, i);
    DetachedFile(s, r, s1, s.reqs[i].file);
    hide FileCalm;
  }

  lemma {:induction false} DetachedContent(s: State, r: ReqId, s1: State)
    requires ReqRefs(s, r) && s.reqs[r].phase == Head && s1 == Detached(s, r)
    requires ContentOk(s)
    ensures ContentOk(s1)
  {
    hide ContentOk, FileCalm, ReqCalm;
    forall f | f in s1.files ensures FileCalm(s, s1, f) {
      DetachedFile(s, r, s1, f);
    }
    forall i | i in s1.reqs && s1.reqs[i].phase != Idle ensures ReqCalm(s, s1, i) {
      DetachedReq(s, r, s1, i);
    }
    CalmContent(s, s1);
  }

  lemma {:induction false} DetachedLive(s: State, r: ReqId, s1: State)
    requires ReqRefs(s, r) && s.reqs[r].phase == Head && s1 == Detached(s, r)
    ensures var f := s.reqs[r].file;
            r in LiveOn(s, f) && LiveOn(s1, f) == LiveOn(s, f) - {r} && |LiveOn(s1, f)| == |LiveOn(s, f)| - 1
  {
    var f := s.reqs[r].file;
    assert LiveOn(s1, f) == LiveOn(s, f) - {r};
  }

  lemma {:induction false} DetachedOthers(s: State, r: ReqId, s1: State, g: FileId)
    requires ReqRefs(s, r) && s.reqs[r].phase == Head && s1 == Detached(s, r)
    requires g in s.files && g != s.reqs[r].file && FileCounted(s, g)
    ensures FileCounted(s1, g)
  {
    SameLive(s, s1, g);
    hide LiveOn;
  }

  // What else the bookkeeping says, which the request leaves as it is.
  ghost predicate Booked(s: State) {
    && UniqueKeys(s.table) && NoDup(s.freed)
    && (forall e <- s.table :: e.val in s.files && s.files[e.val].uri == e.key)
    && (forall r <- s.reqs :: s.reqs[r].phase != Idle ==> s.reqs[r].file in s.files)
    && (forall g: FileId :: g in s.freed <==> g < s.nextFile && g !in s.files)
  }

  lemma {:induction false} DetachedBooked(s: State, r: ReqId, s1: State)
    requires ReqRefs(s, r) && s1 == Detached(s, r) && FilesOk(s)
    ensures Booked(s1)
  {
    hide FileCounted;
  }

  lemma {:induction false} NoneLive(s: State, f: FileId)
    requires |LiveOn(s, f)| == 0
    ensures LiveOn(s, f) == {}
  {
  }

  lemma {:induction false} DetachedRest(s: State, r: ReqId, s1: State)
    requires ReqRefs(s, r) && s.reqs[r].phase == Head && s1 == Detached(s, r)
    requires FilesOk(s)
    ensures forall g <- s1.files :: g != s.reqs[r].file ==> FileCounted(s1, g)
  {
    hide LiveOn, UniqueKeys, NoDup, Busy, FileCounted;
    forall g | g in s1.files && g != s.reqs[r].file ensures FileCounted(s1, g) {
      assert FileCounted(s, g);
      DetachedOthers(s, r, s1, g);
    }
  }

  lemma {:induction false} DetachedCounts(s: State, r: ReqId, s1: State)
    requires ReqRefs(s, r) && s.reqs[r].phase == Head && s1 == Detached(s, r)
    requires FilesOk(s)
    ensures var file := s1.files[s.reqs[r].file];
            if file.zombie && file.pending == 0 then LastReference(s1, s.reqs[r].file) else FilesOk(s1)
  {
    hide LiveOn, UniqueKeys, NoDup, Busy;
    var f := s.reqs[r].file;
    assert FileCounted(s, f);
    DetachedLive(s, r, s1);
    DetachedBooked(s, r, s1);
    DetachedRest(s, r, s1);
    if s1.files[f].pending == 0 {
      NoneLive(s1, f);
    }
  }

  // Taking a request off a list leaves all the others on it, each once.
  lemma {:induction false} RemoveKeeps<T(!new)>(s: seq<T>, x: T)
    requires NoDup(s)
    ensures NoDup(Remove(s, x))
    ensures forall y :: y in Remove(s, x) <==> y in s && y != x
  {
    if s != [] {
      NoDupTail(s);
      RemoveKeeps(s[1..], x);
      assert forall y :: y in s <==> y == s[0] || y in s[1..];
      if s[0] != x {
        var t := Remove(s[1..], x);
        assert s[0] !in t;
        assert NoDup([s[0]] + t) by {
          assert forall i :: 0 <= i < |t| ==> ([s[0]] + t)[i + 1] == t[i] && t[i] in t;
        }
      }
    }
  }

  // The lists after the request has been taken off and parked (or dropped when the pool is full).
  ghost predicate Parked(s: State, r: ReqId, s': State)
    requires r in s.reqs && s.reqs[r].home in s.workers
  {
    var t := s.reqs[r].home;
    var pooled := |s.workers[t].reqPool| < CACHE_REQ_POOL_MAX;
    && s'.workers.Keys == s.workers.Keys && s'.nextReq == s.nextReq
    && (forall u <- s.workers ::
          && s'.workers[u].live == (if u == t then Remove(s.workers[u].live, r) else s.workers[u].live)
          && s'.workers[u].reqPool == (if u == t && pooled then s.workers[u].reqPool + [r] else s.workers[u].reqPool))
    && s'.reqs == (if pooled then s.reqs[r := s.reqs[r].(phase := Idle)] else s.reqs - {r})
  }

  lemma {:induction false} ParkShape(s: State, r: ReqId, s2: State, s': State)
    requires r in s.reqs && s.reqs[r].home in s.workers && s.reqs[r].file in s.files
    requires SameLists(Detached(s, r), s2)
    requires s2.reqs == Detached(s, r).reqs && s2.nextReq == s.nextReq && s' == ReqPark(s2, r)
    ensures Parked(s, r, s')
  {
    var t := s.reqs[r].home;
    assert Detached(s, r).workers[t].reqPool == s.workers[t].reqPool == s2.workers[t].reqPool;
    assert s.reqs[r := s.reqs[r].(phase := Idle)] - {r} == s.reqs - {r};
  }

  lemma {:induction false} ParkedWorker(s: State, r: ReqId, s': State, u: Thread)
    requires r in s.reqs && s.reqs[r].phase != Idle && s.reqs[r].home in s.workers
    requires Parked(s, r, s') && u in s.workers && WorkerOk(s, u)
    ensures WorkerOk(s', u)
  {
    var t := s.reqs[r].home;
    assert r !in s.workers[u].reqPool by { assert !OnList(s, u, r, true); }
    RemoveKeeps(s.workers[u].live, r);
    assert u != t ==> r !in s.workers[u].live by { assert u != t ==> !OnList(s, u, r, false); }
    forall i | i in s'.workers[u].live ensures OnList(s', u, i, false) {
      assert i in s.workers[u].live && i != r && OnList(s, u, i, false);
    }
    forall i | i in s'.workers[u].reqPool ensures OnList(s', u, i, true) {
      assert i != r ==> i in s.workers[u].reqPool && OnList(s, u, i, true);
    }
    NoDupAppend(s.workers[u].reqPool, r);
  }

  lemma {:induction false} ParkedReq(s: State, r: ReqId, s': State, i: ReqId)
    requires ListsOk(s) && r in s.reqs && s.reqs[r].phase != Idle && s.reqs[r].home in s.workers
    requires Parked(s, r, s') && i in s'.reqs
    ensures i < s'.nextReq && Listed(s', i)
  {
    hide SocketsApart;
    assert Listed(s, i);
    var t := s.reqs[i].home;
    assert WorkerOk(s, t);
    RemoveKeeps(s.workers[t].live, r);
  }

  lemma {:induction false} ParkLists(s: State, r: ReqId, s2: State, s': State)
    requires r in s.reqs && s.reqs[r].phase != Idle && s.reqs[r].home in s.workers
    requires s.reqs[r].file in s.files && SameLists(Detached(s, r), s2)
    requires s2.reqs == Detached(s, r).reqs && s2.nextReq == s.nextReq && s' == ReqPark(s2, r)
    requires ListsOk(s)
    ensures ListsOk(s')
  {
    hide WorkerOk, Listed, ReqPark;
    ParkShape(s, r, s2, s');
    forall u | u in s'.workers ensures WorkerOk(s', u) {
      assert WorkerOk(s, u);
      ParkedWorker(s, r, s', u);
    }
    forall i | i in s'.reqs ensures i < s'.nextReq && Listed(s', i) {
      ParkedReq(s, r, s', i);
    }
    forall i, j | i in s'.reqs && j in s'.reqs && i != j ensures SocketsApart(s'.reqs[i], s'.reqs[j]) {
      assert SocketsApart(s.reqs[i], s.reqs[j]);
    }
  }

  lemma {:induction false} TakenHolds(s: State, r: ReqId, s1: State, slot: Slot, q: PipeId)
    requires r in s.reqs && s1 == s.(reqs := s.reqs - {r}) && Holds(s, [], slot, q) && q != s.reqs[r].buf
    ensures Holds(s1, [s.reqs[r].buf], slot, q)
  {
  }

  lemma {:induction false} InHandHolds(s: State, p: PipeId)
    ensures Holds(s, [p], InHand, p)
  {
  }

  lemma {:induction false} OneInHand(p: PipeId, owner: map<PipeId, Slot>)
    requires OwnerIs(owner, p, InHand)
    ensures InHandOwned([p], owner)
  {
  }

  lemma {:induction false} TakeBuffer(s: State, r: ReqId, s1: State)
    requires r in s.reqs && s1 == s.(reqs := s.reqs - {r})
    requires Owned(s, [])
    ensures Owned(s1, [s.reqs[r].buf])
  {
    hide Holds;
    var owner :| OwnedBy(s, [], owner);
    var p := s.reqs[r].buf;
    assert OwnerIs(owner, p, BufferOf(r));
    var owner' := owner[p := InHand];
    hide InHandOwned, FileOwned, PoolOwned;
    forall f | f in s1.files ensures FileOwned(s1.files[f], f, owner') {
      FileKeepsPipes(s.files[f], f, owner, p, InHand);
    }
    forall i | i in s1.reqs ensures OwnerIs(owner', s1.reqs[i].buf, BufferOf(i)) {
      assert OwnerIs(owner, s.reqs[i].buf, BufferOf(i));
    }
    forall u | u in s1.workers ensures PoolOwned(s1.workers[u].pipePool, u, owner') {
      PoolKeepsPipes(s.workers[u].pipePool, u, owner, p, InHand);
    }
    forall q | q in owner' ensures q != p ==> Holds(s1, [p], owner'[q], q) {
      if q != p {
        TakenHolds(s, r, s1, owner[q], q);
      }
    }
    InHandHolds(s1, p);
    assert owner'.Keys == s1.pipes.Keys;
    OneInHand(p, owner');
    assert OwnedBy(s1, [p], owner');
  }

  lemma {:induction false} DroppedReqCounts(s: State, r: ReqId, s1: State)
    requires FilesOk(s) && r in s.reqs && s.reqs[r].phase == Idle
    requires s1 == s.(reqs := s.reqs - {r}, pipes := s1.pipes, workers := s1.workers, memUsed := s1.memUsed)
    ensures FilesOk(s1)
  {
    forall g | g in s1.files ensures FileCounted(s1, g) {
      assert FileCounted(s, g);
      SameLive(s, s1, g);
    }
  }

  // An idle request that goes with its pipe is no part of any file.
  lemma {:induction false} FileWithout(s: State, r: ReqId, s': State, f: FileId)
    requires ContentOk(s) && r in s.reqs && s.reqs[r].phase == Idle && f in s'.files
    requires s'.reqs == s.reqs - {r} && s'.files == s.files
    requires s.files[f].headers != s.reqs[r].buf && s.reqs[r].buf !in s.files[f].chunks
    requires forall p <- s.pipes :: p != s.reqs[r].buf ==> PipeKept(s, s', p)
    ensures FileCalm(s, s', f)
  {
    assert ChunksOk(s, f) && HeadersOk(s, f);
    forall p | p in s.files[f].chunks ensures PipeKept(s, s', p) {
      var k :| 0 <= k < |s.files[f].chunks| && s.files[f].chunks[k] == p;
    }
  }

  lemma {:induction false} ReqWithout(s: State, r: ReqId, s': State, i: ReqId)
    requires r in s.reqs && i in s'.reqs && s'.reqs[i].phase != Idle
    requires s'.reqs == s.reqs - {r} && s'.files == s.files && s'.workers.Keys == s.workers.Keys
    requires forall p <- s.pipes :: p != s.reqs[r].buf ==> PipeKept(s, s', p)
    requires forall f <- s'.files :: FileCalm(s, s', f)
    requires ContentOk(s) && s.reqs[i].buf != s.reqs[r].buf
    ensures ReqCalm(s, s', i)
  {
    hide FileCalm;
    assert ReqRefs(s, i);
  }

  lemma {:induction false} DroppedReqContent(s: State, r: ReqId, s': State)
    requires Owned(s, []) && ContentOk(s) && r in s.reqs && s.reqs[r].phase == Idle
    requires s'.reqs == s.reqs - {r} && s'.files == s.files && s'.workers.Keys == s.workers.Keys
    requires forall p <- s.pipes :: p != s.reqs[r].buf ==> PipeKept(s, s', p)
    ensures ContentOk(s')
  {
    hide Owned, ContentOk, FileCalm, ReqCalm;
    BufferApart(s, r);
    forall f | f in s'.files ensures FileCalm(s, s', f) {
      FileWithout(s, r, s', f);
    }
    forall i | i in s'.reqs && s'.reqs[i].phase != Idle ensures ReqCalm(s, s', i) {
      ReqWithout(s, r, s', i);
    }
    CalmContent(s, s');
  }

  // An idle request goes to the pool of its thread ...
  lemma {:induction false} ParkPooled(s: State, r: ReqId)
    requires r in s.reqs && s.reqs[r].home in s.workers && |s.workers[s.reqs[r].home].reqPool| < CACHE_REQ_POOL_MAX
    ensures var t, s' := s.reqs[r].home, ReqPark(s, r);
            && t in s'.workers && SamePlaces(s, s')
            && s' == s.(workers := s.workers[t := s.workers[t].(reqPool := s'.workers[t].reqPool)])
  {
  }

  // ... or away, with its pipe.
  lemma {:induction false} ParkFreed(s: State, r: ReqId)
    requires r in s.reqs && s.reqs[r].home in s.workers && |s.workers[s.reqs[r].home].reqPool| >= CACHE_REQ_POOL_MAX
    ensures var s' := ReqPark(s, r);
            && s' == PipeFree(s.(reqs := s.reqs - {r}), s.reqs[r].home, s.reqs[r].buf)
            && s'.reqs == s.reqs - {r} && s'.files == s.files && s'.workers.Keys == s.workers.Keys
            && s' == s.(reqs := s.reqs - {r}, pipes := s'.pipes, workers := s'.workers, memUsed := s'.memUsed)
  {
  }

  lemma {:induction false} KeptPipes(s: State, s': State, w: PipeId)
    requires s'.pipes.Keys + {w} == s.pipes.Keys && forall q <- s'.pipes :: s'.pipes[q] == s.pipes[q]
    ensures forall p <- s.pipes :: p != w ==> PipeKept(s, s', p)
  {
  }

  lemma {:induction false} ParkKeeps(s: State, r: ReqId, s': State)
    requires r in s.reqs && s.reqs[r].home in s.workers && s.reqs[r].phase == Idle && s' == ReqPark(s, r)
    requires Owned(s, []) && PipesOk(s) && FilesOk(s) && ContentOk(s)
    ensures Owned(s', []) && PipesOk(s') && FilesOk(s') && ContentOk(s')
  {
    hide *;
    var t, p := s.reqs[r].home, s.reqs[r].buf;
    if |s.workers[t].reqPool| < CACHE_REQ_POOL_MAX {
      ParkPooled(s, r);
      SameOwners(s, s', []);
      PooledReqKeeps(s, t, s');
    } else {
      ParkFreed(s, r);
      var s1 := s.(reqs := s.reqs - {r});
      TakeBuffer(s, r, s1);
      assert [p] == [p] + [];
      PipeFreeOwned(s1, t, p, []);
      SmallerPipesOk(s, s1);
      PipeFreePipesOk(s1, t, p);
      KeptPipes(s, s', p);
      DroppedReqCounts(s, r, s');
      DroppedReqContent(s, r, s');
    }
  }

  lemma {:induction false} SmallerPipesOk(s: State, s1: State)
    requires PipesOk(s) && s1 == s.(reqs := s1.reqs)
    ensures PipesOk(s1)
  {
    assert forall p :: Writing(s, p) ==> Writing(s1, p);
  }

  lemma {:induction false} PooledReqKeeps(s: State, t: Thread, s': State)
    requires t in s.workers && t in s'.workers
    requires s' == s.(workers := s.workers[t := s.workers[t].(reqPool := s'.workers[t].reqPool)])
    requires PipesOk(s) && FilesOk(s) && ContentOk(s)
    ensures PipesOk(s') && FilesOk(s') && ContentOk(s')
  {
    hide *;
    PooledReqPipes(s, s');
    PooledReqCounts(s, s');
    SameWorkers(s, s');
    forall f | f in s'.files ensures FileCalm(s, s', f) {
      FileHere(s, s', f);
    }
    forall i | i in s'.reqs && s'.reqs[i].phase != Idle ensures ReqCalm(s, s', i) {
      ReqHere(s, s', i);
    }
    CalmContent(s, s');
  }

  lemma {:induction false} SameWorkers(s: State, s': State)
    requires ContentOk(s) && s' == s.(workers := s'.workers)
    ensures forall f <- s.files :: ChunksOk(s, f) && HeadersOk(s, f)
  {
  }

  lemma {:induction false} FileHere(s: State, s': State, f: FileId)
    requires f in s.files && ChunksOk(s, f) && HeadersOk(s, f) && s' == s.(workers := s'.workers)
    ensures FileCalm(s, s', f)
  {
  }

  lemma {:induction false} ReqHere(s: State, s': State, i: ReqId)
    requires ContentOk(s) && i in s.reqs && s.reqs[i].phase != Idle
    requires s' == s.(workers := s'.workers) && s'.workers.Keys == s.workers.Keys
    ensures ReqCalm(s, s', i)
  {
    assert ReqRefs(s, i);
  }

  lemma {:induction false} PooledReqPipes(s: State, s': State)
    requires PipesOk(s) && s' == s.(workers := s'.workers) && s'.workers.Keys == s.workers.Keys
    requires forall u <- s.workers :: s'.workers[u].pipePool == s.workers[u].pipePool
    ensures PipesOk(s')
  {
    assert forall p :: Writing(s, p) ==> Writing(s', p);
  }

  lemma {:induction false} PooledReqCounts(s: State, s': State)
    requires FilesOk(s) && s' == s.(workers := s'.workers)
    ensures FilesOk(s')
  {
    hide LiveOn;
    forall g | g in s'.files ensures FileCounted(s', g) {
      assert FileCounted(s, g);
      SameLive(s, s', g);
    }
  }

  lemma {:induction false} DeleteKeeps(s: State, r: ReqId, s': State)
    requires ReqRefs(s, r) && s.reqs[r].phase == Head && s' == ReqDel(s, r)
    requires Inv(s)
    ensures Inv(s')
  {
    hide OwnedBy, Owned, PipesOk, ListsOk, FilesOk, ContentOk, LastReference, FileFree, ReqPark;
    var s1 := Detached(s, r);
    var t, f := s.reqs[r].home, s.reqs[r].file;
    DetachedPlaces(s, r, s1);
    DetachedContent(s, r, s1);
    DetachedCounts(s, r, s1);
    HomesKnown(s);
    var file := s1.files[f];
    var s2 := if file.zombie && file.pending == 0 then FileFree(s1, t, f) else s1;
    if file.zombie && file.pending == 0 {
      DetachedWriter(s, r);
      FreeKeeps(s1, t, f, s2);
      FileFreeLists(s1, t, f);
    }
    assert s' == ReqPark(s2, r);
    ParkLists(s, r, s2, s');
    ParkKeeps(s2, r, s');
  }

  lemma {:induction false} DetachedWriter(s: State, r: ReqId)
    requires ReqRefs(s, r) && s.reqs[r].phase == Head
    requires FilesOk(s) && ContentOk(s) && s.files[s.reqs[r].file].pending <= 1
    ensures FileOf(s, r).writer.None?
  {
    var f := s.reqs[r].file;
    assert FileCounted(s, f) && ChunksOk(s, f) && HeadersOk(s, f);
    if FileOf(s, r).writer.Some? {
      var w := FileOf(s, r).writer.value;
      assert {r, w} <= LiveOn(s, f) && w != r;
      TwoInSet(LiveOn(s, f), r, w);
    }
  }

  lemma {:induction false} TwoInSet(x: set<ReqId>, a: ReqId, b: ReqId)
    requires a in x && b in x && a != b
    ensures |x| >= 2
  {
    assert |x - {a}| >= 1 by { assert b in x - {a}; }
  }
}
