/**
New files and new requests: what they take from the pools is empty and theirs alone.
*/
module Creation {
  import opened CInts
  import opened Options
  import opened TableLog
  import opened CacheState
  import opened Protocol
  import opened Ownership
  import opened Streams
  import opened Steps
  import opened Lifecycle

  // ----- cache_file_new, cache_file_tmp -------------------------------------------------------

  // The owners once the pipes `ps` belong to file `f`.
  ghost function Named(owner: map<PipeId, Slot>, ps: seq<PipeId>, f: FileId): map<PipeId, Slot> {
    map p | p in owner :: if p in ps then SlotOf(ps, p, f) else owner[p]
  }

  ghost function SlotOf(ps: seq<PipeId>, p: PipeId, f: FileId): Slot
    requires p in ps
  {
    var i :| 0 <= i < |ps| && ps[i] == p;
    if i == 0 then HeaderOf(f) else ChunkOf(f, i - 1)
  }

  lemma {:induction false} SlotAt(ps: seq<PipeId>, i: nat, f: FileId)
    requires NoDup(ps) && i < |ps|
    ensures ps[i] in ps && SlotOf(ps, ps[i], f) == if i == 0 then HeaderOf(f) else ChunkOf(f, i - 1)
  {
  }

  lemma {:induction false} NamedFile(owner: map<PipeId, Slot>, ps: seq<PipeId>, f: FileId, file: File)
    requires InHandOwned(ps, owner) && ps != [] && file.headers == ps[0] && file.chunks == ps[1..]
    ensures FileOwned(file, f, Named(owner, ps, f))
  {
    var owner' := Named(owner, ps, f);
    SlotAt(ps, 0, f);
    forall k | 0 <= k < |file.chunks| ensures OwnerIs(owner', file.chunks[k], ChunkOf(f, k)) {
      SlotAt(ps, k + 1, f);
      assert file.chunks[k] == ps[k + 1];
    }
  }

  lemma {:induction false} NamedHolds(s: State, ps: seq<PipeId>, owner: map<PipeId, Slot>, f: FileId, file: File, s': State, q: PipeId)
    requires f !in s.files && ps != [] && file.headers == ps[0] && file.chunks == ps[1..] && q in owner && NoDup(ps)
    requires s'.files == s.files[f := file] && s'.reqs == s.reqs && s'.workers == s.workers
    requires Holds(s, ps, owner[q], q)
    ensures Holds(s', [], Named(owner, ps, f)[q], q) || (q !in ps && owner[q] == InHand)
  {
    if q in ps {
      var i :| 0 <= i < |ps| && ps[i] == q;
      SlotAt(ps, i, f);
    }
  }

  // What was not in hand has the owner it had.
  lemma {:induction false} FileNamed(file: File, g: FileId, owner: map<PipeId, Slot>, ps: seq<PipeId>, f: FileId)
    requires FileOwned(file, g, owner) && InHandOwned(ps, owner)
    ensures FileOwned(file, g, Named(owner, ps, f))
  {
    hide SlotOf;
  }

  lemma {:induction false} PoolNamed(pool: seq<PipeId>, u: Thread, owner: map<PipeId, Slot>, ps: seq<PipeId>, f: FileId)
    requires PoolOwned(pool, u, owner) && InHandOwned(ps, owner)
    ensures PoolOwned(pool, u, Named(owner, ps, f))
  {
    hide SlotOf;
    forall q | q in pool ensures OwnerIs(Named(owner, ps, f), q, PooledBy(u)) {
      assert OwnerIs(owner, q, PooledBy(u));
    }
  }

  lemma {:induction false} BufferNamed(p: PipeId, r: ReqId, owner: map<PipeId, Slot>, ps: seq<PipeId>, f: FileId)
    requires OwnerIs(owner, p, BufferOf(r)) && InHandOwned(ps, owner)
    ensures OwnerIs(Named(owner, ps, f), p, BufferOf(r))
  {
    hide SlotOf;
  }

  lemma {:induction false} NameFile(s: State, ps: seq<PipeId>, f: FileId, file: File, s': State)
    requires f !in s.files && ps != [] && file.headers == ps[0] && file.chunks == ps[1..]
    requires s'.files == s.files[f := file] && s'.reqs == s.reqs && s'.workers == s.workers && s'.pipes == s.pipes
    requires Owned(s, ps)
    ensures Owned(s', [])
  {
    hide Holds;
    var owner :| OwnedBy(s, ps, owner);
    assert NoDup(ps) by { assert InHandOwned(ps, owner); }
    hide InHandOwned, FileOwned, PoolOwned, NoDup, SlotOf;
    var owner' := Named(owner, ps, f);
    NamedFile(owner, ps, f, file);
    forall g | g in s'.files ensures FileOwned(s'.files[g], g, owner') {
      if g != f {
        FileNamed(s.files[g], g, owner, ps, f);
      }
    }
    forall r | r in s'.reqs ensures OwnerIs(owner', s'.reqs[r].buf, BufferOf(r)) {
      BufferNamed(s.reqs[r].buf, r, owner, ps, f);
    }
    forall u | u in s'.workers ensures PoolOwned(s'.workers[u].pipePool, u, owner') {
      PoolNamed(s.workers[u].pipePool, u, owner, ps, f);
    }
    forall q | q in owner' ensures Holds(s', [], owner'[q], q) {
      NamedHolds(s, ps, owner, f, file, s', q);
      InHandMeans(s, ps, owner[q], q);
    }
    assert owner'.Keys == s'.pipes.Keys;
    NoneInHand(owner');
    assert OwnedBy(s', [], owner');
  }

  lemma {:induction false} InHandMeans(s: State, ps: seq<PipeId>, slot: Slot, q: PipeId)
    requires Holds(s, ps, slot, q)
    ensures slot == InHand ==> q in ps
  {
  }

  // Pipes that come out of a pool belonged to no file and no request.
  lemma {:induction false} PooledApart(s: State, t: Thread)
    requires Owned(s, []) && t in s.workers
    ensures forall f <- s.files :: s.files[f].headers !in s.workers[t].pipePool
    ensures forall f <- s.files, p <- s.files[f].chunks :: p !in s.workers[t].pipePool
    ensures forall r <- s.reqs :: s.reqs[r].buf !in s.workers[t].pipePool
    ensures forall p <- s.workers[t].pipePool :: p in s.pipes
  {
    hide Holds, InHandOwned;
    var owner :| OwnedBy(s, [], owner);
    assert PoolOwned(s.workers[t].pipePool, t, owner);
    forall f | f in s.files
      ensures s.files[f].headers !in s.workers[t].pipePool
      ensures forall p <- s.files[f].chunks :: p !in s.workers[t].pipePool
    {
      assert FileOwned(s.files[f], f, owner);
    }
    forall r | r in s.reqs ensures s.reqs[r].buf !in s.workers[t].pipePool {
      assert OwnerIs(owner, s.reqs[r].buf, BufferOf(r));
    }
  }

  lemma {:induction false} NobodyOn(s: State, f: FileId)
    requires f !in s.files && forall r <- s.reqs :: s.reqs[r].phase != Idle ==> s.reqs[r].file in s.files
    ensures LiveOn(s, f) == {}
  {
  }

  lemma {:induction false} CreatedCounts(s: State, uri: Uri, file: File, s': State)
    requires FilesOk(s) && (forall e <- s.table :: e.key != uri) && file.uri == uri && !file.zombie && file.pending == 0
    requires s'.files == s.files[s.nextFile := file] && s'.table == [Entry(uri, s.nextFile)] + s.table
    requires s'.reqs == s.reqs && s'.nextFile == s.nextFile + 1 && s'.freed == s.freed
    ensures FilesOk(s')
  {
    hide LiveOn;
    var f := s.nextFile;
    FreshFile(s);
    NobodyOn(s, f);
    assert forall e :: e in s'.table <==> e == Entry(uri, f) || e in s.table;
    forall g | g in s'.files ensures FileCounted(s', g) {
      SameLive(s, s', g);
      if g != f {
        assert FileCounted(s, g);
      }
    }
    assert forall i :: 0 < i < |s'.table| ==> s'.table[i] == s.table[i - 1] && s.table[i - 1] in s.table;
  }

  lemma {:induction false} NewFileContent(s': State, f: FileId)
    requires f in s'.files
    requires var file := s'.files[f];
             && 0 < |file.content| <= INT_MAX && |file.chunks| == ChunkCount(|file.content|)
             && file.published == [] && file.writer.None?
             && file.headers in s'.pipes && s'.pipes[file.headers] == EMPTY_PIPE
             && forall p <- file.chunks :: p in s'.pipes && s'.pipes[p] == EMPTY_PIPE
    ensures ChunksOk(s', f) && HeadersOk(s', f)
  {
    var file := s'.files[f];
    forall k | 0 <= k < |file.chunks|
      ensures ChunkRange(file.content, k) && file.chunks[k] in s'.pipes && s'.pipes[file.chunks[k]].data == []
    {
      assert file.chunks[k] in file.chunks;
    }
  }

  // What FileNew did, given the pipes it took.
  ghost predicate Created(s: State, s1: State, ps: seq<PipeId>, f: FileId, s': State) {
    && ps != [] && f in s'.files && s'.files == s.files[f := s'.files[f]]
    && s'.files[f].headers == ps[0] && s'.files[f].chunks == ps[1..]
    && s'.reqs == s.reqs && s'.pipes == s1.pipes && s'.workers == s1.workers && SameLists(s, s1)
    && (forall p <- ps :: p in s1.pipes && s1.pipes[p] == EMPTY_PIPE)
    && (forall q <- s.pipes :: q !in ps ==> q in s1.pipes && s1.pipes[q] == s.pipes[q])
  }

  lemma {:induction false} CreatedContent(s: State, t: Thread, s1: State, ps: seq<PipeId>, f: FileId, s': State)
    requires t in s.workers && f !in s.files && Created(s, s1, ps, f, s')
    requires forall p <- ps :: p in s.pipes ==> p in s.workers[t].pipePool
    requires ChunksOk(s', f) && HeadersOk(s', f)
    requires Owned(s, []) && ContentOk(s)
    ensures ContentOk(s')
  {
    hide Owned, ChunksOk, HeadersOk, ReqOk;
    PooledApart(s, t);
    RefsOwned(s);
    forall g | g in s'.files && g != f ensures FileCalm(s, s', g) {
      OldFileCalm(s, s', g);
    }
    forall g | g in s'.files ensures ChunksOk(s', g) && HeadersOk(s', g) {
      if g != f {
        CalmSurvives(s, s', g);
      }
    }
    forall i | i in s'.reqs && s'.reqs[i].phase != Idle ensures ReqRefs(s', i) && ReqOk(s', i) {
      assert ReqRefs(s, i) && FileCalm(s, s', s.reqs[i].file);
      CalmReqSurvives(s, s', i);
    }
  }

  lemma {:induction false} OldFileCalm(s: State, s': State, g: FileId)
    requires g in s.files && g in s'.files && s'.files[g] == s.files[g] && s'.reqs == s.reqs && ContentOk(s)
    requires PipeKept(s, s', s.files[g].headers) && forall p <- s.files[g].chunks :: p in s.pipes ==> PipeKept(s, s', p)
    ensures FileCalm(s, s', g)
  {
    assert ChunksOk(s, g) && HeadersOk(s, g);
    forall p | p in s.files[g].chunks ensures PipeKept(s, s', p) {
      var k :| 0 <= k < |s.files[g].chunks| && s.files[g].chunks[k] == p;
    }
  }

  lemma {:induction false} InvParts(s: State)
    ensures Inv(s) <==> Owned(s, []) && PipesOk(s) && ListsOk(s) && FilesOk(s) && ContentOk(s)
  {
    hide Owned, PipesOk, ListsOk, FilesOk, ContentOk;
  }

  // The new file and the lists, besides.
  ghost predicate Listing(s: State, s1: State, s': State, uri: Uri, content: seq<byte>) {
    && s.nextFile in s'.files && SameLists(s, s')
    && (var file := s'.files[s.nextFile];
        && file.uri == uri && file.content == content && !file.zombie && file.pending == 0
        && file.published == [] && file.writer.None? && |file.chunks| == ChunkCount(|content|))
    && s'.table == [Entry(uri, s.nextFile)] + s.table && s'.nextFile == s.nextFile + 1
    && s'.freed == s.freed && s'.nextReq == s.nextReq && s'.memUsed == s1.memUsed && s'.nextPipe == s1.nextPipe
    && s1.files == s.files && s1.reqs == s.reqs
  }

  lemma {:induction false} NewShape(s: State, t: Thread, uri: Uri, content: seq<byte>, evictable: bool, now: int,
                                    s1: State, ps: seq<PipeId>, s': State)
    requires t in s.workers && (forall p <- s.workers[t].pipePool :: p in s.pipes)
    requires (s1, ps) == PipesNew(s, t, 1 + ChunkCount(|content|)) && s' == FileNew(s, t, uri, content, evictable, now)
    requires Owned(s, []) && PipesOk(s)
    ensures Created(s, s1, ps, s.nextFile, s') && Listing(s, s1, s', uri, content)
    ensures forall p <- ps :: p in s.pipes ==> p in s.workers[t].pipePool
  {
    hide Owned, PipesOk, PipesNew, ChunkCount;
    PipesNewEmpty(s, t, 1 + ChunkCount(|content|));
  }

  lemma {:induction false} CreateKeeps(s: State, t: Thread, uri: Uri, content: seq<byte>, evictable: bool, now: int, s': State)
    requires t in s.workers && (forall p <- s.workers[t].pipePool :: p in s.pipes)
    requires Lookup(s.table, uri).None? && 0 < |content| <= INT_MAX
    requires s' == FileNew(s, t, uri, content, evictable, now)
    requires Inv(s)
    ensures Inv(s')
  {
    hide Inv, Owned, PipesOk, ListsOk, FilesOk, ContentOk, ChunksOk, HeadersOk, PipesNew, ChunkCount, FileNew, Lookup;
    InvParts(s);
    var (s1, ps) := PipesNew(s, t, 1 + ChunkCount(|content|));
    var f := s.nextFile;
    PipesNewOwned(s, t, 1 + ChunkCount(|content|));
    NewShape(s, t, uri, content, evictable, now, s1, ps, s');
    FreshFile(s);
    NameFile(s1, ps, f, s'.files[f], s');
    CreatedPipes(s1, f, s');
    ListsFrame(s, s');
    LookupIsEntry(s.table, uri);
    CreatedCounts(s, uri, s'.files[f], s');
    assert forall p <- ps[1..] :: p in ps;
    NewFileContent(s', f);
    CreatedContent(s, t, s1, ps, f, s');
    InvParts(s');
  }

  lemma {:induction false} FreshFile(s: State)
    requires FilesOk(s)
    ensures s.nextFile !in s.files
  {
    forall f | f in s.files ensures f != s.nextFile {
      assert FileCounted(s, f);
    }
  }

  lemma {:induction false} CreatedPipes(s: State, f: FileId, s': State)
    requires f !in s.files && f in s'.files && s'.files == s.files[f := s'.files[f]]
    requires s'.pipes == s.pipes && s'.workers == s.workers && s'.memUsed == s.memUsed && s'.nextPipe == s.nextPipe
    requires PipesOk(s)
    ensures PipesOk(s')
  {
    forall p | p in s'.pipes ensures s'.pipes[p].filled == |s'.pipes[p].data| || Writing(s', p) {
      if Writing(s, p) {
        var g :| g in s.files && s.files[g].headers == p && s.files[g].writer.Some?;
        assert g in s'.files && s'.files[g] == s.files[g];
      }
    }
  }

  // ----- cache_req_new and the set-up of stage 30 ---------------------------------------------

  // What Admit did: `r` came from the pool or is new, its pipe is empty, the rest is untouched.
  ghost predicate Admitted(s: State, t: Thread, socket: int, f: FileId, r: ReqId, s': State) {
    && t in s.workers && t in s'.workers && f in s.files && f in s'.files && r in s'.reqs
    && var w, w' := s.workers[t], s'.workers[t];
    && s'.workers.Keys == s.workers.Keys
    && (forall u <- s.workers :: u != t ==> s'.workers[u] == s.workers[u])
    && w'.live == w.live + [r]
    && (if w.reqPool != [] then r == w.reqPool[0] && w'.reqPool == w.reqPool[1..] && s'.nextReq == s.nextReq
        else r == s.nextReq && w'.reqPool == w.reqPool && s'.nextReq == s.nextReq + 1)
    && s'.reqs == s.reqs[r := s'.reqs[r]]
    && (var q := s'.reqs[r];
        q == Req(socket, f, Some(0), 0, |s.files[f].content|, q.buf, t, Arrived, false, [])
        && q.buf in s'.pipes && s'.pipes[q.buf] == EMPTY_PIPE
        && (q.buf in s.pipes ==> q.buf in w.pipePool || (r in s.reqs && s.reqs[r].buf == q.buf))
        && (forall p <- s.pipes :: p != q.buf ==> PipeKept(s, s', p)))
    && s'.files == s.files[f := s.files[f].(pending := s.files[f].pending + 1)]
    && s'.table == s.table && s'.nextFile == s.nextFile && s'.freed == s.freed
  }

  lemma {:induction false} IdleBuffer(s: State, r: ReqId)
    requires Owned(s, []) && PipesOk(s) && r in s.reqs
    ensures s.reqs[r].buf in s.pipes && s.pipes[s.reqs[r].buf].filled == |s.pipes[s.reqs[r].buf].data|
  {
    RefsOwned(s);
    BufferApart(s, r);
  }

  // cache_req_new: a pooled request with its pipe flushed, or a new one with a new pipe.
  lemma {:induction false} ReqNewPooled(s: State, t: Thread)
    requires Linked(s) && t in s.workers && s.workers[t].reqPool != []
    requires Owned(s, []) && PipesOk(s)
    ensures var (s1, r) := ReqNew(s, t);
            var w := s.workers[t];
            && r == w.reqPool[0] && r in s.reqs && s.reqs[r].buf in s.pipes && s.reqs[r].home == t
            && s1 == s.(pipes := s.pipes[s.reqs[r].buf := EMPTY_PIPE],
                        workers := s.workers[t := w.(reqPool := w.reqPool[1..])])
  {
    hide Owned, PipesOk;
    var r := s.workers[t].reqPool[0];
    IdleBuffer(s, r);
    var b := s.pipes[s.reqs[r].buf];
    assert b.data[|b.data|..] == [];
    assert (if b.filled != 0 then Flushed(b) else b) == EMPTY_PIPE;
  }

  lemma {:induction false} ReqNewFresh(s: State, t: Thread)
    requires Linked(s) && t in s.workers && s.workers[t].reqPool == []
    requires Owned(s, []) && PipesOk(s)
    ensures var (s1, r) := ReqNew(s, t);
            var (s0, p) := PipeNew(s, t);
            && r == s.nextReq && s1 == s0.(reqs := s1.reqs, nextReq := r + 1) && r in s1.reqs
            && s1.reqs == s.reqs[r := s1.reqs[r]] && s1.reqs[r].buf == p && s1.reqs[r].home == t
            && p in s1.pipes && s1.pipes[p] == EMPTY_PIPE && (p in s.pipes ==> p in s.workers[t].pipePool)
            && forall q <- s.pipes :: q != p ==> PipeKept(s, s1, q)
  {
    hide Owned, PipesOk;
    PoolIsSpare(s, [], t);
    PipeNewEmpty(s, t, []);
  }

  lemma {:induction false} AdmitShape(s: State, t: Thread, socket: int, f: FileId, r: ReqId, s': State)
    requires Linked(s) && t in s.workers && f in s.files && (s', r) == Admit(s, t, socket, f)
    requires Owned(s, []) && PipesOk(s)
    ensures Admitted(s, t, socket, f, r, s')
  {
    hide Owned, PipesOk, ReqNew, Linked;
    if s.workers[t].reqPool != [] {
      ReqNewPooled(s, t);
    } else {
      ReqNewFresh(s, t);
    }
  }

  lemma {:induction false} GiveHolds(s: State, r: ReqId, p: PipeId, q: Req, s': State, slot: Slot, x: PipeId)
    requires r !in s.reqs && q.buf == p && Holds(s, [p], slot, x) && x != p
    requires s'.reqs == s.reqs[r := q] && s'.files == s.files && s'.workers == s.workers
    ensures Holds(s', [], slot, x)
  {
  }

  // A new request object keeps the pipe that was taken for it.
  lemma {:induction false} GiveBuffer(s: State, r: ReqId, p: PipeId, q: Req, s': State)
    requires r !in s.reqs && q.buf == p && s'.reqs == s.reqs[r := q] && s'.pipes == s.pipes
    requires s'.files == s.files && s'.workers == s.workers
    requires Owned(s, [p])
    ensures Owned(s', [])
  {
    hide Holds;
    var owner :| OwnedBy(s, [p], owner);
    assert InHandOwned([p], owner) && p in [p];
    assert OwnerIs(owner, p, InHand);
    var owner' := owner[p := BufferOf(r)];
    hide InHandOwned, FileOwned, PoolOwned;
    forall f | f in s'.files ensures FileOwned(s'.files[f], f, owner') {
      FileKeepsPipes(s.files[f], f, owner, p, BufferOf(r));
    }
    forall i | i in s'.reqs ensures OwnerIs(owner', s'.reqs[i].buf, BufferOf(i)) {
      assert i != r ==> OwnerIs(owner, s.reqs[i].buf, BufferOf(i));
    }
    forall u | u in s'.workers ensures PoolOwned(s'.workers[u].pipePool, u, owner') {
      PoolKeepsPipes(s.workers[u].pipePool, u, owner, p, BufferOf(r));
    }
    forall x | x in owner' && x != p ensures Holds(s', [], owner'[x], x) {
      GiveHolds(s, r, p, q, s', owner[x], x);
    }
    BufferHolds(s', r);
    assert owner'.Keys == s'.pipes.Keys;
    NoneInHand(owner');
    assert OwnedBy(s', [], owner');
  }

  lemma {:induction false} NoneInHand(owner: map<PipeId, Slot>)
    ensures InHandOwned([], owner)
  {
  }

  lemma {:induction false} BufferHolds(s: State, r: ReqId)
    requires r in s.reqs
    ensures Holds(s, [], BufferOf(r), s.reqs[r].buf)
  {
  }

  lemma {:induction false} ReqNewOwned(s: State, t: Thread, r: ReqId, s1: State)
    requires Linked(s) && t in s.workers && (s1, r) == ReqNew(s, t)
    requires s.nextReq !in s.reqs
    requires Owned(s, []) && PipesOk(s)
    ensures Owned(s1, []) && PipesOk(s1)
    ensures r in s1.reqs && s1.files == s.files && s1.workers.Keys == s.workers.Keys
    ensures s1.reqs[r].buf in s1.pipes && s1.pipes[s1.reqs[r].buf] == EMPTY_PIPE
  {
    hide Owned, PipesOk, ReqNew;
    if s.workers[t].reqPool != [] {
      ReqNewPooled(s, t);
      RefsOwned(s);
      SameOwners(s, s1, []);
      FlushedPipesOk(s, r, s1);
    } else {
      ReqNewFresh(s, t);
      NewReqOwned(s, t, r, s1);
    }
  }

  // Beyond making a request, admitting it changes no place of a pipe.
  lemma {:induction false} AdmitIs(s: State, t: Thread, socket: int, f: FileId)
    requires Linked(s) && t in s.workers && f in s.files
    requires ReqNew(s, t).1 in ReqNew(s, t).0.reqs && ReqNew(s, t).0.files == s.files
    requires ReqNew(s, t).0.workers.Keys == s.workers.Keys
    ensures var s1, (s', r) := ReqNew(s, t).0, Admit(s, t, socket, f);
            && r == ReqNew(s, t).1 && SamePlaces(s1, s')
            && s'.pipes == s1.pipes && s'.memUsed == s1.memUsed && s'.nextPipe == s1.nextPipe
            && (forall g <- s1.files :: SameText(s1.files[g], s'.files[g]))
  {
    hide ReqNew, Linked;
  }

  lemma {:induction false} PlacesAreKept(s: State, s': State)
    requires SamePlaces(s, s')
    ensures s'.workers.Keys == s.workers.Keys && s'.files.Keys == s.files.Keys
    ensures forall t <- s.workers :: s'.workers[t].pipePool == s.workers[t].pipePool
  {
  }

  lemma {:induction false} AdmitOwned(s: State, t: Thread, socket: int, f: FileId, r: ReqId, s': State)
    requires Linked(s) && t in s.workers && f in s.files && (s', r) == Admit(s, t, socket, f)
    requires s.nextReq !in s.reqs
    requires Owned(s, []) && PipesOk(s)
    ensures Owned(s', []) && PipesOk(s')
  {
    hide Owned, PipesOk, ReqNew, Admit, SamePlaces, SameText;
    var (s1, r1) := ReqNew(s, t);
    ReqNewOwned(s, t, r1, s1);
    AdmitIs(s, t, socket, f);
    PlacesAreKept(s1, s');
    SameOwners(s1, s', []);
    UntouchedPipesOk(s1, s');
  }

  lemma {:induction false} NewReqOwned(s: State, t: Thread, r: ReqId, s1: State)
    requires t in s.workers && (forall p <- s.workers[t].pipePool :: p in s.pipes) && r !in s.reqs
    requires var (s0, p) := PipeNew(s, t);
             r in s1.reqs && s1 == s0.(reqs := s.reqs[r := s1.reqs[r]], nextReq := s1.nextReq) && s1.reqs[r].buf == p
    requires Owned(s, []) && PipesOk(s)
    ensures Owned(s1, []) && PipesOk(s1)
  {
    hide Owned, PipesOk;
    var (s0, p) := PipeNew(s, t);
    assert [] + [p] == [p];
    PipeNewOwned(s, t, []);
    PoolIsSpare(s, [], t);
    PipeNewPipesOk(s, t, []);
    GiveBuffer(s0, r, p, s1.reqs[r], s1);
    UntouchedPipesOk(s0, s1);
  }

  lemma {:induction false} FlushedPipesOk(s: State, r: ReqId, s1: State)
    requires r in s.reqs && s.reqs[r].buf in s.pipes && s1.pipes == s.pipes[s.reqs[r].buf := EMPTY_PIPE]
    requires s1.files == s.files && s1.memUsed == s.memUsed && s1.nextPipe == s.nextPipe
    requires s1.workers.Keys == s.workers.Keys && forall t <- s.workers :: s1.workers[t].pipePool == s.workers[t].pipePool
    requires PipesOk(s)
    ensures PipesOk(s1)
  {
    SizeWith(s.pipes, s.reqs[r].buf, EMPTY_PIPE);
    assert forall p :: Writing(s, p) ==> Writing(s1, p);
  }

  lemma {:induction false} UntouchedPipesOk(s: State, s1: State)
    requires s1.pipes == s.pipes && s1.memUsed == s.memUsed && s1.nextPipe == s.nextPipe
    requires s1.workers.Keys == s.workers.Keys && forall t <- s.workers :: s1.workers[t].pipePool == s.workers[t].pipePool
    requires s1.files.Keys == s.files.Keys && forall f <- s.files :: SameText(s.files[f], s1.files[f])
    requires PipesOk(s)
    ensures PipesOk(s1)
  {
    forall p | p in s1.pipes ensures s1.pipes[p].filled == |s1.pipes[p].data| || Writing(s1, p) {
      if Writing(s, p) {
        var g :| g in s.files && s.files[g].headers == p && s.files[g].writer.Some?;
        assert SameText(s.files[g], s1.files[g]);
      }
    }
  }

  lemma {:induction false} AdmittedWorker(s: State, t: Thread, socket: int, f: FileId, r: ReqId, s': State, u: Thread)
    requires Admitted(s, t, socket, f, r, s') && u in s.workers && WorkerOk(s, u)
    requires r in s.reqs ==> s.reqs[r].phase == Idle && s.reqs[r].home == t
    requires forall i <- s.reqs :: i < s.nextReq
    ensures WorkerOk(s', u)
  {
    var w := s.workers[u];
    assert r !in w.live by { assert !OnList(s, u, r, false); }
    assert u != t ==> r !in w.reqPool by { assert u != t ==> !OnList(s, u, r, true); }
    forall i | i in s'.workers[u].live ensures OnList(s', u, i, false) {
      assert i != r ==> i in w.live && OnList(s, u, i, false);
    }
    if w.reqPool != [] {
      NoDupTail(w.reqPool);
    }
    forall i | i in s'.workers[u].reqPool ensures OnList(s', u, i, true) {
      assert i in w.reqPool && i != r && OnList(s, u, i, true);
    }
    NoDupAppend(w.live, r);
  }

  lemma {:induction false} AdmittedLists(s: State, t: Thread, socket: int, f: FileId, r: ReqId, s': State)
    requires Admitted(s, t, socket, f, r, s')
    requires forall i <- s.workers[t].live :: i in s.reqs ==> s.reqs[i].socket != socket
    requires ListsOk(s)
    ensures ListsOk(s')
  {
    hide WorkerOk;
    assert WorkerOk(s, t);
    PoolHeadIdle(s, t);
    forall u | u in s'.workers ensures WorkerOk(s', u) {
      assert WorkerOk(s, u);
      AdmittedWorker(s, t, socket, f, r, s', u);
    }
    forall i | i in s'.reqs ensures i < s'.nextReq && Listed(s', i) {
      assert i != r ==> Listed(s, i);
    }
    forall i, j | i in s'.reqs && j in s'.reqs && i != j ensures SocketsApart(s'.reqs[i], s'.reqs[j]) {
      if i != r && j != r {
        assert SocketsApart(s.reqs[i], s.reqs[j]);
      } else {
        var o := if i == r then j else i;
        assert Listed(s, o);
      }
    }
  }

  lemma {:induction false} PoolHeadIdle(s: State, t: Thread)
    requires t in s.workers && WorkerOk(s, t)
    ensures s.workers[t].reqPool != [] ==> OnList(s, t, s.workers[t].reqPool[0], true)
  {
  }

  lemma {:induction false} AdmittedLive(s: State, t: Thread, socket: int, f: FileId, r: ReqId, s': State, g: FileId)
    requires Admitted(s, t, socket, f, r, s') && (r in s.reqs ==> s.reqs[r].phase == Idle)
    ensures r !in LiveOn(s, f) && LiveOn(s', g) == LiveOn(s, g) + if g == f then {r} else {}
  {
  }

  lemma {:induction false} AdmittedCounts(s: State, t: Thread, socket: int, f: FileId, r: ReqId, s': State)
    requires Admitted(s, t, socket, f, r, s') && (r in s.reqs ==> s.reqs[r].phase == Idle)
    requires FilesOk(s)
    ensures FilesOk(s')
  {
    hide LiveOn;
    forall g | g in s'.files ensures FileCounted(s', g) {
      assert FileCounted(s, g);
      AdmittedLive(s, t, socket, f, r, s', g);
    }
  }

  lemma {:induction false} AdmittedFile(s: State, t: Thread, socket: int, f: FileId, r: ReqId, s': State, g: FileId)
    requires Admitted(s, t, socket, f, r, s') && (r in s.reqs ==> s.reqs[r].phase == Idle) && g in s.files
    requires ChunksOk(s, g) && HeadersOk(s, g)
    requires Owned(s, [])
    ensures FileCalm(s, s', g)
  {
    hide Owned;
    PooledApart(s, t);
    if r in s.reqs {
      BufferApart(s, r);
    }
    var buf := s'.reqs[r].buf;
    assert buf != s.files[g].headers && buf !in s.files[g].chunks;
  }

  lemma {:induction false} AdmittedOther(s: State, t: Thread, socket: int, f: FileId, r: ReqId, s': State, i: ReqId)
    requires Admitted(s, t, socket, f, r, s') && i in s.reqs && i != r
    requires ReqRefs(s, i) && FileCalm(s, s', s.reqs[i].file)
    requires Owned(s, [])
    ensures ReqCalm(s, s', i)
  {
    hide Owned, FileCalm;
    RefsOwned(s);
    PooledApart(s, t);
    if r in s.reqs {
      BufferApart(s, r);
    }
    assert s'.reqs[r].buf != s.reqs[i].buf;
  }

  lemma {:induction false} AdmittedStart(s: State, t: Thread, socket: int, f: FileId, r: ReqId, s': State)
    requires Admitted(s, t, socket, f, r, s') && FileCalm(s, s', f) && ChunksOk(s', f)
    ensures ReqRefs(s', r) && CurrRef(s', r) && ReqOk(s', r)
  {
    assert forall p <- s'.files[f].chunks :: PipeKept(s, s', p);
    assert StartOk(s', r);
  }

  lemma {:induction false} AdmittedContent(s: State, t: Thread, socket: int, f: FileId, r: ReqId, s': State)
    requires Admitted(s, t, socket, f, r, s') && (r in s.reqs ==> s.reqs[r].phase == Idle)
    requires Owned(s, []) && ContentOk(s)
    ensures ContentOk(s') && ReqRefs(s', r) && CurrRef(s', r)
  {
    hide Owned, FileCalm, ReqCalm, ReqOk, ChunksOk, HeadersOk;
    forall g | g in s'.files ensures FileCalm(s, s', g) && ChunksOk(s', g) && HeadersOk(s', g) {
      assert ChunksOk(s, g) && HeadersOk(s, g);
      AdmittedFile(s, t, socket, f, r, s', g);
      CalmSurvives(s, s', g);
    }
    AdmittedStart(s, t, socket, f, r, s');
    forall i | i in s'.reqs && s'.reqs[i].phase != Idle ensures ReqRefs(s', i) && ReqOk(s', i) {
      if i != r {
        assert ReqRefs(s, i);
        AdmittedOther(s, t, socket, f, r, s', i);
        CalmReqSurvives(s, s', i);
      }
    }
  }

  lemma {:induction false} NewReqId(s: State)
    requires ListsOk(s)
    ensures s.nextReq !in s.reqs && forall i <- s.reqs :: i < s.nextReq
  {
  }

  lemma {:induction false} PooledIdle(s: State, t: Thread, r: ReqId)
    requires t in s.workers && (if s.workers[t].reqPool != [] then r == s.workers[t].reqPool[0] else r == s.nextReq)
    requires ListsOk(s)
    ensures r in s.reqs ==> s.reqs[r].phase == Idle && s.reqs[r].home == t
  {
    assert WorkerOk(s, t);
    PoolHeadIdle(s, t);
  }

  lemma {:induction false} AdmitKeeps(s: State, t: Thread, socket: int, f: FileId, r: ReqId, s': State)
    requires Linked(s) && t in s.workers && f in s.files && (s', r) == Admit(s, t, socket, f)
    requires forall i <- s.workers[t].live :: i in s.reqs ==> s.reqs[i].socket != socket
    requires Inv(s)
    ensures Inv(s') && CurrRef(s', r) && Admitted(s, t, socket, f, r, s')
  {
    hide Owned, PipesOk, ListsOk, FilesOk, ContentOk, Admit;
    NewReqId(s);
    AdmitShape(s, t, socket, f, r, s');
    AdmitOwned(s, t, socket, f, r, s');
    PooledIdle(s, t, r);
    AdmittedLists(s, t, socket, f, r, s');
    AdmittedCounts(s, t, socket, f, r, s');
    AdmittedContent(s, t, socket, f, r, s');
  }

  // What the early fill does, said without its function.
  lemma {:induction false} EarlyMoves(s: State, r: ReqId, ok: bool, s': State)
    requires CurrRef(s, r) && s.reqs[r].phase == Arrived && s' == EarlyFillStep(s, r, ok)
    ensures var s1 := FillCurr(s, r, ok).0;
            s1 == s.(pipes := s1.pipes, locked := s1.locked) && s1.pipes.Keys == s.pipes.Keys ==>
              && ReqMoved(s, s', r) && s'.files == s.files && s'.pipes == s1.pipes
              && s'.reqs[r] == s.reqs[r].(phase := Fresh)
    ensures r in s'.reqs && s'.reqs[r].file == s.reqs[r].file
  {
    hide FillCurr;
  }

  lemma {:induction false} EarlyReq(s: State, r: ReqId, s': State)
    requires ReqRefs(s, r) && ReqMoved(s, s', r) && ChunksOk(s, s.reqs[r].file) && StartOk(s, r)
    requires s'.files == s.files && ChunksGrow(s, s', s.reqs[r].file) && BufferKept(s, s', r)
    requires HeadersKept(s, s', s.reqs[r].file) && s'.reqs[r] == s.reqs[r].(phase := Fresh)
    ensures ReqRefs(s', r) && ChunksOk(s', s.reqs[r].file) && ReqOk(s', r)
  {
    ChunksFrame(s, s', s.reqs[r].file);
    forall p | p in s.files[s.reqs[r].file].chunks ensures p in s'.pipes {
      assert p in s.pipes;
    }
    assert StartOk(s', r);
  }

  lemma {:induction false} ArrivedReq(s: State, r: ReqId)
    requires ContentOk(s) && CurrRef(s, r) && s.reqs[r].phase == Arrived
    ensures ChunksOk(s, s.reqs[r].file) && StartOk(s, r) && StreamOk(s, r) && CursorOk(s, r)
    ensures s.reqs[r].curr == Some(0) && FileOf(s, r).chunks != []
    ensures ChunkRange(FileOf(s, r).content, 0) && FileOf(s, r).chunks[0] in s.pipes
  {
    ActiveRefs(s, r);
  }

  // The early fill at cache.c:413.
  lemma {:induction false} EarlyFillKeeps(s: State, r: ReqId, ok: bool, s': State)
    requires CurrRef(s, r) && s.reqs[r].phase == Arrived && PlainPipe(s.pipes[CurrOf(s, r)])
    requires s' == EarlyFillStep(s, r, ok)
    requires Inv(s)
    ensures Inv(s') && FileOf(s, r).chunks != [] && ChunkRange(FileOf(s, r).content, 0)
    ensures var p := FileOf(s, r).chunks[0];
            s'.pipes == s.pipes
            || (p in s.pipes && s.pipes[p].data == [] && p in s'.pipes && s'.pipes == s.pipes[p := s'.pipes[p]]
                && s'.pipes[p].data == ChunkBytes(FileOf(s, r).content, 0))
  {
    hide Owned, PipesOk, ListsOk, FilesOk, ContentOk, ReqMoved, OthersKept, BufferKept, HeadersKept, ChunksGrow,
         PlainWrites, FillCurr, EarlyFillStep, StartOk, StreamOk, CursorOk, ChunksOk, ChunkBytes, Complete, ChunkRange;
    ArrivedReq(s, r);
    FillCases(s, r, ok);
    EarlyMoves(s, r, ok, s');
    var s1 := FillCurr(s, r, ok).0;
    if s1.pipes == s.pipes {
      FillIdle(s, r, s');
    } else {
      FillWrites(s, r, s', 0, s1.pipes[CurrOf(s, r)]);
    }
    EarlyReq(s, r, s');
    NotPublishing(s.reqs[r].phase);
    FillEnds(s, r, s');
  }

  lemma {:induction false} ChunkIsPlain(s: State, r: ReqId)
    requires CurrRef(s, r)
    requires Owned(s, []) && PipesOk(s)
    ensures PlainPipe(s.pipes[CurrOf(s, r)])
  {
    hide OwnedBy;
    var p := CurrOf(s, r);
    forall f | f in s.files ensures s.files[f].headers != p {
      HeadersApart(s, f);
      assert p in FileOf(s, r).chunks;
    }
  }

  // ----- recycling ----------------------------------------------------------------------------

  // New pipes are the pooled ones, oldest first, as long as there are any; none is created.
  lemma {:induction false} FromPool(s: State, t: Thread, n: nat)
    requires t in s.workers && (forall p <- s.workers[t].pipePool :: p in s.pipes) && n <= |s.workers[t].pipePool|
    ensures var (s', ps) := PipesNew(s, t, n);
            && ps == s.workers[t].pipePool[..n] && s'.workers[t].pipePool == s.workers[t].pipePool[n..]
            && s'.nextPipe == s.nextPipe && s'.memUsed == s.memUsed && s'.pipes.Keys == s.pipes.Keys
    decreases n
  {
    hide PipesNew, PipeNew;
    if n == 0 {
      NoPipes(s, t);
      assert s.workers[t].pipePool[..0] == [] && s.workers[t].pipePool[0..] == s.workers[t].pipePool;
    } else {
      FromPool(s, t, n - 1);
      OneMoreOf(s, t, n);
      var pool := s.workers[t].pipePool;
      TakePooled(PipesNew(s, t, n - 1).0, t);
      assert pool[..n] == pool[..n - 1] + [pool[n - 1]] && pool[n - 1..][1..] == pool[n..];
    }
  }

  lemma {:induction false} NoPipes(s: State, t: Thread)
    requires t in s.workers && forall p <- s.workers[t].pipePool :: p in s.pipes
    ensures PipesNew(s, t, 0) == (s, [])
  {
  }

  lemma {:induction false} TakePooled(s: State, t: Thread)
    requires t in s.workers && (forall p <- s.workers[t].pipePool :: p in s.pipes) && s.workers[t].pipePool != []
    ensures var (s', p) := PipeNew(s, t);
            && t in s'.workers && p == s.workers[t].pipePool[0] && s'.workers[t].pipePool == s.workers[t].pipePool[1..]
            && s'.nextPipe == s.nextPipe && s'.memUsed == s.memUsed && s'.pipes.Keys == s.pipes.Keys
  {
  }

  lemma {:induction false} OneMoreOf(s: State, t: Thread, n: nat)
    requires t in s.workers && (forall p <- s.workers[t].pipePool :: p in s.pipes) && n > 0
    ensures var (s1, ps) := PipesNew(s, t, n - 1);
            PipesNew(s, t, n) == (PipeNew(s1, t).0, ps + [PipeNew(s1, t).1])
  {
  }

  // A pipe that is freed is handed out again, after those freed before it, unless the pool is full.
  lemma {:induction false} PipeRecycled(s: State, t: Thread, p: PipeId)
    requires t in s.workers && (forall q <- s.workers[t].pipePool :: q in s.pipes) && p in s.pipes
    ensures var s1, pool := PipeFree(s, t, p), s.workers[t].pipePool;
            if |pool| >= PIPE_BUF_POOL_MAX then p !in s1.pipes && s1.memUsed == s.memUsed - PIPE_SIZE
            else
              && t in s1.workers && (forall q <- s1.workers[t].pipePool :: q in s1.pipes) && s1.memUsed == s.memUsed
              && var (s2, ps) := PipesNew(s1, t, |pool| + 1);
                 ps == pool + [p] && s2.nextPipe == s.nextPipe && s2.memUsed == s.memUsed
  {
    hide PipesNew;
    var s1, pool := PipeFree(s, t, p), s.workers[t].pipePool;
    if |pool| < PIPE_BUF_POOL_MAX {
      assert s1.workers[t].pipePool == pool + [p];
      FromPool(s1, t, |pool| + 1);
      assert (pool + [p])[..|pool| + 1] == pool + [p];
    }
  }

  // So is a request object, with its pipe.
  lemma {:induction false} ReqRecycled(s: State, r: ReqId)
    requires r in s.reqs && s.reqs[r].home in s.workers && s.reqs[r].buf in s.pipes
    requires var w := s.workers[s.reqs[r].home];
             (forall p <- w.pipePool :: p in s.pipes) && (forall i <- w.reqPool :: i in s.reqs && s.reqs[i].buf in s.pipes)
    ensures var s1, t := ReqPark(s, r), s.reqs[r].home;
            if |s.workers[t].reqPool| >= CACHE_REQ_POOL_MAX then r !in s1.reqs
            else
              && t in s1.workers && (forall p <- s1.workers[t].pipePool :: p in s1.pipes)
              && (forall i <- s1.workers[t].reqPool :: i in s1.reqs && s1.reqs[i].buf in s1.pipes)
              && var (s2, i) := ReqNew(s1, t);
                 && s2.nextReq == s.nextReq && s2.reqs == s.reqs
                 && i == if s.workers[t].reqPool == [] then r else s.workers[t].reqPool[0]
  {
  }
}
