/**
Frame lemmas for the contents of pipes: which facts about files and requests survive a step that
changes one request, one file and the pipes they own.
*/
module Streams {
  import opened Options
  import opened TableLog
  import opened CacheState
  import opened Protocol
  import opened Ownership

  // ----- distinct owners ----------------------------------------------------------------------

  lemma {:induction false} BufferApart(s: State, r: ReqId)
    requires Owned(s, []) && r in s.reqs
    ensures forall f <- s.files :: s.files[f].headers != s.reqs[r].buf
    ensures forall f <- s.files :: s.reqs[r].buf !in s.files[f].chunks
    ensures forall r' <- s.reqs :: r' != r ==> s.reqs[r'].buf != s.reqs[r].buf
  {
    var owner :| OwnedBy(s, [], owner);
    assert OwnerIs(owner, s.reqs[r].buf, BufferOf(r));
    forall f | f in s.files ensures s.files[f].headers != s.reqs[r].buf && s.reqs[r].buf !in s.files[f].chunks {
      assert FileOwned(s.files[f], f, owner);
    }
    forall r' | r' in s.reqs && r' != r ensures s.reqs[r'].buf != s.reqs[r].buf {
      assert OwnerIs(owner, s.reqs[r'].buf, BufferOf(r'));
    }
  }

  lemma {:induction false} HeadersApart(s: State, f: FileId)
    requires Owned(s, []) && f in s.files
    ensures forall g <- s.files :: g != f ==> s.files[g].headers != s.files[f].headers
    ensures forall g <- s.files :: s.files[f].headers !in s.files[g].chunks
  {
    var owner :| OwnedBy(s, [], owner);
    assert FileOwned(s.files[f], f, owner);
    forall g | g in s.files
      ensures (g != f ==> s.files[g].headers != s.files[f].headers) && s.files[f].headers !in s.files[g].chunks
    {
      assert FileOwned(s.files[g], g, owner);
    }
  }

  lemma {:induction false} ChunkApart(s: State, f: FileId, k: nat)
    requires Owned(s, []) && f in s.files && k < |s.files[f].chunks|
    ensures forall g, j {:trigger s.files[g].chunks[j]} ::
              g in s.files && 0 <= j < |s.files[g].chunks| && s.files[g].chunks[j] == s.files[f].chunks[k] ==> g == f && j == k
  {
    var owner :| OwnedBy(s, [], owner);
    assert FileOwned(s.files[f], f, owner);
    forall g, j | g in s.files && 0 <= j < |s.files[g].chunks| && s.files[g].chunks[j] == s.files[f].chunks[k]
      ensures g == f && j == k
    {
      assert FileOwned(s.files[g], g, owner);
    }
  }

  // ----- steps of one request -----------------------------------------------------------------

  ghost predicate SameFile(x: File, y: File) {
    x.uri == y.uri && x.content == y.content && x.chunks == y.chunks && x.headers == y.headers
    && x.zombie == y.zombie && x.pending == y.pending && x.evictable == y.evictable
  }

  // The handler of `r` moved: no reference, list or table entry changed.
  ghost predicate ReqMoved(s: State, s': State, r: ReqId) {
    && r in s.reqs && s.reqs[r].phase != Idle
    && s'.reqs.Keys == s.reqs.Keys && (forall r' <- s.reqs :: r' != r ==> s'.reqs[r'] == s.reqs[r'])
    && (var q, q' := s.reqs[r], s'.reqs[r];
        q'.buf == q.buf && q'.home == q.home && q'.socket == q.socket && q'.file == q.file && q'.phase != Idle)
    && s'.files.Keys == s.files.Keys && (forall f <- s.files :: SameFile(s.files[f], s'.files[f]))
    && s'.pipes.Keys == s.pipes.Keys
    && s'.table == s.table && s'.workers == s.workers && s'.memUsed == s.memUsed
    && s'.nextPipe == s.nextPipe && s'.nextFile == s.nextFile && s'.nextReq == s.nextReq && s'.freed == s.freed
  }

  lemma {:induction false} MovedPlaces(s: State, s': State, r: ReqId)
    requires ReqMoved(s, s', r)
    ensures SamePlaces(s, s')
  {
    forall f | f in s.files ensures SamePipes(s.files[f], s'.files[f]) {
      assert SameFile(s.files[f], s'.files[f]);
    }
  }

  lemma {:induction false} MovedLists(s: State, s': State, r: ReqId)
    requires ReqMoved(s, s', r) && ListsOk(s)
    ensures ListsOk(s')
  {
    forall t | t in s'.workers ensures WorkerOk(s', t) {
      assert WorkerOk(s, t);
      assert forall i, idle :: OnList(s, t, i, idle) ==> OnList(s', t, i, idle);
    }
    forall i | i in s'.reqs ensures i < s'.nextReq && Listed(s', i) {
      assert Listed(s, i);
    }
    forall i, j | i in s'.reqs && j in s'.reqs && i != j ensures SocketsApart(s'.reqs[i], s'.reqs[j]) {
      assert SocketsApart(s.reqs[i], s.reqs[j]);
    }
  }

  // Request `i` is live on file `f`.
  ghost predicate Busy(s: State, i: ReqId, f: FileId) {
    i in s.reqs && s.reqs[i].phase != Idle && s.reqs[i].file == f
  }

  lemma {:induction false} SameLive(s: State, s': State, f: FileId)
    requires forall i :: Busy(s, i, f) <==> Busy(s', i, f)
    ensures LiveOn(s', f) == LiveOn(s, f)
  {
    assert forall i :: i in LiveOn(s, f) <==> Busy(s, i, f);
    assert forall i :: i in LiveOn(s', f) <==> Busy(s', i, f);
  }

  lemma {:induction false} MovedFiles(s: State, s': State, r: ReqId)
    requires ReqMoved(s, s', r) && FilesOk(s)
    ensures FilesOk(s')
  {
    hide LiveOn;
    forall f | f in s'.files ensures FileCounted(s', f) {
      assert FileCounted(s, f) && SameFile(s.files[f], s'.files[f]);
      SameLive(s, s', f);
    }
    forall e | e in s'.table ensures e.val in s'.files && s'.files[e.val].uri == e.key {
      assert SameFile(s.files[e.val], s'.files[e.val]);
    }
  }

  // ----- contents -----------------------------------------------------------------------------

  // Chunks only ever go from empty to complete.
  ghost predicate ChunksGrow(s: State, s': State, f: FileId) {
    && f in s.files && f in s'.files
    && s'.files[f].content == s.files[f].content && s'.files[f].chunks == s.files[f].chunks
    && forall k :: 0 <= k < |s.files[f].chunks| ==> ChunkGrows(s, s', f, k)
  }

  ghost predicate ChunkGrows(s: State, s': State, f: FileId, k: nat)
    requires f in s.files && k < |s.files[f].chunks|
  {
    var p := s.files[f].chunks[k];
    && p in s.pipes && p in s'.pipes
    && (s'.pipes[p] == s.pipes[p]
        || (s.pipes[p].data == [] && ChunkRange(s.files[f].content, k)
            && s'.pipes[p].data == ChunkBytes(s.files[f].content, k)))
  }

  lemma {:induction false} ChunksFrame(s: State, s': State, f: FileId)
    requires ChunksGrow(s, s', f) && ChunksOk(s, f)
    ensures ChunksOk(s', f)
    ensures forall k :: 0 <= k < |s.files[f].chunks| && Complete(s, f, k) ==> Complete(s', f, k)
  {
    forall k | 0 <= k < |s.files[f].chunks|
      ensures ChunkRange(s.files[f].content, k)
      ensures s.files[f].chunks[k] in s'.pipes
      ensures s'.pipes[s.files[f].chunks[k]].data == [] || Complete(s', f, k)
      ensures Complete(s, f, k) ==> Complete(s', f, k)
    {
      assert ChunkGrows(s, s', f, k);
    }
  }

  lemma {:induction false} HeadersFrame(s: State, s': State, f: FileId)
    requires ChunksGrow(s, s', f) && ChunksOk(s, f) && ChunksOk(s', f) && HeadersOk(s, f)
    requires var x, y := s.files[f], s'.files[f];
             x.headers == y.headers && x.published == y.published && x.writer == y.writer && x.headerLen == y.headerLen
    requires s.files[f].headers in s'.pipes && s'.pipes[s.files[f].headers] == s.pipes[s.files[f].headers]
    requires s.files[f].writer.Some? ==>
               var w := s.files[f].writer.value; w in s.reqs && w in s'.reqs && s'.reqs[w] == s.reqs[w]
    ensures HeadersOk(s', f)
  {
    ChunksFrame(s, s', f);
  }

  lemma {:induction false} ReqFrame(s: State, s': State, r: ReqId)
    requires ReqRefs(s, r) && ReqRefs(s', r) && s'.reqs[r] == s.reqs[r]
    requires ChunksOk(s, s.reqs[r].file) && ReqOk(s, r)
    requires ChunksGrow(s, s', s.reqs[r].file) && ChunksOk(s', s.reqs[r].file)
    requires BufOf(s', r) == BufOf(s, r)
    requires s.reqs[r].cached ==> FileOf(s', r).published == FileOf(s, r).published
    requires Publishing(s.reqs[r].phase) ==> FileOf(s', r).writer == FileOf(s, r).writer
    ensures ReqOk(s', r)
  {
    ChunksFrame(s, s', s.reqs[r].file);
  }

  // ----- a step of `r` on its file ------------------------------------------------------------

  // Everything outside request `r`, the header pipe of its file and empty chunks is untouched.
  ghost predicate OthersKept(s: State, s': State, r: ReqId)
    requires ReqMoved(s, s', r)
  {
    var f := s.reqs[r].file;
    && (forall g <- s.files :: ChunksGrow(s, s', g))
    && (forall g <- s.files :: g != f ==> HeadersKept(s, s', g))
    && (forall i <- s.reqs :: i != r ==> BufferKept(s, s', i))
  }

  ghost predicate HeadersKept(s: State, s': State, g: FileId) {
    && g in s.files && g in s'.files && s'.files[g] == s.files[g]
    && s.files[g].headers in s.pipes && s.files[g].headers in s'.pipes
    && s'.pipes[s.files[g].headers] == s.pipes[s.files[g].headers]
  }

  ghost predicate BufferKept(s: State, s': State, i: ReqId) {
    && i in s.reqs && s.reqs[i].buf in s.pipes && s.reqs[i].buf in s'.pipes
    && s'.pipes[s.reqs[i].buf] == s.pipes[s.reqs[i].buf]
  }

  // What other requests on the file rely on: published headers stay, and so does another writer.
  ghost predicate FileAdvances(s: State, s': State, r: ReqId, f: FileId)
    requires f in s.files && f in s'.files
  {
    var x, y := s.files[f], s'.files[f];
    && (x.published != [] ==> y.published == x.published)
    && (x.writer != y.writer ==> x.writer in {None, Some(r)})
  }

  lemma {:induction false} MovedContent(s: State, s': State, r: ReqId)
    requires ContentOk(s) && ReqMoved(s, s', r) && OthersKept(s, s', r)
    requires var f := s.reqs[r].file;
             FileAdvances(s, s', r, f) && ChunksOk(s', f) && HeadersOk(s', f) && ReqRefs(s', r) && ReqOk(s', r)
    ensures ContentOk(s')
  {
    var f := s.reqs[r].file;
    forall g | g in s'.files ensures ChunksOk(s', g) && HeadersOk(s', g) {
      if g != f {
        assert ChunksGrow(s, s', g) && HeadersKept(s, s', g);
        ChunksFrame(s, s', g);
        HeadersFrame(s, s', g);
      }
    }
    forall i | i in s'.reqs && s'.reqs[i].phase != Idle ensures ReqRefs(s', i) && ReqOk(s', i) {
      if i != r {
        MovedOther(s, s', r, i);
      }
    }
  }

  lemma {:induction false} MovedOther(s: State, s': State, r: ReqId, i: ReqId)
    requires ContentOk(s) && ReqMoved(s, s', r) && OthersKept(s, s', r)
    requires i in s'.reqs && i != r && s'.reqs[i].phase != Idle
    requires FileAdvances(s, s', r, s.reqs[r].file) && ChunksOk(s', s.reqs[r].file)
    ensures ReqRefs(s', i) && s'.reqs[i].file in s'.files && ChunksOk(s', s'.reqs[i].file) && ReqOk(s', i)
  {
    var g := s.reqs[i].file;
    assert ReqRefs(s, i) && ReqOk(s, i) && SameFile(s.files[g], s'.files[g]);
    assert ChunksGrow(s, s', g) && BufferKept(s, s', i);
    ChunksFrame(s, s', g);
    if g != s.reqs[r].file {
      assert HeadersKept(s, s', g);
    }
    ReqFrame(s, s', i);
  }

  // ----- which pipe a step wrote --------------------------------------------------------------

  // Of the pipes there were, only these changed.
  ghost predicate OnlyPipes(s: State, s': State, ws: set<PipeId>) {
    forall p <- s.pipes :: p in s'.pipes && (p !in ws ==> s'.pipes[p] == s.pipes[p])
  }

  lemma {:induction false} RefsOwned(s: State)
    requires Owned(s, [])
    ensures forall g <- s.files :: s.files[g].headers in s.pipes
    ensures forall i <- s.reqs :: s.reqs[i].buf in s.pipes
  {
    var owner :| OwnedBy(s, [], owner);
    forall g | g in s.files ensures s.files[g].headers in s.pipes {
      assert FileOwned(s.files[g], g, owner);
    }
    forall i | i in s.reqs ensures s.reqs[i].buf in s.pipes {
      assert OwnerIs(owner, s.reqs[i].buf, BufferOf(i));
    }
  }

  lemma {:induction false} KeptChunks(s: State, s': State, r: ReqId, g: FileId, ws: set<PipeId>)
    requires g in s.files && (forall p <- s.files[g].chunks :: p !in ws) && OnlyPipes(s, s', ws)
    requires ContentOk(s) && ReqMoved(s, s', r)
    ensures ChunksGrow(s, s', g)
  {
    assert SameFile(s.files[g], s'.files[g]) && ChunksOk(s, g);
    ChunksStay(s, s', g);
  }

  lemma {:induction false} ChunksStay(s: State, s': State, g: FileId)
    requires g in s.files && g in s'.files && SameFile(s.files[g], s'.files[g]) && ChunksOk(s, g)
    requires forall p <- s.files[g].chunks :: p in s.pipes ==> p in s'.pipes && s'.pipes[p] == s.pipes[p]
    ensures ChunksGrow(s, s', g)
  {
    forall k | 0 <= k < |s.files[g].chunks| ensures ChunkGrows(s, s', g, k) {
      assert s.files[g].chunks[k] in s.files[g].chunks;
    }
  }

  lemma {:induction false} KeptHeaders(s: State, s': State, g: FileId, ws: set<PipeId>)
    requires g in s.files && g in s'.files && s'.files[g] == s.files[g]
    requires s.files[g].headers in s.pipes && s.files[g].headers !in ws && OnlyPipes(s, s', ws)
    ensures HeadersKept(s, s', g)
  {
  }

  lemma {:induction false} KeptBuffer(s: State, s': State, i: ReqId, ws: set<PipeId>)
    requires i in s.reqs && s.reqs[i].buf in s.pipes && s.reqs[i].buf !in ws && OnlyPipes(s, s', ws)
    ensures BufferKept(s, s', i)
  {
  }

  lemma {:induction false} AllKept(s: State, s': State, r: ReqId)
    requires ReqMoved(s, s', r) && forall g <- s.files :: ChunksGrow(s, s', g)
    requires forall g <- s.files :: g != s.reqs[r].file ==> HeadersKept(s, s', g)
    requires forall i <- s.reqs :: i != r ==> BufferKept(s, s', i)
    ensures OthersKept(s, s', r)
  {
    hide ChunksGrow, HeadersKept, BufferKept;
  }

  lemma {:induction false} SamePipesOnly(s: State, s': State, ws: set<PipeId>)
    requires forall p <- s.pipes :: p !in ws ==> p in s'.pipes && s'.pipes[p] == s.pipes[p]
    requires forall p <- ws :: p in s'.pipes
    ensures OnlyPipes(s, s', ws)
  {
  }

  lemma {:induction false} WroteNothing(s: State, s': State, r: ReqId)
    requires r in s.reqs && s'.pipes == s.pipes && s'.files.Keys == s.files.Keys
    requires forall g <- s.files :: g != s.reqs[r].file ==> s'.files[g] == s.files[g]
    requires Owned(s, []) && ContentOk(s) && ReqMoved(s, s', r)
    ensures OthersKept(s, s', r)
  {
    hide *;
    SamePipesOnly(s, s', {});
    RefsOwned(s);
    forall g | g in s.files ensures ChunksGrow(s, s', g) && (g != s.reqs[r].file ==> HeadersKept(s, s', g)) {
      KeptChunks(s, s', r, g, {});
      if g != s.reqs[r].file {
        KeptHeaders(s, s', g, {});
      }
    }
    forall i | i in s.reqs ensures BufferKept(s, s', i) {
      KeptBuffer(s, s', i, {});
    }
    AllKept(s, s', r);
  }

  lemma {:induction false} WroteBuffer(s: State, s': State, r: ReqId, x: Pipe)
    requires r in s.reqs && s'.pipes == s.pipes[s.reqs[r].buf := x] && s'.files == s.files
    requires Owned(s, []) && ContentOk(s) && ReqMoved(s, s', r)
    ensures OthersKept(s, s', r)
  {
    hide *;
    var ws := {s.reqs[r].buf};
    SamePipesOnly(s, s', ws);
    RefsOwned(s);
    BufferApart(s, r);
    forall g | g in s.files ensures ChunksGrow(s, s', g) && HeadersKept(s, s', g) {
      KeptChunks(s, s', r, g, ws);
      KeptHeaders(s, s', g, ws);
    }
    forall i | i in s.reqs && i != r ensures BufferKept(s, s', i) {
      KeptBuffer(s, s', i, ws);
    }
    AllKept(s, s', r);
  }

  lemma {:induction false} WroteHeaders(s: State, s': State, r: ReqId, x: Pipe)
    requires r in s.reqs && s.reqs[r].file in s.files && s'.files.Keys == s.files.Keys
    requires s'.pipes == s.pipes[s.files[s.reqs[r].file].headers := x]
    requires forall g <- s.files :: g != s.reqs[r].file ==> s'.files[g] == s.files[g]
    requires Owned(s, []) && ContentOk(s) && ReqMoved(s, s', r)
    ensures OthersKept(s, s', r) && BufferKept(s, s', r)
  {
    hide *;
    var f := s.reqs[r].file;
    var ws := {s.files[f].headers};
    SamePipesOnly(s, s', ws);
    RefsOwned(s);
    HeadersApart(s, f);
    forall g | g in s.files ensures ChunksGrow(s, s', g) && (g != f ==> HeadersKept(s, s', g)) {
      KeptChunks(s, s', r, g, ws);
      if g != f {
        KeptHeaders(s, s', g, ws);
      }
    }
    forall i | i in s.reqs ensures BufferKept(s, s', i) {
      BufferApart(s, i);
      KeptBuffer(s, s', i, ws);
    }
    AllKept(s, s', r);
  }

  // The one chunk that was written.
  lemma {:induction false} ChunkWritten(s: State, s': State, f: FileId, k: nat, x: Pipe)
    requires f in s.files && f in s'.files && s'.files[f] == s.files[f]
    requires var file := s.files[f];
             k < |file.chunks| && ChunkRange(file.content, k) && file.chunks[k] in s.pipes
             && s'.pipes == s.pipes[file.chunks[k] := x]
             && s.pipes[file.chunks[k]].data == [] && x.data == ChunkBytes(file.content, k)
    requires forall j :: 0 <= j < |s.files[f].chunks| && j != k ==> s.files[f].chunks[j] != s.files[f].chunks[k]
    requires ContentOk(s)
    ensures ChunksGrow(s, s', f)
  {
    assert ChunksOk(s, f);
    forall j | 0 <= j < |s.files[f].chunks| ensures ChunkGrows(s, s', f, j) {
    }
  }

  lemma {:induction false} ChunkOfOthers(s: State, f: FileId, k: nat, g: FileId)
    requires f in s.files && g in s.files && k < |s.files[f].chunks| && Owned(s, [])
    ensures g != f ==> forall p <- s.files[g].chunks :: p != s.files[f].chunks[k]
    ensures forall j :: 0 <= j < |s.files[f].chunks| && j != k ==> s.files[f].chunks[j] != s.files[f].chunks[k]
    ensures s.files[g].headers != s.files[f].chunks[k]
  {
    ChunkApart(s, f, k);
    HeadersApart(s, g);
    hide Owned;
  }

  lemma {:induction false} WroteChunk(s: State, s': State, r: ReqId, k: nat, x: Pipe)
    requires r in s.reqs && s.reqs[r].file in s.files && s'.files == s.files
    requires var file := s.files[s.reqs[r].file];
             k < |file.chunks| && ChunkRange(file.content, k) && file.chunks[k] in s.pipes
             && s'.pipes == s.pipes[file.chunks[k] := x]
             && s.pipes[file.chunks[k]].data == [] && x.data == ChunkBytes(file.content, k)
    requires Owned(s, []) && ContentOk(s) && ReqMoved(s, s', r)
    ensures OthersKept(s, s', r) && BufferKept(s, s', r) && HeadersKept(s, s', s.reqs[r].file)
  {
    hide *;
    var f := s.reqs[r].file;
    var ws := {s.files[f].chunks[k]};
    SamePipesOnly(s, s', ws);
    RefsOwned(s);
    forall g | g in s.files ensures ChunksGrow(s, s', g) && HeadersKept(s, s', g) {
      ChunkOfOthers(s, f, k, g);
      if g == f {
        ChunkWritten(s, s', f, k, x);
      } else {
        KeptChunks(s, s', r, g, ws);
      }
      KeptHeaders(s, s', g, ws);
    }
    forall i | i in s.reqs ensures BufferKept(s, s', i) {
      BufferApart(s, i);
      assert s.files[f].chunks[k] in s.files[f].chunks;
      KeptBuffer(s, s', i, ws);
    }
    AllKept(s, s', r);
  }
}
