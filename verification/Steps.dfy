/**
How a step of one request keeps the invariant, and that the steps of the serve loop do.
*/
module Steps {
  import opened Options
  import opened TableLog
  import opened CacheState
  import opened Protocol
  import opened Ownership
  import opened Streams

  // ----- putting a step together --------------------------------------------------------------

  ghost predicate PlainPipe(x: Pipe) {
    0 <= x.filled == |x.data| <= PIPE_SIZE
  }

  // A step that leaves the files alone and only writes plain pipes.
  ghost predicate PlainWrites(s: State, s': State) {
    && s'.files == s.files && s'.pipes.Keys == s.pipes.Keys
    && forall p <- s.pipes :: s'.pipes[p] == s.pipes[p] || PlainPipe(s'.pipes[p])
  }

  // A step that writes the header pipe of `f`: it ends plain, or with a writer still at it.
  ghost predicate HeaderWrites(s: State, s': State, f: FileId) {
    && f in s.files && f in s'.files && s.files[f].headers in s.pipes && s'.pipes.Keys == s.pipes.Keys
    && s'.files[f].headers == s.files[f].headers
    && (forall p <- s.pipes :: p != s.files[f].headers ==> s'.pipes[p] == s.pipes[p] || PlainPipe(s'.pipes[p]))
    && (forall g <- s.files :: g != f ==> g in s'.files && s'.files[g] == s.files[g])
    && var h := s'.pipes[s.files[f].headers];
       0 <= h.filled <= |h.data| <= PIPE_SIZE && (h.filled == |h.data| || s'.files[f].writer.Some?)
  }

  lemma {:induction false} PlainWritesOk(s: State, s': State)
    requires PipesOk(s) && PlainWrites(s, s')
    requires s'.workers == s.workers && s'.memUsed == s.memUsed && s'.nextPipe == s.nextPipe
    ensures PipesOk(s')
  {
    assert |s'.pipes| == |s'.pipes.Keys| && |s.pipes| == |s.pipes.Keys|;
    forall p | p in s'.pipes ensures s'.pipes[p].filled == |s'.pipes[p].data| || Writing(s', p) {
      assert Writing(s, p) ==> Writing(s', p);
    }
  }

  lemma {:induction false} HeaderWritesOk(s: State, s': State, f: FileId)
    requires PipesOk(s) && HeaderWrites(s, s', f)
    requires s'.workers == s.workers && s'.memUsed == s.memUsed && s'.nextPipe == s.nextPipe
    ensures PipesOk(s')
  {
    assert |s'.pipes| == |s'.pipes.Keys| && |s.pipes| == |s.pipes.Keys|;
    forall p | p in s'.pipes ensures s'.pipes[p].filled == |s'.pipes[p].data| || Writing(s', p) {
      if p != s.files[f].headers && s'.pipes[p].filled != |s'.pipes[p].data| {
        assert Writing(s, p);
        var g :| g in s.files && s.files[g].headers == p && s.files[g].writer.Some?;
        assert s'.files[g] == s.files[g];
      }
    }
  }

  lemma {:induction false} StepKeeps(s: State, s': State, r: ReqId)
    requires ReqMoved(s, s', r) && s.reqs[r].file in s.files && OthersKept(s, s', r)
    requires var f := s.reqs[r].file;
             FileAdvances(s, s', r, f) && ChunksOk(s', f) && HeadersOk(s', f) && ReqRefs(s', r) && ReqOk(s', r)
    requires PlainWrites(s, s') || HeaderWrites(s, s', s.reqs[r].file)
    requires Inv(s)
    ensures Inv(s')
  {
    hide OwnedBy, ContentOk, PipesOk, FilesOk, ListsOk;
    MovedPlaces(s, s', r);
    SameOwners(s, s', []);
    MovedLists(s, s', r);
    MovedFiles(s, s', r);
    MovedContent(s, s', r);
    if PlainWrites(s, s') {
      PlainWritesOk(s, s');
    } else {
      HeaderWritesOk(s, s', s.reqs[r].file);
    }
  }

  lemma {:induction false} ActiveRefs(s: State, r: ReqId)
    requires ContentOk(s) && r in s.reqs && s.reqs[r].phase != Idle
    ensures ReqRefs(s, r) && ChunksOk(s, s.reqs[r].file) && HeadersOk(s, s.reqs[r].file) && ReqOk(s, r)
    ensures s.files[s.reqs[r].file].chunks != []
  {
    assert ChunksOk(s, s.reqs[r].file);
  }

  // A request that is not publishing leaves the headers of its file alone.
  lemma {:induction false} ServingHeaders(s: State, s': State, r: ReqId)
    requires ContentOk(s) && ReqMoved(s, s', r) && OthersKept(s, s', r)
    requires ReqRefs(s, r) && !Publishing(s.reqs[r].phase) && s'.files == s.files
    requires HeadersKept(s, s', s.reqs[r].file)
    ensures ChunksOk(s', s.reqs[r].file) && HeadersOk(s', s.reqs[r].file)
  {
    var f := s.reqs[r].file;
    assert ChunksOk(s, f) && HeadersOk(s, f) && ChunksGrow(s, s', f);
    ChunksFrame(s, s', f);
    HeadersFrame(s, s', f);
  }

  // A step that writes the pipe of `r` and its counters, and nothing else.
  ghost predicate WritesBuffer(s: State, r: ReqId, x: Pipe, s': State) {
    && ReqRefs(s, r) && s.reqs[r].phase != Idle && !Publishing(s.reqs[r].phase) && r in s'.reqs
    && s' == s.(reqs := s.reqs[r := s'.reqs[r]], pipes := s.pipes[s.reqs[r].buf := x]) && PlainPipe(x)
    && var q, q' := s.reqs[r], s'.reqs[r];
       q'.buf == q.buf && q'.home == q.home && q'.socket == q.socket && q'.file == q.file && q'.phase != Idle
  }

  lemma {:induction false} BufferMoves(s: State, r: ReqId, x: Pipe, s': State)
    requires WritesBuffer(s, r, x, s')
    ensures ReqRefs(s, r) && s.reqs[r].file in s'.files && s'.files == s.files
    ensures r in s.reqs && s'.pipes == s.pipes[s.reqs[r].buf := x] && !Publishing(s.reqs[r].phase)
    ensures ReqMoved(s, s', r) && PlainWrites(s, s') && ReqRefs(s', r)
  {
  }

  lemma {:induction false} BufferStepKeeps(s: State, r: ReqId, x: Pipe, s': State)
    requires WritesBuffer(s, r, x, s') && ReqRefs(s', r) && s'.reqs[r].file == s.reqs[r].file
    requires ChunksOk(s', s.reqs[r].file) ==> ReqOk(s', r)
    requires Inv(s)
    ensures Inv(s')
  {
    hide *;
    BufferMoves(s, r, x, s');
    ContentHere(s);
    OwnedHere(s);
    RefsAre(s, r);
    WroteBuffer(s, s', r, x);
    HeadersStay(s, s', r);
    ServingHeaders(s, s', r);
    SameAdvances(s, s', r, s.reqs[r].file);
    StepKeeps(s, s', r);
  }

  lemma {:induction false} HeadersStay(s: State, s': State, r: ReqId)
    requires ReqRefs(s, r) && s'.files == s.files && s'.pipes.Keys == s.pipes.Keys && Owned(s, [])
    requires forall p <- s.pipes :: p != s.reqs[r].buf ==> s'.pipes[p] == s.pipes[p]
    ensures HeadersKept(s, s', s.reqs[r].file)
  {
    hide Owned;
    BufferApart(s, r);
  }

  // What the invariant says of a request in the loop and of its file.
  lemma {:induction false} ServingState(s: State, r: ReqId)
    requires Inv(s) && r in s.reqs && Serving(s.reqs[r].phase)
    ensures ReqRefs(s, r) && ChunksOk(s, s.reqs[r].file) && StreamOk(s, r) && CursorOk(s, r) && ReqOk(s, r)
    ensures s.reqs[r].buf != FileOf(s, r).headers && s.reqs[r].buf !in FileOf(s, r).chunks
    ensures s.reqs[r].phase != Idle && !Publishing(s.reqs[r].phase)
  {
    hide Owned, PipesOk, ListsOk, FilesOk, ContentOk;
    ActiveRefs(s, r);
    BufferApart(s, r);
  }

  lemma {:induction false} OwnedHere(s: State)
    requires Inv(s)
    ensures Owned(s, [])
  {
  }

  // ----- the serve loop -----------------------------------------------------------------------

  // Steps that only move the program counter.
  lemma {:induction false} PhaseWrites(s: State, r: ReqId, phase: Phase, s': State)
    requires ReqRefs(s, r) && Serving(s.reqs[r].phase) && phase in {Head, Flush} && PlainPipe(BufOf(s, r))
    requires s' == WithReq(s, r, s.reqs[r].(phase := phase))
    requires ChunksOk(s, s.reqs[r].file) && StreamOk(s, r) && CursorOk(s, r)
    ensures WritesBuffer(s, r, BufOf(s, r), s') && ReqRefs(s', r) && s'.reqs[r].file == s.reqs[r].file
    ensures ChunksOk(s', s.reqs[r].file) ==> ReqOk(s', r)
  {
    hide ChunksOk;
    assert s'.pipes == s.pipes[s.reqs[r].buf := BufOf(s, r)];
    if ChunksOk(s', s.reqs[r].file) {
      assert StreamOk(s', r) && CursorOk(s', r);
    }
  }

  lemma {:induction false} PhaseKeeps(s: State, r: ReqId, phase: Phase, s': State)
    requires r in s.reqs && Serving(s.reqs[r].phase) && phase in {Head, Flush}
    requires s' == WithReq(s, r, s.reqs[r].(phase := phase))
    requires Inv(s)
    ensures Inv(s')
  {
    hide Inv, ChunksOk, StreamOk, CursorOk, ReqOk, WritesBuffer;
    ServingState(s, r);
    OwnPipeFits(s, r);
    PhaseWrites(s, r, phase, s');
    BufferStepKeeps(s, r, BufOf(s, r), s');
  }

  lemma {:induction false} OwnPipeFits(s: State, r: ReqId)
    requires Inv(s) && ReqRefs(s, r) && StreamOk(s, r)
    ensures PlainPipe(BufOf(s, r))
  {
    hide Owned, ListsOk, FilesOk, ContentOk;
  }

  lemma {:induction false} SpliceStream(s: State, r: ReqId, n: nat, s': State)
    requires ReqRefs(s, r) && ChunksOk(s, s.reqs[r].file) && StreamOk(s, r) && CursorOk(s, r)
    requires n <= |BufOf(s, r).data| && s' == SpliceStep(s, r, n)
    requires s.reqs[r].buf != FileOf(s, r).headers && s.reqs[r].buf !in FileOf(s, r).chunks
    ensures ReqRefs(s', r) && ChunksOk(s', s.reqs[r].file) && StreamOk(s', r) && CursorOk(s', r)
  {
    var q, b := s.reqs[r], BufOf(s, r);
    var f := q.file;
    assert s'.reqs[r].sent + BufOf(s', r).data == q.sent + b.data;
    ChunksStay(s, s', f);
    ChunksFrame(s, s', f);
  }

  lemma {:induction false} SpliceWrites(s: State, r: ReqId, n: nat, s': State)
    requires ReqRefs(s, r) && s.reqs[r].phase == Flush && n <= |BufOf(s, r).data| && s' == SpliceStep(s, r, n)
    requires StreamOk(s, r) && PlainPipe(BufOf(s, r)) && ReqRefs(s', r) && StreamOk(s', r)
    ensures WritesBuffer(s, r, BufOf(s', r), s') && s'.reqs[r].file == s.reqs[r].file && s'.reqs[r].phase == Head
  {
  }

  lemma {:induction false} SpliceKeeps(s: State, r: ReqId, n: nat, s': State)
    requires ReqRefs(s, r) && s.reqs[r].phase == Flush && n <= |BufOf(s, r).data|
    requires |BufOf(s, r).data| <= PIPE_SIZE && s' == SpliceStep(s, r, n)
    requires Inv(s)
    ensures Inv(s')
  {
    hide Inv, ChunksOk, StreamOk, CursorOk, WritesBuffer, SpliceStep;
    ServingState(s, r);
    OwnPipeFits(s, r);
    SpliceStream(s, r, n, s');
    SpliceWrites(s, r, n, s');
    BufferStepKeeps(s, r, BufOf(s', r), s');
  }

  // The next chunk continues the file where the previous ones end.
  lemma {:induction false} ChunkExtends(head: seq<byte>, content: seq<byte>, k: nat)
    requires Span(k) <= |content|
    ensures var end := Min(Span(k + 1), |content|);
            (head + content)[..|head| + Span(k)] + ChunkBytes(content, k) == (head + content)[..|head| + end]
  {
  }

  // After the tee the request's own pipe holds exactly the chunk it stood at.
  lemma {:induction false} TeeBuffer(s: State, r: ReqId, s': State)
    requires CurrRef(s, r) && s.reqs[r].phase == Ready && s' == TeeStep(s, r, true)
    requires ChunksOk(s, s.reqs[r].file) && ReqOk(s, r)
    requires PlainPipe(s.pipes[CurrOf(s, r)])
    requires s.reqs[r].buf !in FileOf(s, r).chunks
    ensures ReqRefs(s', r) && ChunksOk(s', s.reqs[r].file)
    ensures BufOf(s, r).data == [] && StreamOk(s, r) && FillOffset(s, r) == Span(s.reqs[r].curr.value) == s.reqs[r].bytesOffset
    ensures var chunk := ChunkBytes(FileOf(s, r).content, s.reqs[r].curr.value);
            BufOf(s', r) == Pipe(chunk, |chunk|) && |chunk| <= PIPE_SIZE
  {
    ChunksStay(s, s', s.reqs[r].file);
    ChunksFrame(s, s', s.reqs[r].file);
    var c := s.pipes[CurrOf(s, r)];
    assert c.data[..c.filled] == c.data;
    assert BufOf(s, r).data + c.data == c.data;
  }

  lemma {:induction false} TeeMoves(s: State, r: ReqId, s': State)
    requires CurrRef(s, r) && s' == TeeStep(s, r, true) && ReqRefs(s', r)
    ensures var q, q' := s.reqs[r], s'.reqs[r];
            q'.sent == q.sent && q'.cached == q.cached && q'.bytesOffset == q.bytesOffset && q'.bytesToSend == q.bytesToSend
    ensures FileOf(s', r) == FileOf(s, r) && Response(s', r) == Response(s, r)
  {
  }

  // The bytes sent, and the chunk behind them.
  lemma {:induction false} ChunkFollows(head: seq<byte>, content: seq<byte>, k: nat, sent: seq<byte>)
    requires ChunkRange(content, k) && |sent| == |head| + Span(k) && sent == (head + content)[..|sent|]
    ensures var chunk := ChunkBytes(content, k);
            |sent| + |chunk| <= |head + content| && sent + chunk == (head + content)[..|sent| + |chunk|]
  {
    ChunkExtends(head, content, k);
  }

  lemma {:induction false} TeeStreamOk(s: State, r: ReqId, s': State)
    requires CurrRef(s, r) && s' == TeeStep(s, r, true) && ReqRefs(s', r)
    requires BufOf(s, r).data == [] && StreamOk(s, r) && s.reqs[r].bytesOffset == Span(s.reqs[r].curr.value)
    requires ChunkRange(FileOf(s, r).content, s.reqs[r].curr.value)
    requires var chunk := ChunkBytes(FileOf(s, r).content, s.reqs[r].curr.value); BufOf(s', r) == Pipe(chunk, |chunk|)
    ensures StreamOk(s', r)
  {
    TeeMoves(s, r, s');
    hide TeeStep, ChunkBytes, ChunkRange;
    var q, file := s.reqs[r], FileOf(s, r);
    var head := if q.cached then file.published else [];
    assert [] + file.content == file.content;
    assert head + file.content == Response(s, r);
    assert q.sent + [] == q.sent;
    ChunkFollows(head, file.content, q.curr.value, q.sent);
  }

  lemma {:induction false} TeeCursorOk(s: State, r: ReqId, s': State)
    requires CurrRef(s, r) && s' == TeeStep(s, r, true) && ReqRefs(s', r)
    requires ChunksOk(s, s.reqs[r].file) && ChunksOk(s', s.reqs[r].file)
    requires s.reqs[r].bytesOffset == Span(s.reqs[r].curr.value)
    requires var chunk := ChunkBytes(FileOf(s, r).content, s.reqs[r].curr.value); BufOf(s', r) == Pipe(chunk, |chunk|)
    ensures CursorOk(s', r)
  {
    assert ChunkRange(FileOf(s, r).content, s.reqs[r].curr.value);
    if s.reqs[r].curr.value + 1 < |FileOf(s, r).chunks| {
      assert ChunkRange(FileOf(s, r).content, s.reqs[r].curr.value + 1);
    }
  }

  lemma {:induction false} TeeWrites(s: State, r: ReqId, s': State)
    requires CurrRef(s, r) && s.reqs[r].phase == Ready && s' == TeeStep(s, r, true) && ReqRefs(s', r)
    requires PlainPipe(BufOf(s', r))
    ensures WritesBuffer(s, r, BufOf(s', r), s') && s'.reqs[r].file == s.reqs[r].file && s'.reqs[r].phase == Flush
  {
  }

  // The chunk a request is about to tee is whole, and begins where its bytes end.
  lemma {:induction false} ReadyAt(s: State, r: ReqId)
    requires CurrRef(s, r) && s.reqs[r].phase == Ready && ChunksOk(s, s.reqs[r].file) && ReqOk(s, r)
    ensures ChunkRange(FileOf(s, r).content, s.reqs[r].curr.value)
  {
  }

  lemma {:induction false} TeeKeeps(s: State, r: ReqId, ok: bool, s': State)
    requires CurrRef(s, r) && s.reqs[r].phase == Ready && s' == TeeStep(s, r, ok)
    requires PlainPipe(s.pipes[CurrOf(s, r)])
    requires Inv(s)
    ensures Inv(s')
  {
    if !ok {
      PhaseKeeps(s, r, Flush, s');
    } else {
      hide Inv, ChunksOk, StreamOk, CursorOk, WritesBuffer, TeeStep, ChunkBytes, ChunkRange, ReqOk;
      ServingState(s, r);
      TeeBuffer(s, r, s');
      ReadyAt(s, r);
      TeeStreamOk(s, r, s');
      TeeCursorOk(s, r, s');
      TeeWrites(s, r, s');
      FlushOk(s', r);
      BufferStepKeeps(s, r, BufOf(s', r), s');
    }
  }

  lemma {:induction false} FlushOk(s: State, r: ReqId)
    requires ReqRefs(s, r) && ChunksOk(s, s.reqs[r].file) && StreamOk(s, r) && CursorOk(s, r)
    requires r in s.reqs && s.reqs[r].phase == Flush
    ensures ReqOk(s, r)
  {
  }

  // What cache_req_fill_curr does, case by case.
  lemma {:induction false} FillCases(s: State, r: ReqId, ok: bool)
    requires CurrRef(s, r)
    requires ChunksOk(s, s.reqs[r].file) && StreamOk(s, r) && CursorOk(s, r)
    requires PlainPipe(s.pipes[CurrOf(s, r)])
    ensures FillSafe(s, r)
    ensures var (s', ret) := FillCurr(s, r, ok);
            var k := s.reqs[r].curr.value;
            var p := CurrOf(s, r);
            || (s' == s.(locked := s'.locked) && (ret == 0 ==> FillOffset(s, r) == Span(k) && Complete(s, s.reqs[r].file, k)))
            || (s' == s.(pipes := s.pipes[p := s'.pipes[p]]) && PlainPipe(s'.pipes[p]) && s.pipes[p].data == []
                && FillOffset(s, r) == Span(k) && s'.pipes[p].data == ChunkBytes(FileOf(s, r).content, k))
  {
    var k, content := s.reqs[r].curr.value, FileOf(s, r).content;
    var c := s.pipes[CurrOf(s, r)];
    assert ChunkRange(content, k);
    assert |ChunkBytes(content, k)| == Min(PIPE_SIZE, |content| - Span(k));
    if FillOffset(s, r) == Span(k) && c.filled < FillLength(s, r) {
      assert c.data == [];
      assert [] + ChunkBytes(content, k) == ChunkBytes(content, k);
      assert Mapped(content, Span(k), FillLength(s, r)) == ChunkBytes(content, k);
    }
  }

  // The request's view after a fill: its own bytes are where they were.
  lemma {:induction false} FillReq(s: State, r: ReqId, s': State)
    requires ReqRefs(s, r) && ReqMoved(s, s', r) && ChunksOk(s, s.reqs[r].file)
    requires StreamOk(s, r) && CursorOk(s, r)
    requires s'.files == s.files && ChunksGrow(s, s', s.reqs[r].file) && BufferKept(s, s', r)
    requires HeadersKept(s, s', s.reqs[r].file)
    requires s'.reqs[r] == s.reqs[r].(phase := s'.reqs[r].phase) && s'.reqs[r].phase in {Ready, Flush}
    requires s'.reqs[r].phase == Ready ==>
               && s.reqs[r].curr.Some? && s.reqs[r].curr.value < |FileOf(s, r).chunks| && BufOf(s, r).filled == 0
               && FillOffset(s, r) == Span(s.reqs[r].curr.value)
               && ChunkRange(FileOf(s, r).content, s.reqs[r].curr.value)
               && Complete(s', s.reqs[r].file, s.reqs[r].curr.value)
    ensures ReqRefs(s', r) && ChunksOk(s', s.reqs[r].file) && ReqOk(s', r)
  {
    ChunksFrame(s, s', s.reqs[r].file);
    forall p | p in s.files[s.reqs[r].file].chunks ensures p in s'.pipes {
      assert p in s.pipes;
    }
    assert StreamOk(s', r) && CursorOk(s', r);
  }

  // What the step does, said without its function.
  lemma {:induction false} FillMoves(s: State, r: ReqId, ok: bool, s': State)
    requires CurrRef(s, r) && s.reqs[r].phase == Head && s' == FillStep(s, r, ok)
    ensures var s1 := FillCurr(s, r, ok).0;
            s1 == s.(pipes := s1.pipes, locked := s1.locked) && s1.pipes.Keys == s.pipes.Keys ==>
              && ReqMoved(s, s', r) && s'.files == s.files && s'.pipes == s1.pipes
              && s'.reqs[r] == s.reqs[r].(phase := s'.reqs[r].phase) && s'.reqs[r].phase in {Ready, Flush}
    ensures r in s'.reqs && s'.reqs[r].file == s.reqs[r].file
    ensures s'.reqs[r].phase == Ready ==> FillCurr(s, r, ok).1 == 0 && FillCurr(s, r, ok).0.pipes[s.reqs[r].buf].filled == 0
  {
    hide FillCurr;
  }

  lemma {:induction false} FillIdle(s: State, r: ReqId, s': State)
    requires s'.pipes == s.pipes && s'.files == s.files && ReqRefs(s, r) && ReqMoved(s, s', r)
    requires Owned(s, []) && ContentOk(s)
    ensures OthersKept(s, s', r) && BufferKept(s, s', r) && HeadersKept(s, s', s.reqs[r].file)
    ensures ChunksGrow(s, s', s.reqs[r].file) && PlainWrites(s, s')
    ensures s.reqs[r].buf in s'.pipes && s'.pipes[s.reqs[r].buf] == s.pipes[s.reqs[r].buf]
  {
    hide *;
    RefsOwned(s);
    RefsAre(s, r);
    SamePipesOnly(s, s', {});
    WroteNothing(s, s', r);
    KeptBuffer(s, s', r, {});
    KeptHeaders(s, s', s.reqs[r].file, {});
    OthersGrow(s, s', r);
    NothingWritten(s, s');
  }

  lemma {:induction false} FillWrites(s: State, r: ReqId, s': State, k: nat, x: Pipe)
    requires ReqRefs(s, r) && k < |FileOf(s, r).chunks| && ChunkRange(FileOf(s, r).content, k)
    requires FileOf(s, r).chunks[k] in s.pipes && s.pipes[FileOf(s, r).chunks[k]].data == []
    requires s'.pipes == s.pipes[FileOf(s, r).chunks[k] := x] && s'.files == s.files
    requires x.data == ChunkBytes(FileOf(s, r).content, k) && PlainPipe(x)
    requires ReqMoved(s, s', r) && Owned(s, []) && ContentOk(s)
    ensures OthersKept(s, s', r) && BufferKept(s, s', r) && HeadersKept(s, s', s.reqs[r].file)
    ensures ChunksGrow(s, s', s.reqs[r].file) && PlainWrites(s, s') && Complete(s', s.reqs[r].file, k)
    ensures s.reqs[r].buf in s'.pipes && s'.pipes[s.reqs[r].buf] == s.pipes[s.reqs[r].buf]
  {
    hide *;
    RefsAre(s, r);
    WroteChunk(s, s', r, k, x);
    OthersGrow(s, s', r);
    OneWritten(s, s', FileOf(s, r).chunks[k], x);
    NowComplete(s, s', s.reqs[r].file, k, x);
    BufferIs(s, s', r);
  }

  lemma {:induction false} FillEnds(s: State, r: ReqId, s': State)
    requires ReqRefs(s, r) && !Publishing(s.reqs[r].phase) && s'.files == s.files && HeadersKept(s, s', s.reqs[r].file)
    requires r in s'.reqs && s'.reqs[r].file == s.reqs[r].file
    requires ReqRefs(s', r) && ChunksOk(s', s.reqs[r].file) && ReqOk(s', r)
    requires ReqMoved(s, s', r) && OthersKept(s, s', r) && PlainWrites(s, s') && Inv(s)
    ensures Inv(s')
  {
    hide *;
    RefsAre(s, r);
    SameAdvances(s, s', r, s.reqs[r].file);
    ContentHere(s);
    ServingHeaders(s, s', r);
    StepKeeps(s, s', r);
  }

  lemma {:induction false} RefsAre(s: State, r: ReqId)
    requires ReqRefs(s, r)
    ensures r in s.reqs && s.reqs[r].file in s.files && s.reqs[r].buf in s.pipes
    ensures FileOf(s, r) == s.files[s.reqs[r].file]
  {
  }

  lemma {:induction false} OthersGrow(s: State, s': State, r: ReqId)
    requires r in s.reqs && s.reqs[r].file in s.files && ReqMoved(s, s', r) && OthersKept(s, s', r)
    ensures ChunksGrow(s, s', s.reqs[r].file)
  {
    hide ChunksGrow, HeadersKept, BufferKept, ReqMoved;
  }

  lemma {:induction false} NothingWritten(s: State, s': State)
    requires s'.files == s.files && s'.pipes == s.pipes
    ensures PlainWrites(s, s')
  {
  }

  lemma {:induction false} OneWritten(s: State, s': State, p: PipeId, x: Pipe)
    requires s'.files == s.files && p in s.pipes && s'.pipes == s.pipes[p := x] && PlainPipe(x)
    ensures PlainWrites(s, s')
  {
  }

  lemma {:induction false} NowComplete(s: State, s': State, f: FileId, k: nat, x: Pipe)
    requires f in s.files && k < |s.files[f].chunks| && ChunkRange(s.files[f].content, k) && s.files[f].chunks[k] in s.pipes
    requires s'.files == s.files && s'.pipes == s.pipes[s.files[f].chunks[k] := x]
    requires x.data == ChunkBytes(s.files[f].content, k)
    ensures Complete(s', f, k)
  {
  }

  lemma {:induction false} BufferIs(s: State, s': State, r: ReqId)
    requires BufferKept(s, s', r)
    ensures r in s.reqs && s.reqs[r].buf in s.pipes && s.reqs[r].buf in s'.pipes
    ensures s'.pipes[s.reqs[r].buf] == s.pipes[s.reqs[r].buf]
  {
  }

  lemma {:induction false} SameAdvances(s: State, s': State, r: ReqId, f: FileId)
    requires f in s.files && s'.files == s.files
    ensures FileAdvances(s, s', r, f)
  {
  }

  lemma {:induction false} NotPublishing(phase: Phase)
    requires phase == Head || phase == Arrived
    ensures !Publishing(phase)
  {
  }

  lemma {:induction false} ContentHere(s: State)
    requires Inv(s)
    ensures ContentOk(s)
  {
  }

  lemma {:induction false} FillKeeps(s: State, r: ReqId, ok: bool, s': State)
    requires ReqRefs(s, r) && s.reqs[r].phase == Head
    requires s.reqs[r].curr.Some? ==> CurrRef(s, r) && PlainPipe(s.pipes[CurrOf(s, r)])
    requires s' == FillStep(s, r, ok)
    requires Inv(s)
    ensures Inv(s')
  {
    hide Owned, PipesOk, ListsOk, FilesOk, ContentOk, ReqMoved, OthersKept, BufferKept, HeadersKept, ChunksGrow, PlainWrites,
         FillCurr, FillStep, StreamOk, CursorOk, ChunksOk, ChunkBytes, Complete, ChunkRange, FillOffset;
    if s.reqs[r].curr.None? {
      FillNone(s, r, ok);
      PhaseKeeps(s, r, Flush, s');
    } else {
      ActiveRefs(s, r);
      FillCases(s, r, ok);
      FillMoves(s, r, ok, s');
      var k, p := s.reqs[r].curr.value, CurrOf(s, r);
      ChunkIsHere(s, s.reqs[r].file, k);
      var s1 := FillCurr(s, r, ok).0;
      if s1.pipes == s.pipes {
        FillIdle(s, r, s');
        SameComplete(s, s', s.reqs[r].file, k);
      } else {
        FillWrites(s, r, s', k, s1.pipes[p]);
      }
      FillReq(s, r, s');
      NotPublishing(s.reqs[r].phase);
      FillEnds(s, r, s');
    }
  }

  lemma {:induction false} FillNone(s: State, r: ReqId, ok: bool)
    requires ReqRefs(s, r) && s.reqs[r].curr.None?
    ensures FillStep(s, r, ok) == WithReq(s, r, s.reqs[r].(phase := Flush))
  {
  }

  lemma {:induction false} ChunkIsHere(s: State, f: FileId, k: nat)
    requires f in s.files && k < |s.files[f].chunks| && ChunksOk(s, f)
    ensures ChunkRange(s.files[f].content, k) && s.files[f].chunks[k] in s.pipes
  {
  }

  lemma {:induction false} SameComplete(s: State, s': State, f: FileId, k: nat)
    requires f in s.files && k < |s.files[f].chunks| && s.files[f].chunks[k] in s.pipes && ChunkRange(s.files[f].content, k)
    requires s'.files == s.files && s'.pipes == s.pipes
    ensures Complete(s', f, k) == Complete(s, f, k)
  {
  }
}
