/**
Publication of the cached headers: while one request writes them and then embeds a small file
behind them, every other request takes the headers alone or the headers with the whole file.
*/
module Headers {
  import opened Options
  import opened TableLog
  import opened CacheState
  import opened Protocol
  import opened Ownership
  import opened Streams
  import opened Steps

  lemma {:induction false} SkipKeeps(s: State, r: ReqId, s': State)
    requires ReqRefs(s, r) && s.reqs[r].phase == Fresh && s' == WithReq(s, r, s.reqs[r].(phase := Decide))
    requires Inv(s)
    ensures Inv(s')
  {
    hide Owned, PipesOk, ListsOk, FilesOk, ContentOk;
    ActiveRefs(s, r);
    WroteNothing(s, s', r);
    RefsOwned(s);
    ServingHeaders(s, s', r);
    assert ReqRefs(s', r) && StartOk(s', r);
    StepKeeps(s, s', r);
  }

  lemma {:induction false} OwnHeadersKeeps(s: State, r: ReqId, s': State)
    requires ReqRefs(s, r) && s.reqs[r].phase == Decide && s' == WithReq(s, r, s.reqs[r].(phase := Head))
    requires Inv(s)
    ensures Inv(s')
  {
    hide Owned, PipesOk, ListsOk, FilesOk, ContentOk;
    ActiveRefs(s, r);
    WroteNothing(s, s', r);
    RefsOwned(s);
    ServingHeaders(s, s', r);
    assert ReqRefs(s', r) && StartOk(s, r);
    assert StreamOk(s', r) && CursorOk(s', r);
    StepKeeps(s, s', r);
  }

  // ----- the publisher ------------------------------------------------------------------------

  // A publisher's step leaves its file's chunks and its own start state as they were.
  lemma {:induction false} PublisherFrame(s: State, s': State, r: ReqId)
    requires ContentOk(s) && ReqMoved(s, s', r) && OthersKept(s, s', r) && BufferKept(s, s', r)
    requires ReqRefs(s, r) && ReqRefs(s', r) && ChunksOk(s, s.reqs[r].file) && StartOk(s, r)
    requires s'.reqs[r] == s.reqs[r].(phase := s'.reqs[r].phase) && !Serving(s'.reqs[r].phase)
    requires Publishing(s'.reqs[r].phase) ==> FileOf(s', r).writer == Some(r)
    ensures ChunksOk(s', s.reqs[r].file) && ReqOk(s', r)
  {
    assert SameFile(FileOf(s, r), FileOf(s', r));
    assert ChunksGrow(s, s', s.reqs[r].file);
    ChunksFrame(s, s', s.reqs[r].file);
  }

  lemma {:induction false} MovedRefs(s: State, s': State, r: ReqId)
    requires ReqMoved(s, s', r) && ReqRefs(s, r)
    ensures ReqRefs(s', r)
  {
    assert SameFile(s.files[s.reqs[r].file], s'.files[s.reqs[r].file]);
  }

  // A step of the lock holder (or of the request taking the lock) on the header pipe of its file.
  lemma {:induction false} PublisherKeeps(s: State, r: ReqId, x: Pipe, s': State)
    requires ReqRefs(s, r) && ReqMoved(s, s', r) && !Serving(s'.reqs[r].phase)
    requires s.reqs[r].phase == Fresh || Publishing(s.reqs[r].phase)
    requires s'.reqs[r] == s.reqs[r].(phase := s'.reqs[r].phase)
    requires s'.pipes == s.pipes[FileOf(s, r).headers := x]
    requires forall g <- s.files :: g != s.reqs[r].file ==> s'.files[g] == s.files[g]
    requires FileAdvances(s, s', r, s.reqs[r].file)
    requires Publishing(s'.reqs[r].phase) ==> s'.files[s.reqs[r].file].writer == Some(r)
    requires 0 <= x.filled <= |x.data| <= PIPE_SIZE && (x.filled == |x.data| || s'.files[s.reqs[r].file].writer.Some?)
    requires ChunksOk(s', s.reqs[r].file) ==> HeadersOk(s', s.reqs[r].file)
    requires Inv(s)
    ensures Inv(s')
  {
    hide Owned, PipesOk, ListsOk, FilesOk, ContentOk;
    ActiveRefs(s, r);
    WroteHeaders(s, s', r, x);
    MovedRefs(s, s', r);
    PublisherFrame(s, s', r);
    assert SameFile(FileOf(s, r), FileOf(s', r));
    StepKeeps(s, s', r);
  }

  // A step of the publisher: its file and the header pipe change as told, nothing else does.
  ghost predicate Publishes(s: State, r: ReqId, phase: Phase, x: Pipe, file: File, s': State) {
    && ReqRefs(s, r) && s'.reqs == s.reqs[r := s.reqs[r].(phase := phase)]
    && s' == s.(reqs := s'.reqs, pipes := s.pipes[FileOf(s, r).headers := x], files := s.files[s.reqs[r].file := file])
    && SameFile(FileOf(s, r), file) && file.headers in s.pipes && file.headers == FileOf(s, r).headers
    && (FileOf(s, r).published != [] ==> file.published == FileOf(s, r).published)
    && file.writer in {FileOf(s, r).writer, None, Some(r)} && (FileOf(s, r).writer != file.writer ==> FileOf(s, r).writer in {None, Some(r)})
  }

  lemma {:induction false} PublishesMoves(s: State, r: ReqId, phase: Phase, x: Pipe, file: File, s': State)
    requires Publishes(s, r, phase, x, file, s') && s.reqs[r].phase != Idle && phase != Idle
    ensures ReqMoved(s, s', r) && s'.reqs[r] == s.reqs[r].(phase := phase) && s'.files[s.reqs[r].file] == file
    ensures s'.pipes == s.pipes[FileOf(s, r).headers := x] && FileAdvances(s, s', r, s.reqs[r].file)
    ensures forall g <- s.files :: g != s.reqs[r].file ==> s'.files[g] == s.files[g]
  {
  }

  // A publisher's step keeps the invariant if the header pipe ends as the invariant wants it.
  lemma {:induction false} PublishKeeps(s: State, r: ReqId, phase: Phase, x: Pipe, file: File, s': State)
    requires Publishes(s, r, phase, x, file, s') && (s.reqs[r].phase == Fresh || Publishing(s.reqs[r].phase))
    requires if phase == Decide then file.writer.None? else Publishing(phase) && file.writer == Some(r)
    requires 0 <= x.filled <= |x.data| <= PIPE_SIZE && (x.filled == |x.data| || file.writer.Some?)
    requires ChunksOk(s', s.reqs[r].file) ==> HeadersOk(s', s.reqs[r].file)
    requires Inv(s)
    ensures Inv(s')
  {
    hide Inv, Publishes, ChunksOk, HeadersOk, ReqMoved, FileAdvances;
    PublishesHere(s, r, phase, x, file, s');
    PublishesMoves(s, r, phase, x, file, s');
    PublisherKeeps(s, r, x, s');
  }

  lemma {:induction false} PublishesHere(s: State, r: ReqId, phase: Phase, x: Pipe, file: File, s': State)
    requires Publishes(s, r, phase, x, file, s')
    ensures ReqRefs(s, r) && r in s.reqs && s.reqs[r].file in s.files && s.reqs[r].file in s'.files
  {
  }

  // The state of a publisher and of its headers.
  lemma {:induction false} PublisherState(s: State, r: ReqId)
    requires Inv(s) && r in s.reqs && (s.reqs[r].phase == Fresh || Publishing(s.reqs[r].phase))
    ensures ReqRefs(s, r) && ChunksOk(s, s.reqs[r].file) && HeadersOk(s, s.reqs[r].file) && FileOf(s, r).chunks != []
    ensures Publishing(s.reqs[r].phase) ==> FileOf(s, r).writer == Some(r)
  {
    hide Owned, PipesOk, ListsOk, FilesOk, ContentOk;
    ActiveRefs(s, r);
  }

  lemma {:induction false} HeadersFit(s: State, r: ReqId)
    requires ReqRefs(s, r) && ChunksOk(s, s.reqs[r].file) && HeadersOk(s, s.reqs[r].file)
    ensures |FileOf(s, r).published| <= PIPE_SIZE
  {
  }

  lemma {:induction false} SendPublishes(s: State, r: ReqId, text: seq<byte>, s': State)
    requires ReqRefs(s, r) && s.reqs[r].phase == Fresh && HeadersOf(s, r).filled == 0 && HeadersFree(s, r)
    requires ChunksOk(s, s.reqs[r].file) && HeadersOk(s, s.reqs[r].file) && 0 < |text| <= PIPE_SIZE
    requires s' == WriteHeaders(s, r, text)
    ensures Publishes(s, r, PubSent, Pipe(text, 0), FileOf(s, r).(writer := Some(r), published := text), s')
    ensures ChunksOk(s', s.reqs[r].file) ==> HeadersOk(s', s.reqs[r].file)
  {
    hide ChunksOk;
    assert HeadersOf(s, r) == EMPTY_PIPE && FileOf(s, r).published == [];
    assert [] + text == text;
  }

  lemma {:induction false} SendHeadersKeeps(s: State, r: ReqId, text: seq<byte>, s': State)
    requires ReqRefs(s, r) && s.reqs[r].phase == Fresh
    requires HeadersOf(s, r).filled == 0 && HeadersFree(s, r) && 0 < |text| <= PIPE_SIZE
    requires s' == WriteHeaders(s, r, text)
    requires Inv(s)
    ensures Inv(s')
  {
    hide Inv, ChunksOk, HeadersOk, Publishes, WriteHeaders, HeadersFree;
    PublisherState(s, r);
    SendPublishes(s, r, text, s');
    PublishKeeps(s, r, PubSent, Pipe(text, 0), FileOf(s, r).(writer := Some(r), published := text), s');
  }

  lemma {:induction false} SizePublishes(s: State, r: ReqId, s': State)
    requires ReqRefs(s, r) && s.reqs[r].phase == PubSent && FileOf(s, r).writer == Some(r) && s' == MeasureHeaders(s, r)
    requires ChunksOk(s, s.reqs[r].file) && HeadersOk(s, s.reqs[r].file)
    ensures Publishes(s, r, PubSized, HeadersOf(s, r), FileOf(s, r).(headerLen := |HeadersOf(s, r).data|), s')
    ensures HeadersOf(s, r) == Pipe(FileOf(s, r).published, 0)
    ensures ChunksOk(s', s.reqs[r].file) ==> HeadersOk(s', s.reqs[r].file)
  {
    hide ChunksOk;
    assert s'.pipes == s.pipes[FileOf(s, r).headers := HeadersOf(s, r)];
  }

  lemma {:induction false} SizeHeadersKeeps(s: State, r: ReqId, s': State)
    requires ReqRefs(s, r) && s.reqs[r].phase == PubSent && s' == MeasureHeaders(s, r)
    requires Inv(s)
    ensures Inv(s')
  {
    hide Inv, ChunksOk, HeadersOk, Publishes, MeasureHeaders;
    PublisherState(s, r);
    SizePublishes(s, r, s');
    HeadersFit(s, r);
    PublishKeeps(s, r, PubSized, HeadersOf(s, r), FileOf(s, r).(headerLen := |HeadersOf(s, r).data|), s');
  }

  lemma {:induction false} ShowPublishes(s: State, r: ReqId, s': State)
    requires ReqRefs(s, r) && s.reqs[r].phase == PubSized && FileOf(s, r).writer == Some(r) && s' == PublishHeaders(s, r)
    requires ChunksOk(s, s.reqs[r].file) && HeadersOk(s, s.reqs[r].file)
    ensures var text := FileOf(s, r).published; Publishes(s, r, PubShown, Pipe(text, |text|), FileOf(s, r), s')
    ensures ChunksOk(s', s.reqs[r].file) ==> HeadersOk(s', s.reqs[r].file)
  {
    hide ChunksOk;
    assert s'.files == s.files[s.reqs[r].file := FileOf(s, r)];
  }

  lemma {:induction false} ShowHeadersKeeps(s: State, r: ReqId, s': State)
    requires ReqRefs(s, r) && s.reqs[r].phase == PubSized && s' == PublishHeaders(s, r)
    requires Inv(s)
    ensures Inv(s')
  {
    hide Inv, ChunksOk, HeadersOk, Publishes, PublishHeaders;
    PublisherState(s, r);
    ShowPublishes(s, r, s');
    HeadersFit(s, r);
    PublishKeeps(s, r, PubShown, Pipe(FileOf(s, r).published, |FileOf(s, r).published|), FileOf(s, r), s');
  }

  // If there is room behind the headers for what the first chunk holds, that is the whole file.
  lemma {:induction false} RoomMeansWhole(s: State, r: ReqId)
    requires ReqRefs(s, r) && ChunksOk(s, s.reqs[r].file) && FileOf(s, r).chunks != []
    requires FileOf(s, r).published != [] && HeadersOf(s, r).filled == |FileOf(s, r).published|
    requires var first := s.pipes[FileOf(s, r).chunks[0]];
             PlainPipe(first) && PIPE_SIZE - HeadersOf(s, r).filled > first.filled && first.filled != 0
    ensures s.pipes[FileOf(s, r).chunks[0]].data == FileOf(s, r).content && Embedded(s, s.reqs[r].file)
  {
    var content := FileOf(s, r).content;
    var first := s.pipes[FileOf(s, r).chunks[0]];
    assert ChunkRange(content, 0) && first.data == ChunkBytes(content, 0);
    assert |content| < PIPE_SIZE;
    assert content[..|content|] == content;
  }

  // The room for the first chunk behind the headers, as cache.c:203-210 asks for it.
  ghost predicate HasRoom(s: State, r: ReqId)
    requires ReqRefs(s, r) && FileOf(s, r).chunks != []
  {
    var first := s.pipes[FileOf(s, r).chunks[0]];
    PIPE_SIZE - HeadersOf(s, r).filled > first.filled && first.filled != 0
  }

  lemma {:induction false} ShownHeaders(s: State, r: ReqId)
    requires ReqRefs(s, r) && s.reqs[r].phase == PubShown && FileOf(s, r).writer == Some(r)
    requires ChunksOk(s, s.reqs[r].file) && HeadersOk(s, s.reqs[r].file)
    ensures HeadersOf(s, r) == Pipe(FileOf(s, r).published, |FileOf(s, r).published|) && FileOf(s, r).published != []
    ensures FileOf(s, r).headerLen == |FileOf(s, r).published| <= PIPE_SIZE
  {
    hide ChunksOk;
  }

  lemma {:induction false} EmbedPublishes(s: State, r: ReqId, s': State)
    requires ReqRefs(s, r) && FileOf(s, r).chunks != [] && s' == EmbedFirst(s, r) && HasRoom(s, r)
    requires FileOf(s, r).writer == Some(r) && FileOf(s, r).published != [] && FileOf(s, r).headers !in FileOf(s, r).chunks
    requires HeadersOf(s, r) == Pipe(FileOf(s, r).published, |FileOf(s, r).published|)
    requires FileOf(s, r).headerLen == |FileOf(s, r).published| <= PIPE_SIZE
    requires PlainPipe(s.pipes[FileOf(s, r).chunks[0]]) && s.pipes[FileOf(s, r).chunks[0]].data == FileOf(s, r).content
    requires ChunksOk(s, s.reqs[r].file) && Embedded(s, s.reqs[r].file)
    ensures var file := FileOf(s, r);
            Publishes(s, r, PubTeed(|file.content|), Pipe(file.published + file.content, |file.published|), file, s')
    ensures ChunksOk(s', s.reqs[r].file) ==> HeadersOk(s', s.reqs[r].file)
  {
    var file := FileOf(s, r);
    var first := s.pipes[file.chunks[0]];
    assert first.data[..first.filled] == first.data;
    assert s'.files == s.files[s.reqs[r].file := file];
  }

  lemma {:induction false} NoRoomPublishes(s: State, r: ReqId, s': State)
    requires ReqRefs(s, r) && FileOf(s, r).chunks != [] && s' == EmbedFirst(s, r) && !HasRoom(s, r)
    requires FileOf(s, r).writer == Some(r) && FileOf(s, r).published != []
    requires HeadersOf(s, r) == Pipe(FileOf(s, r).published, |FileOf(s, r).published|)
    requires FileOf(s, r).headerLen == |FileOf(s, r).published| <= PIPE_SIZE
    ensures Publishes(s, r, Decide, HeadersOf(s, r), FileOf(s, r).(writer := None), s')
    ensures ChunksOk(s', s.reqs[r].file) ==> HeadersOk(s', s.reqs[r].file)
  {
    hide ChunksOk;
    assert s'.pipes == s.pipes[FileOf(s, r).headers := HeadersOf(s, r)];
  }

  lemma {:induction false} EmbedKeeps(s: State, r: ReqId, s': State)
    requires ReqRefs(s, r) && s.reqs[r].phase == PubShown && FileOf(s, r).chunks != [] && s' == EmbedFirst(s, r)
    requires PlainPipe(s.pipes[FileOf(s, r).chunks[0]]) && FileOf(s, r).headers !in FileOf(s, r).chunks
    requires Inv(s)
    ensures Inv(s')
  {
    hide Inv, ChunksOk, HeadersOk, Publishes, EmbedFirst, Embedded;
    PublisherState(s, r);
    ShownHeaders(s, r);
    var file := FileOf(s, r);
    if HasRoom(s, r) {
      RoomMeansWhole(s, r);
      EmbedPublishes(s, r, s');
      EmbeddedFits(s, r);
      PublishKeeps(s, r, PubTeed(|file.content|), Pipe(file.published + file.content, |file.published|), file, s');
    } else {
      NoRoomPublishes(s, r, s');
      PublishKeeps(s, r, Decide, HeadersOf(s, r), file.(writer := None), s');
    }
  }

  lemma {:induction false} EmbeddedFits(s: State, r: ReqId)
    requires ReqRefs(s, r) && ChunksOk(s, s.reqs[r].file) && Embedded(s, s.reqs[r].file)
    ensures |FileOf(s, r).published + FileOf(s, r).content| <= PIPE_SIZE
  {
  }

  lemma {:induction false} ShownPublishes(s: State, r: ReqId, s': State)
    requires ReqRefs(s, r) && s.reqs[r].phase.PubTeed? && FileOf(s, r).headers !in FileOf(s, r).chunks
    requires FileOf(s, r).writer == Some(r) && s' == PublishEmbedded(s, r)
    requires ChunksOk(s, s.reqs[r].file) && HeadersOk(s, s.reqs[r].file)
    ensures var all := FileOf(s, r).published + FileOf(s, r).content;
            Publishes(s, r, Decide, Pipe(all, |all|), FileOf(s, r).(writer := None), s') && |all| <= PIPE_SIZE
    ensures ChunksOk(s', s.reqs[r].file) ==> HeadersOk(s', s.reqs[r].file)
  {
  }

  lemma {:induction false} ShowEmbeddedKeeps(s: State, r: ReqId, s': State)
    requires ReqRefs(s, r) && s.reqs[r].phase.PubTeed? && FileOf(s, r).headers !in FileOf(s, r).chunks
    requires s' == PublishEmbedded(s, r)
    requires Inv(s)
    ensures Inv(s')
  {
    hide Inv, ChunksOk, HeadersOk, Publishes, PublishEmbedded;
    PublisherState(s, r);
    ShownPublishes(s, r, s');
    var all := FileOf(s, r).published + FileOf(s, r).content;
    PublishKeeps(s, r, Decide, Pipe(all, |all|), FileOf(s, r).(writer := None), s');
  }

  // ----- a reader -----------------------------------------------------------------------------

  // What a request that sees `filled` non-zero takes: the headers, or the headers and the whole
  // one-chunk file.
  lemma {:induction false} HeadersTaken(s: State, r: ReqId)
    requires ReqRefs(s, r) && ChunksOk(s, s.reqs[r].file) && HeadersOk(s, s.reqs[r].file)
    requires HeadersOf(s, r).filled != 0
    ensures var file, taken := FileOf(s, r), Teed(HeadersOf(s, r), HeadersOf(s, r).filled);
            && 0 < file.headerLen == |file.published| <= |taken| <= PIPE_SIZE
            && (taken == file.published || (taken == file.published + file.content && Embedded(s, s.reqs[r].file)))
  {
    var h := HeadersOf(s, r);
    assert h.data[..|h.data|] == h.data;
    assert (FileOf(s, r).published + FileOf(s, r).content)[..|FileOf(s, r).published|] == FileOf(s, r).published;
  }

  lemma {:induction false} TakenReq(s: State, r: ReqId, s': State)
    requires ReqRefs(s, r) && ReqRefs(s', r) && s' == ServeHeaders(s, r) && StartOk(s, r)
    requires ChunksOk(s, s.reqs[r].file) && ChunksOk(s', s.reqs[r].file) && HeadersOk(s, s.reqs[r].file)
    requires HeadersOf(s, r).filled != 0 && FileOf(s, r).chunks != []
    requires Embedded(s, s.reqs[r].file) ==> Complete(s', s.reqs[r].file, 0)
    ensures ReqOk(s', r) && PlainPipe(BufOf(s', r))
  {
    HeadersTaken(s, r);
    var taken := Teed(HeadersOf(s, r), HeadersOf(s, r).filled);
    assert [] + taken == taken;
    assert BufOf(s', r) == Pipe(taken, |taken|);
    assert StreamOk(s', r) && CursorOk(s', r);
  }

  lemma {:induction false} TakeWrites(s: State, r: ReqId, s': State)
    requires ReqRefs(s, r) && s.reqs[r].phase == Decide && s' == ServeHeaders(s, r) && ReqRefs(s', r)
    requires PlainPipe(BufOf(s', r))
    ensures WritesBuffer(s, r, BufOf(s', r), s') && s'.reqs[r].file == s.reqs[r].file
  {
  }

  // The chunks of the file lie outside the pipe that takes the headers.
  lemma {:induction false} TakeChunks(s: State, r: ReqId, s': State)
    requires ReqRefs(s, r) && s' == ServeHeaders(s, r) && ChunksOk(s, s.reqs[r].file)
    requires s.reqs[r].buf !in FileOf(s, r).chunks
    ensures ReqRefs(s', r) && ChunksOk(s', s.reqs[r].file)
    ensures FileOf(s, r).chunks != [] && Complete(s, s.reqs[r].file, 0) ==> Complete(s', s.reqs[r].file, 0)
  {
    ChunksStay(s, s', s.reqs[r].file);
    ChunksFrame(s, s', s.reqs[r].file);
  }

  // A request before the choice which headers to send.
  lemma {:induction false} DecideState(s: State, r: ReqId)
    requires Inv(s) && r in s.reqs && s.reqs[r].phase == Decide
    ensures ReqRefs(s, r) && ChunksOk(s, s.reqs[r].file) && HeadersOk(s, s.reqs[r].file) && StartOk(s, r)
    ensures FileOf(s, r).chunks != [] && s.reqs[r].buf !in FileOf(s, r).chunks
  {
    hide Owned, PipesOk, ListsOk, FilesOk, ContentOk;
    ActiveRefs(s, r);
    BufferApart(s, r);
  }

  lemma {:induction false} EmbeddedIs(s: State, f: FileId)
    requires f in s.files && ChunksOk(s, f) && Embedded(s, f)
    ensures s.files[f].chunks != [] && Complete(s, f, 0)
  {
  }

  lemma {:induction false} TakeHeadersKeeps(s: State, r: ReqId, s': State)
    requires ReqRefs(s, r) && s.reqs[r].phase == Decide && HeadersOf(s, r).filled != 0
    requires s' == ServeHeaders(s, r)
    requires Inv(s)
    ensures Inv(s')
  {
    hide Inv, ChunksOk, HeadersOk, StartOk, WritesBuffer, ServeHeaders, Embedded, Complete;
    DecideState(s, r);
    TakeChunks(s, r, s');
    if Embedded(s, s.reqs[r].file) {
      EmbeddedIs(s, s.reqs[r].file);
    }
    TakenReq(s, r, s');
    TakeWrites(s, r, s');
    BufferStepKeeps(s, r, BufOf(s', r), s');
  }
}
