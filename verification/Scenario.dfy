/**
Two runs that end badly: a request that waits for ever on a lock that nobody holds, and a response
too long for the int through which the serve loop reports what is left of it.
*/
module Scenario {
  import opened CInts
  import opened Options
  import opened TableLog
  import opened CacheState
  import opened Protocol
  import opened Ownership
  import opened Streams
  import opened Steps
  import opened Lifecycle
  import opened Creation
  import opened Runs
  import opened Guarantees
  import opened Stability
  import opened Limits
  import opened Calls
  import opened Interference

  // The plugin after start-up, with one thread.
  const START := State(map[], {}, map[], map[], [], map[0 := Worker([], [], [])], 0, 0, 0, 0, [])

  lemma {:induction false} StartIsInit()
    ensures Init(START) && Inv(START) && Linked(START)
  {
    hide Inv, Linked;
    assert Init(START);
    InitInv(START);
    InvLinked(START);
  }

  lemma {:induction false} PathRuns(s: State, es: seq<Event>) returns (ss: seq<State>)
    requires Path(s, es)
    ensures |ss| == |es| + 1 && ss[0] == s && ss[|es|] == After(s, es)
    ensures forall i :: 0 <= i < |es| ==> Step(ss[i], es[i], ss[i + 1])
    decreases |es|
  {
    hide Linked, Enabled, Next;
    if es == [] {
      ss := [s];
    } else {
      var tail := PathRuns(Next(s, es[0]), es[1..]);
      ss := [s] + tail;
      forall i | 0 <= i < |es| ensures Step(ss[i], es[i], ss[i + 1]) {
        if i > 0 {
          assert Step(tail[i - 1], es[1..][i - 1], tail[i]);
        } else {
          assert ss[1] == tail[0];
        }
      }
    }
  }

  // ----- a file and its first request ---------------------------------------------------------

  // Nothing of the file is in its pipes yet, and no pipe is locked.
  ghost predicate Blank(s: State, f: FileId, content: seq<byte>) {
    && s.locked == {} && f in s.files && s.files[f].content == content && s.files[f].published == []
    && s.files[f].writer.None? && s.files[f].chunks != [] && EmptyChunk(s, f, 0)
  }

  lemma {:induction false} ChunksNeeded(size: int)
    requires size > 0
    ensures ChunkCount(size) >= 1
  {
  }

  lemma {:induction false} UnlockedPipes(s: State, t: Thread, n: nat)
    requires t in s.workers && (forall p <- s.workers[t].pipePool :: p in s.pipes) && s.locked == {}
    ensures PipesNew(s, t, n).0.locked == {}
  {
    if n != 0 {
      UnlockedPipes(s, t, n - 1);
    }
  }

  lemma {:induction false} Created(content: seq<byte>) returns (s: State)
    requires 0 < |content| <= INT_MAX
    ensures var e := Create(0, [], content, true, 0);
            && Linked(START) && Enabled(START, e) && s == Next(START, e) && Inv(s) && Linked(s)
    ensures Blank(s, 0, content) && Lookup(s.table, []) == Some(0) && s.reqs == map[]
    ensures 0 in s.workers && s.workers[0].live == []
  {
    hide Inv, Linked, Owned, PipesOk, FileNew, Blank;
    StartIsInit();
    var e := Create(0, [], content, true, 0);
    assert Enabled(START, e);
    s := Next(START, e);
    StepInv(START, e);
    StartOwned();
    NewFile(content);
  }

  lemma {:induction false} StartOwned()
    requires Inv(START)
    ensures Owned(START, []) && PipesOk(START)
  {
    hide Owned, PipesOk;
  }

  lemma {:induction false} NewFile(content: seq<byte>)
    requires 0 < |content| <= INT_MAX && 0 in START.workers && START.workers[0].pipePool == []
    requires Owned(START, []) && PipesOk(START)
    ensures var s := FileNew(START, 0, [], content, true, 0);
            && Blank(s, 0, content) && Lookup(s.table, []) == Some(0) && s.reqs == map[]
            && 0 in s.workers && s.workers[0].live == []
  {
    hide Owned, PipesOk, PipesNew, ChunkCount;
    var n := 1 + ChunkCount(|content|);
    ChunksNeeded(|content|);
    PipesNewEmpty(START, 0, n);
    UnlockedPipes(START, 0, n);
    var (s1, ps) := PipesNew(START, 0, n);
    assert ps[1] in ps && ps[1..][0] == ps[1];
  }

  // A request that has not sent anything, on the file with these bytes.
  ghost predicate OnFile(s: State, r: ReqId, content: seq<byte>) {
    && Inv(s) && Linked(s) && Active(s, r) && ReqRefs(s, r) && FileOf(s, r).content == content
  }

  // A request that arrived at file 0, of which nothing is in the pipes.
  ghost predicate Arrival(s: State, r: ReqId, content: seq<byte>) {
    && OnFile(s, r, content) && s.reqs[r].phase == Arrived && s.reqs[r].file == 0 && s.reqs[r].curr == Some(0)
    && Blank(s, 0, content)
  }

  lemma {:induction false} Arrives(s: State, content: seq<byte>) returns (s': State, r: ReqId)
    requires Linked(s) && Lookup(s.table, []) == Some(0) && s.reqs == map[] && 0 in s.workers
    requires Inv(s) && Blank(s, 0, content)
    ensures Enabled(s, Setup(0, 0, [])) && s' == Next(s, Setup(0, 0, []))
    ensures Arrival(s', r, content)
  {
    hide Linked, Next, Enabled, Inv, Blank, ReqRefs;
    var e := Setup(0, 0, []);
    SetupPossible(s);
    BlankChunk(s, content);
    s' := Next(s, e);
    StepInv(s, e);
    var f, i := SetupShape(s, e);
    r := i;
    SetupUnlocked(s, e);
    PoolStepChunk(s, e, 0, 0);
    ArrivedOn(s, r, s', content);
    HeadsHere(s', r);
  }

  lemma {:induction false} SetupPossible(s: State)
    requires Lookup(s.table, []) == Some(0) && s.reqs == map[] && 0 in s.workers
    ensures Enabled(s, Setup(0, 0, []))
  {
  }

  lemma {:induction false} BlankChunk(s: State, content: seq<byte>)
    requires Blank(s, 0, content)
    ensures 0 in s.files && 0 < |s.files[0].chunks| && s.files[0].chunks[0] in s.pipes && s.locked == {}
    ensures s.files[0].content == content
  {
  }

  lemma {:induction false} HeadsHere(s: State, r: ReqId)
    requires Linked(s) && Active(s, r)
    ensures ReqRefs(s, r)
  {
  }

  lemma {:induction false} SetupUnlocked(s: State, e: Event)
    requires Linked(s) && Enabled(s, e) && e.Setup? && s.locked == {}
    ensures Next(s, e).locked == {}
  {
    hide Admit;
    LookupIsEntry(s.table, e.uri);
    AdmitUnlocked(s, e.t, e.socket, Lookup(s.table, e.uri).value);
  }

  lemma {:induction false} AdmitUnlocked(s: State, t: Thread, socket: int, f: FileId)
    requires Linked(s) && t in s.workers && f in s.files && s.locked == {}
    ensures Admit(s, t, socket, f).0.locked == {}
  {
  }

  lemma {:induction false} ArrivedOn(s: State, r: ReqId, s': State, content: seq<byte>)
    requires Admitted(s, 0, 0, 0, r, s') && s'.locked == {} && Blank(s, 0, content) && ChunkStays(s, s', 0, 0)
    ensures Active(s', r) && s'.reqs[r].file == 0 && s'.reqs[r].phase == Arrived && s'.reqs[r].curr == Some(0)
    ensures Blank(s', 0, content) && 0 in s'.files && s'.files[0].content == content
  {
  }

  // No headers yet, and the trylock on their pipe will succeed.
  ghost predicate HeadersBlank(s: State, r: ReqId) {
    ReqRefs(s, r) && FileOf(s, r).published == [] && HeadersFree(s, r)
  }

  // What the early fill leaves behind.
  ghost predicate EarlyDone(s: State, r: ReqId, ok: bool, s': State) {
    && r in s.reqs && s'.files == s.files && s'.reqs == s.reqs[r := s.reqs[r].(phase := Fresh)]
    && 0 in s.files && s.files[0].chunks != []
    && (if ok then s'.locked == {} else s'.locked == {s.files[0].chunks[0]} && s'.pipes == s.pipes)
  }

  lemma {:induction false} EarlyOutcome(s: State, r: ReqId, ok: bool)
    requires Linked(s) && CurrRef(s, r) && s.reqs[r].phase == Arrived && s.reqs[r].file == 0 && s.reqs[r].curr == Some(0)
    requires s.locked == {} && s.pipes[CurrOf(s, r)].filled < FillLength(s, r)
    ensures Enabled(s, EarlyFill(r, ok)) && EarlyDone(s, r, ok, Next(s, EarlyFill(r, ok)))
  {
    hide Linked;
  }

  lemma {:induction false} EarlyBlank(s: State, r: ReqId, ok: bool, s': State, content: seq<byte>)
    requires EarlyDone(s, r, ok, s') && Blank(s, 0, content) && s.reqs[r].file == 0 && ReqRefs(s', r)
    requires s'.files[0].headers !in s'.files[0].chunks
    ensures HeadersBlank(s', r) && s'.reqs[r] == s.reqs[r].(phase := Fresh) && Active(s', r)
    ensures FileOf(s', r).content == content
    ensures if ok then s'.locked == {} else LockedChunk(s', 0, 0)
  {
  }

  lemma {:induction false} StillRefs(s: State, r: ReqId, ok: bool, s': State)
    requires EarlyDone(s, r, ok, s')
    ensures Active(s', r) && 0 in s'.files
  {
  }

  // The early fill, refused or not.
  lemma {:induction false} FillsEarly(s: State, r: ReqId, content: seq<byte>, ok: bool) returns (s': State)
    requires Arrival(s, r, content)
    ensures Enabled(s, EarlyFill(r, ok)) && s' == Next(s, EarlyFill(r, ok))
    ensures OnFile(s', r, content) && s'.reqs[r] == s.reqs[r].(phase := Fresh) && HeadersBlank(s', r)
    ensures if ok then s'.locked == {} else LockedChunk(s', 0, 0)
  {
    hide Linked, Enabled, Inv, Blank, ReqRefs, CurrRef, Stalls, EarlyDone, HeadersBlank, Owned;
    BlankChunk(s, content);
    CurrLinked(s, r);
    FirstIsEmpty(s, r, content);
    EarlyOutcome(s, r, ok);
    s' := Next(s, EarlyFill(r, ok));
    hide Next;
    StepInv(s, EarlyFill(r, ok));
    OwnedHere(s');
    StillRefs(s, r, ok, s');
    HeadersApart(s', 0);
    HeadsHere(s', r);
    EarlyBlank(s, r, ok, s', content);
  }

  lemma {:induction false} FirstIsEmpty(s: State, r: ReqId, content: seq<byte>)
    requires Inv(s) && CurrRef(s, r) && s.reqs[r].phase == Arrived && s.reqs[r].file == 0 && s.reqs[r].curr == Some(0)
    requires Blank(s, 0, content)
    ensures s.locked == {} && s.pipes[CurrOf(s, r)].filled < FillLength(s, r)
  {
    hide Inv, Stalls;
    StallsAtLocked(s, r);
  }

  // ----- the headers --------------------------------------------------------------------------

  // `r` has its file's headers to itself, or is through with them.
  ghost predicate Heads(s: State, r: ReqId, content: seq<byte>, text: seq<byte>) {
    && OnFile(s, r, content) && FileOf(s, r).published == text
    && (Publishing(s.reqs[r].phase) || (s.reqs[r].phase == Decide && FileOf(s, r).writer.None?))
  }

  lemma {:induction false} WritesHeaders(s: State, r: ReqId, content: seq<byte>, text: seq<byte>) returns (s': State)
    requires OnFile(s, r, content) && s.reqs[r].phase == Fresh && HeadersBlank(s, r) && 0 < |text| <= PIPE_SIZE
    ensures Enabled(s, SendHeaders(r, text)) && s' == Next(s, SendHeaders(r, text))
    ensures Heads(s', r, content, text) && s'.reqs[r] == s.reqs[r].(phase := PubSent) && s'.locked == s.locked
  {
    hide Linked, Enabled, Inv, Next, HeadersBlank, ReqRefs;
    BlankIsEmpty(s, r);
    WritePossible(s, r, text);
    s' := Next(s, SendHeaders(r, text));
    StepInv(s, SendHeaders(r, text));
    QuietLocks(s, SendHeaders(r, text));
    HeadsHere(s', r);
  }

  lemma {:induction false} BlankIsEmpty(s: State, r: ReqId)
    requires Inv(s) && Active(s, r) && HeadersBlank(s, r)
    ensures ReqRefs(s, r) && HeadersOf(s, r).filled == 0 && HeadersFree(s, r)
  {
    hide Owned, PipesOk, ListsOk, FilesOk, ContentOk;
    ActiveRefs(s, r);
  }

  lemma {:induction false} SendPossible(s: State, r: ReqId, text: seq<byte>)
    requires ReqRefs(s, r) && s.reqs[r].phase == Fresh && HeadersFree(s, r) && HeadersOf(s, r).filled == 0
    requires 0 < |text| <= PIPE_SIZE
    ensures Enabled(s, SendHeaders(r, text)) && InHeaders(SendHeaders(r, text))
  {
  }

  lemma {:induction false} WritePossible(s: State, r: ReqId, text: seq<byte>)
    requires Linked(s) && ReqRefs(s, r) && s.reqs[r].phase == Fresh && HeadersFree(s, r) && HeadersOf(s, r).filled == 0
    requires 0 < |text| <= PIPE_SIZE
    ensures Enabled(s, SendHeaders(r, text)) && InHeaders(SendHeaders(r, text))
    ensures var s' := Next(s, SendHeaders(r, text));
            && Active(s', r) && s'.reqs[r] == s.reqs[r].(phase := PubSent) && s.reqs[r].file in s'.files
            && s'.files[s.reqs[r].file].published == text && s'.files[s.reqs[r].file].content == FileOf(s, r).content
  {
    hide Linked, Enabled, Next;
    SendPossible(s, r, text);
    HeaderRefs(s, SendHeaders(r, text));
  }

  lemma {:induction false} Publishes(s: State, r: ReqId, content: seq<byte>, text: seq<byte>, stuck: bool)
    returns (s': State, es: seq<Event>)
    requires Heads(s, r, content, text) && text != []
    requires stuck ==> LockedChunk(s, s.reqs[r].file, 0)
    ensures Path(s, es) && s' == After(s, es) && Heads(s', r, content, text) && s'.reqs[r] == s.reqs[r].(phase := Decide)
    ensures s'.locked == s.locked && (stuck ==> LockedChunk(s', s.reqs[r].file, 0))
    decreases PhasesLeft(s.reqs[r].phase)
  {
    hide Inv, Linked, Next, Enabled, LockedChunk, ReqRefs, Path, After;
    if s.reqs[r].phase == Decide {
      s', es := s, [];
      PathNone(s);
    } else {
      var e := PublishStep(s, r);
      PublishMoves(s, r);
      StepInv(s, e);
      QuietLocks(s, e);
      HeadsHere(Next(s, e), r);
      RefsAre(s, r);
      FilesFixed(s, e, s.reqs[r].file);
      if stuck {
        LockedChunkStays(s, e, s.reqs[r].file, 0);
      }
      var rest;
      s', rest := Publishes(Next(s, e), r, content, text, stuck);
      es := [e] + rest;
      PathOne(s, e);
      PathJoin(s, [e], rest);
    }
  }

  lemma {:induction false} PathNone(s: State)
    ensures Path(s, []) && After(s, []) == s
  {
  }

  // ----- the serve call -----------------------------------------------------------------------

  lemma {:induction false} DecideStarts(s: State, r: ReqId, text: seq<byte>)
    requires Inv(s) && Active(s, r) && s.reqs[r].phase == Decide && ReqRefs(s, r)
    requires FileOf(s, r).published == text != [] && FileOf(s, r).writer.None?
    ensures HeadersOf(s, r).filled != 0 && s.reqs[r].sent == [] && !s.reqs[r].cached && s.reqs[r].curr == Some(0)
  {
    hide Owned, PipesOk, ListsOk, FilesOk, ContentOk;
    ActiveRefs(s, r);
  }

  // The request after the choice at cache.c:429.
  ghost predicate Chosen(s: State, r: ReqId, own: bool, s': State) {
    && r in s.reqs && r in s'.reqs && s'.files == s.files
    && s'.reqs[r] == s.reqs[r].(phase := Head, cached := s.reqs[r].cached || !own, bytesOffset := s'.reqs[r].bytesOffset,
                                bytesToSend := s'.reqs[r].bytesToSend)
  }

  lemma {:induction false} ChoiceMoves(s: State, r: ReqId, own: bool)
    requires Linked(s) && ReqRefs(s, r) && s.reqs[r].phase == Decide && HeadersOf(s, r).filled != 0
    ensures var e := if own then SendOwnHeaders(r) else TakeHeaders(r);
            Enabled(s, e) && Chosen(s, r, own, Next(s, e))
  {
    hide Linked;
  }

  lemma {:induction false} Chooses(s: State, r: ReqId, content: seq<byte>, text: seq<byte>, own: bool, stuck: bool)
    returns (s': State, e: Event)
    requires Heads(s, r, content, text) && text != [] && s.reqs[r].phase == Decide
    requires stuck ==> LockedChunk(s, s.reqs[r].file, 0)
    ensures Enabled(s, e) && s' == Next(s, e)
    ensures OnFile(s', r, content) && FileOf(s', r).published == text && s'.reqs[r].phase == Head
    ensures s'.reqs[r].sent == [] && s'.reqs[r].cached == !own && s'.reqs[r].curr == Some(0)
    ensures s'.locked == s.locked && (stuck ==> LockedChunk(s', s'.reqs[r].file, 0))
  {
    hide Inv, Linked, Next, Enabled, LockedChunk, ReqRefs;
    DecideStarts(s, r, text);
    ChoiceMoves(s, r, own);
    e := if own then SendOwnHeaders(r) else TakeHeaders(r);
    s' := Next(s, e);
    StepInv(s, e);
    QuietLocks(s, e);
    HeadsHere(s', r);
    RefsAre(s, r);
    if stuck {
      LockedChunkStays(s, e, s.reqs[r].file, 0);
    }
  }

  // A file is created and requested, its headers are published, and the first serve call is about
  // to begin; `refused` tells that vmsplice refused the early fill.
  lemma {:induction false} FirstCall(content: seq<byte>, text: seq<byte>, own: bool, refused: bool)
    returns (s: State, es: seq<Event>, r: ReqId)
    requires 0 < |content| <= INT_MAX && 0 < |text| <= PIPE_SIZE
    ensures Path(START, es) && s == After(START, es)
    ensures OnFile(s, r, content) && FileOf(s, r).published == text && s.reqs[r].phase == Head
    ensures s.reqs[r].sent == [] && s.reqs[r].cached == !own && s.reqs[r].curr == Some(0)
    ensures if refused then LockedChunk(s, s.reqs[r].file, 0) else s.locked == {}
  {
    hide Inv, Linked, Next, Enabled, LockedChunk, ReqRefs, Path, After, Blank, HeadersBlank;
    var s1 := Created(content);
    var s2, q := Arrives(s1, content);
    r := q;
    var s3 := FillsEarly(s2, r, content, !refused);
    var s4 := WritesHeaders(s3, r, content, text);
    var e1, e2, e3, e4 := Create(0, [], content, true, 0), Setup(0, 0, []), EarlyFill(r, !refused), SendHeaders(r, text);
    PathTwo(START, e1, e2);
    PathTwo(s2, e3, e4);
    PathJoin(START, [e1, e2], [e3, e4]);
    RefsAre(s3, r);
    RefsAre(s4, r);
    if refused {
      LockedChunkStays(s3, e4, 0, 0);
    }
    var s5, fs := Publishes(s4, r, content, text, refused);
    PathJoin(START, [e1, e2] + [e3, e4], fs);
    var s6, e := Chooses(s5, r, content, text, own, refused);
    PathOne(s5, e);
    PathJoin(START, [e1, e2] + [e3, e4] + fs, [e]);
    s, es := s6, [e1, e2] + [e3, e4] + fs + [e];
  }

  // Whatever the file and its headers: when the early fill is refused, the request of that fill
  // waits in its first serve call for a lock that is never given back.
  lemma {:induction false} HangIsReachable(content: seq<byte>, text: seq<byte>, own: bool)
    returns (ss: seq<State>, es: seq<Event>, r: ReqId)
    requires 0 < |content| <= INT_MAX && 0 < |text| <= PIPE_SIZE
    ensures Run(ss, es) && r in ss[|es|].reqs && ss[|es|].reqs[r].phase == Head && ss[|es|].reqs[r].cached == !own
    ensures Waits(ss[|es|], r)
  {
    hide Inv, Linked, Next, Enabled, Path, After, Stalls, LoopGuard;
    var s, fs, q := FirstCall(content, text, own, true);
    es, r := fs, q;
    StartIsInit();
    ss := PathRuns(START, es);
    WaitsAtFirst(s, r);
  }

  lemma {:induction false} WaitsAtFirst(s: State, r: ReqId)
    requires Inv(s) && r in s.reqs && s.reqs[r].phase == Head && ReqRefs(s, r) && s.reqs[r].curr == Some(0)
    requires LockedChunk(s, s.reqs[r].file, 0)
    ensures Waits(s, r)
  {
    hide Inv, Waits;
    assert EmptyAhead(s, r, 0);
    WaitsHere(s, r);
  }

  // Whatever the file and its headers: when nothing is refused, a request takes them in some run,
  // with nothing of either sent yet.
  lemma {:induction false} HeadersTakenFirst(content: seq<byte>, text: seq<byte>)
    returns (ss: seq<State>, es: seq<Event>, r: ReqId)
    requires 0 < |content| <= INT_MAX && 0 < |text| <= PIPE_SIZE
    ensures Run(ss, es) && Inv(ss[|es|]) && Active(ss[|es|], r) && ss[|es|].reqs[r].phase == Head
    ensures ReqRefs(ss[|es|], r) && Response(ss[|es|], r) == text + content && ss[|es|].reqs[r].sent == []
    ensures ss[|es|].locked == {}
  {
    hide Inv, Linked, Next, Enabled, Path, After;
    var s, fs, q := FirstCall(content, text, false, false);
    es, r := fs, q;
    StartIsInit();
    ss := PathRuns(START, es);
  }

  // A file that can be mapped, with ordinary headers: a reachable state in which a request owes its
  // client all of it, and steps of its first serve call after which that call returns a number that
  // is not positive.
  lemma {:induction false} IntReturnWitness() returns (ss: seq<State>, es: seq<Event>, r: ReqId, call: seq<Event>)
    ensures MmapLen(0x7fff_f000, 4096) <= INT_MAX
    ensures Run(ss, es) && Inv(ss[|es|]) && Active(ss[|es|], r) && ss[|es|].reqs[r].phase == Head
    ensures ReqRefs(ss[|es|], r) && |FileOf(ss[|es|], r).content| == 0x7fff_f000 && |FileOf(ss[|es|], r).published| == 5000
    ensures ss[|es|].reqs[r].sent == [] && EndsShort(ss[|es|], r, {}, call)
  {
    hide Inv, Linked, Next, Enabled, Path, After, EndsShort, Run, Stalls;
    assert (0x7fff_f000 + 4096 - 1) / 4096 == 524287;
    var content: seq<byte> := seq(0x7fff_f000, (i: nat) => 0);
    var text: seq<byte> := seq(5000, (i: nat) => 0);
    var s, fs, q := FirstCall(content, text, false, false);
    es, r := fs, q;
    StartIsInit();
    ss := PathRuns(START, es);
    assert Run(ss, es) by { RunFrom(ss, es); }
    assert Response(s, r) == text + content;
    IntReturnExact(s, r, {});
    NoLockNoWait(s, r);
    call :| EndsShort(s, r, {}, call);
  }

  lemma {:induction false} NoLockNoWait(s: State, r: ReqId)
    requires s.locked == {}
    ensures !Waits(s, r)
  {
  }

  lemma {:induction false} RunFrom(ss: seq<State>, es: seq<Event>)
    requires |ss| == |es| + 1 && ss[0] == START && forall i :: 0 <= i < |es| ==> Step(ss[i], es[i], ss[i + 1])
    ensures Run(ss, es)
  {
    hide Inv, Linked, Next, Enabled, Init;
    StartIsInit();
  }
}
