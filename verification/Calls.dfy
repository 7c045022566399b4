/**
Serve calls as sequences of steps.  A vmsplice that blocks leaves the write_mutex of its chunk
locked: a later call waits on it for ever.  Here is what the steps of one call do, and the sequences
of them that lead it to such a lock.
*/
module Calls {
  import opened Options
  import opened TableLog
  import opened CacheState
  import opened Protocol
  import opened Ownership
  import opened Streams
  import opened Steps
  import opened Lifecycle
  import opened Creation
  import opened Runs
  import opened Guarantees
  import opened Stability
  import opened Limits

  // ----- chunks nobody can fill any more ------------------------------------------------------

  ghost predicate EmptyChunk(s: State, f: FileId, k: nat) {
    && f in s.files && k < |s.files[f].chunks| && s.files[f].chunks[k] in s.pipes
    && s.pipes[s.files[f].chunks[k]].data == []
  }

  ghost predicate LockedChunk(s: State, f: FileId, k: nat) {
    EmptyChunk(s, f, k) && s.files[f].chunks[k] in s.locked
  }

  // `r` stands before a cache_req_fill_curr that never returns.
  ghost predicate Waits(s: State, r: ReqId) {
    && CurrRef(s, r) && Stalls(s, r)
    && (s.reqs[r].phase == Arrived || (s.reqs[r].phase == Head && LoopGuard(s, r)))
  }

  // A request stalls exactly at an empty chunk that is locked.
  lemma {:induction false} StallsAtLocked(s: State, r: ReqId)
    requires Inv(s) && r in s.reqs && (s.reqs[r].phase == Arrived || Serving(s.reqs[r].phase)) && CurrRef(s, r)
    ensures Stalls(s, r) <==> LockedChunk(s, s.reqs[r].file, s.reqs[r].curr.value)
    ensures s.pipes[CurrOf(s, r)].data == [] ==>
              FillOffset(s, r) == Span(s.reqs[r].curr.value) && s.pipes[CurrOf(s, r)].filled == 0 < FillLength(s, r)
              && s.reqs[r].bytesToSend > 0
  {
    hide Inv, FillOffset, FillLength;
    NeedsFill(s, r);
    CurrIs(s, r);
  }

  lemma {:induction false} ChunkSize(content: seq<byte>, k: nat)
    requires ChunkRange(content, k)
    ensures |ChunkBytes(content, k)| == Min(PIPE_SIZE, |content| - Span(k)) > 0
  {
  }

  // There is something to put into the chunk exactly when it is empty.
  lemma {:induction false} NeedsFill(s: State, r: ReqId)
    requires Inv(s) && r in s.reqs && (s.reqs[r].phase == Arrived || Serving(s.reqs[r].phase)) && CurrRef(s, r)
    ensures var c, k := s.pipes[CurrOf(s, r)], s.reqs[r].curr.value;
            && (c.filled < FillLength(s, r) <==> c.data == [])
            && (c.data == [] ==> FillOffset(s, r) == Span(k) && c.filled == 0 && s.reqs[r].bytesToSend > 0)
  {
    hide Inv, StreamOk, ChunksOk, ChunkBytes;
    CurrFacts(s, r);
    OffsetIs(s, r);
    ChunkSize(FileOf(s, r).content, s.reqs[r].curr.value);
  }

  lemma {:induction false} OffsetIs(s: State, r: ReqId)
    requires ReqRefs(s, r) && StreamOk(s, r)
    ensures s.reqs[r].bytesOffset + s.reqs[r].bytesToSend == |FileOf(s, r).content|
    ensures 0 <= BufOf(s, r).filled == |BufOf(s, r).data|
  {
  }

  // What the invariant says of the chunk a request stands at.
  lemma {:induction false} CurrFacts(s: State, r: ReqId)
    requires Inv(s) && r in s.reqs && (s.reqs[r].phase == Arrived || Serving(s.reqs[r].phase)) && CurrRef(s, r)
    ensures ChunksOk(s, s.reqs[r].file) && StreamOk(s, r) && CursorOk(s, r) && PlainPipe(s.pipes[CurrOf(s, r)])
    ensures ChunkRange(FileOf(s, r).content, s.reqs[r].curr.value)
    ensures s.pipes[CurrOf(s, r)].data == [] || Complete(s, s.reqs[r].file, s.reqs[r].curr.value)
  {
    hide Owned, PipesOk, ListsOk, FilesOk, ContentOk;
    ActiveRefs(s, r);
    ChunkIsPlain(s, r);
    assert StreamOk(s, r) && CursorOk(s, r);
  }

  lemma {:induction false} PipesNewLocked(s: State, t: Thread, n: nat)
    requires t in s.workers && forall p <- s.workers[t].pipePool :: p in s.pipes
    ensures PipesNew(s, t, n).0.nextPipe >= s.nextPipe
    ensures forall p :: p < s.nextPipe ==> (p in PipesNew(s, t, n).0.locked <==> p in s.locked)
  {
    if n != 0 {
      PipesNewLocked(s, t, n - 1);
    }
  }

  lemma {:induction false} FileStepLocks(s: State, e: Event, p: PipeId)
    requires Linked(s) && Enabled(s, e) && p in s.locked && p < s.nextPipe
    requires e.Access? || e.Create? || e.Reset?
    ensures p in Next(s, e).locked
  {
    hide PipesFree, PipesNew;
    LookupIsEntry(s.table, e.uri);
    if e.Create? {
      PipesNewLocked(s, e.t, 1 + ChunkCount(|e.content|));
    }
  }

  lemma {:induction false} AdmitLocks(s: State, t: Thread, socket: int, f: FileId, p: PipeId)
    requires Linked(s) && t in s.workers && f in s.files && p in s.locked && p < s.nextPipe
    ensures p in Admit(s, t, socket, f).0.locked
  {
  }

  lemma {:induction false} SetupLocks(s: State, e: Event, p: PipeId)
    requires Linked(s) && Enabled(s, e) && p in s.locked && p < s.nextPipe && e.Setup?
    ensures p in Next(s, e).locked
  {
    hide Admit;
    LookupIsEntry(s.table, e.uri);
    AdmitLocks(s, e.t, e.socket, Lookup(s.table, e.uri).value, p);
  }

  lemma {:induction false} DeleteLocks(s: State, r: ReqId)
    requires Linked(s) && Enabled(s, Delete(r))
    ensures Next(s, Delete(r)).locked == s.locked
  {
    hide PipesFree;
  }

  lemma {:induction false} QuietLocks(s: State, e: Event)
    requires Linked(s) && Enabled(s, e) && (InHeaders(e) || e.Tee? || e.Splice?)
    ensures Next(s, e).locked == s.locked
  {
    hide Linked, Enabled, Next;
    if InHeaders(e) {
      HeaderShape(s, e);
    } else {
      MoveShape(s, e);
    }
  }

  // Only a fill that had something to do and was refused leaves a lock behind.
  lemma {:induction false} FillLocks(s: State, e: Event)
    requires Linked(s) && Enabled(s, e) && (e.EarlyFill? || e.Fill?)
    ensures e.r in s.reqs && (s.reqs[e.r].curr.Some? ==> CurrRef(s, e.r))
    ensures Next(s, e).locked
            == if s.reqs[e.r].curr.Some? && !e.ok && s.pipes[CurrOf(s, e.r)].filled < FillLength(s, e.r)
               then s.locked + {CurrOf(s, e.r)} else s.locked
  {
  }

  // A leaked lock is never given back.
  lemma {:induction false} LockStays(s: State, e: Event, p: PipeId)
    requires Linked(s) && Enabled(s, e) && p in s.locked && p < s.nextPipe
    ensures p in Next(s, e).locked
  {
    hide Linked, Enabled, Next;
    if e.Access? || e.Create? || e.Reset? {
      FileStepLocks(s, e, p);
    } else if e.Setup? {
      SetupLocks(s, e, p);
    } else if e.Delete? {
      DeleteLocks(s, e.r);
    } else if e.EarlyFill? || e.Fill? {
      FillLocks(s, e);
    } else {
      QuietLocks(s, e);
    }
  }

  // A fill writes no pipe but its chunk.
  lemma {:induction false} FillTouches(s: State, r: ReqId, ok: bool, f: FileId, k: nat)
    requires CurrRef(s, r) && f in s.files && k < |s.files[f].chunks| && s.files[f].chunks[k] in s.pipes
    requires s.files[f].chunks[k] != CurrOf(s, r)
    ensures ChunkStays(s, FillCurr(s, r, ok).0, f, k)
  {
  }

  lemma {:induction false} FillSpares(s: State, r: ReqId, ok: bool, f: FileId, k: nat)
    requires CurrRef(s, r) && (s.reqs[r].phase == Arrived || s.reqs[r].phase == Head) && !Stalls(s, r)
    requires LockedChunk(s, f, k)
    requires Inv(s)
    ensures ChunkStays(s, FillCurr(s, r, ok).0, f, k)
  {
    CurrIs(s, r);
    LockedIs(s, f, k);
    hide Inv, FillCurr, ChunkStays, LockedChunk, Stalls, CurrRef, Owned;
    StallsAtLocked(s, r);
    OwnedHere(s);
    ChunkApart(s, f, k);
    FillTouches(s, r, ok, f, k);
  }

  lemma {:induction false} CurrIs(s: State, r: ReqId)
    requires CurrRef(s, r)
    ensures ReqRefs(s, r) && r in s.reqs && s.reqs[r].file in s.files && s.reqs[r].curr.Some?
    ensures s.reqs[r].curr.value < |s.files[s.reqs[r].file].chunks|
    ensures CurrOf(s, r) == s.files[s.reqs[r].file].chunks[s.reqs[r].curr.value] && CurrOf(s, r) in s.pipes
  {
  }

  lemma {:induction false} LockedIs(s: State, f: FileId, k: nat)
    requires LockedChunk(s, f, k)
    ensures f in s.files && k < |s.files[f].chunks| && s.files[f].chunks[k] in s.pipes
    ensures s.pipes[s.files[f].chunks[k]].data == []
  {
  }

  lemma {:induction false} LiveIds(s: State)
    requires Inv(s)
    ensures forall p <- s.pipes :: p < s.nextPipe
  {
  }

  lemma {:induction false} LockedStays(s: State, e: Event, f: FileId, k: nat)
    requires Linked(s) && Enabled(s, e) && f in Next(s, e).files && LockedChunk(s, f, k)
    requires Inv(s)
    ensures ChunkStays(s, Next(s, e), f, k)
  {
    hide Owned, PipesOk, ListsOk, FilesOk, ContentOk;
    if e.Create? || e.Setup? {
      PoolStepChunk(s, e, f, k);
    } else if e.Reset? || e.Delete? {
      ReleaseChunk(s, e, f, k);
    } else if e.EarlyFill? || e.Fill? {
      if s.reqs[e.r].curr.Some? {
        hide Linked;
        FillSpares(s, e.r, e.ok, f, k);
      }
    } else {
      ChunkOfFile(s, f, k);
      OtherStepChunk(s, e, f, k);
    }
  }

  // A chunk that is locked while it is empty stays so as long as its file lives: no request gets
  // past it any more.
  lemma {:induction false} LockedChunkStays(s: State, e: Event, f: FileId, k: nat)
    requires Linked(s) && Enabled(s, e) && f in Next(s, e).files && LockedChunk(s, f, k)
    requires Inv(s)
    ensures LockedChunk(Next(s, e), f, k)
  {
    hide Inv, Linked, Enabled, Next;
    LiveIds(s);
    LockedStays(s, e, f, k);
    LockStays(s, e, s.files[f].chunks[k]);
  }

  lemma {:induction false} NoStepWaiting(s: State, e: Event, r: ReqId)
    requires Linked(s) && Enabled(s, e) && Waits(s, r) && e != Delete(r)
    ensures !StepOf(e, r) && Active(s, r)
  {
    hide Linked;
  }

  // The wait never ends: the request takes no step of its own again.
  lemma {:induction false} WaitsOn(s: State, e: Event, r: ReqId)
    requires Linked(s) && Enabled(s, e) && Waits(s, r) && e != Delete(r)
    requires Inv(s)
    ensures !StepOf(e, r) && Waits(Next(s, e), r) && Next(s, e).reqs[r] == s.reqs[r]
  {
    hide Inv, Linked, Enabled, Next;
    NoStepWaiting(s, e, r);
    StallsAtLocked(s, r);
    OthersUndisturbed(s, e, r);
    StepProgress(s, e, r);
    StepInv(s, e);
    FilesFixed(s, e, s.reqs[r].file);
    LockedChunkStays(s, e, s.reqs[r].file, s.reqs[r].curr.value);
    StallsAtLocked(Next(s, e), r);
  }

  // In every run: until its thread deletes it, which is the thread that waits, it waits.
  lemma {:induction false} WaitsForEver(ss: seq<State>, es: seq<Event>, i: nat, j: nat, r: ReqId)
    requires Run(ss, es) && i <= j < |ss| && Waits(ss[i], r)
    requires forall k :: i <= k < j ==> es[k] != Delete(r)
    ensures Waits(ss[j], r) && ss[j].reqs[r] == ss[i].reqs[r] && forall k :: i <= k < j ==> !StepOf(es[k], r)
    decreases j - i
  {
    hide Inv, Linked, Init, Enabled, Next, Waits;
    if i < j {
      RunInv(ss, es, i);
      assert Step(ss[i], es[i], ss[i + 1]);
      WaitsOn(ss[i], es[i], r);
      WaitsForEver(ss, es, i + 1, j, r);
    }
  }

  // ----- the steps of one call ----------------------------------------------------------------

  ghost predicate Path(s: State, es: seq<Event>)
    decreases |es|
  {
    es == [] || (Linked(s) && Enabled(s, es[0]) && Path(Next(s, es[0]), es[1..]))
  }

  ghost function After(s: State, es: seq<Event>): State
    requires Path(s, es)
    decreases |es|
  {
    if es == [] then s else After(Next(s, es[0]), es[1..])
  }

  // A step inside a serve call of `r`; with `busy` unset vmsplice never blocks.
  predicate Turn(e: Event, r: ReqId, busy: bool) {
    match e
    case Fill(i, ok) => i == r && (ok || busy)
    case Tee(i, _) => i == r
    case Splice(i, n) => i == r && n > 0
    case _ => false
  }

  predicate Turns(es: seq<Event>, r: ReqId, busy: bool) {
    forall i :: 0 <= i < |es| ==> Turn(es[i], r, busy)
  }

  // The steps `es` of a call that starts in `s` lead it to a lock it waits on for ever.
  ghost predicate HangsAlone(s: State, r: ReqId, busy: bool, es: seq<Event>) {
    Path(s, es) && Turns(es, r, busy) && Waits(After(s, es), r)
  }

  // What `r` sees of a step: its chunks are where they were, and full ones stay full.
  ghost predicate SameView(s: State, s': State, r: ReqId) {
    && ReqRefs(s, r) && ReqRefs(s', r) && s'.reqs[r].file == s.reqs[r].file && FileOf(s', r).content == FileOf(s, r).content
    && FileOf(s', r).chunks == FileOf(s, r).chunks
    && forall k: nat :: EmptyChunk(s', s.reqs[r].file, k) ==> EmptyChunk(s, s.reqs[r].file, k)
  }

  lemma {:induction false} KeepsView(s: State, e: Event, r: ReqId)
    requires Linked(s) && Enabled(s, e) && Active(s, r) && e != Delete(r)
    requires Inv(s)
    ensures Inv(Next(s, e)) && Linked(Next(s, e)) && Active(Next(s, e), r) && SameView(s, Next(s, e), r)
  {
    hide Inv, Linked, Next, Enabled;
    StepInv(s, e);
    StepProgress(s, e, r);
    FilesFixed(s, e, s.reqs[r].file);
    var f := s.reqs[r].file;
    ChunksHere(s, f);
    forall k: nat | EmptyChunk(Next(s, e), f, k) ensures EmptyChunk(s, f, k) {
      if s.pipes[s.files[f].chunks[k]].data != [] {
        FilledChunkStays(s, e, f, k);
      }
    }
  }

  lemma {:induction false} TurnKeeps(s: State, e: Event, r: ReqId)
    requires Linked(s) && Enabled(s, e) && Turn(e, r, true)
    requires Inv(s)
    ensures Inv(Next(s, e)) && Linked(Next(s, e)) && Active(s, r) && SameView(s, Next(s, e), r)
  {
    hide Inv, Linked, Next, Enabled, Turn, SameView;
    TurnIsActive(s, e, r);
    KeepsView(s, e, r);
  }

  lemma {:induction false} TurnIsActive(s: State, e: Event, r: ReqId)
    requires Enabled(s, e) && Turn(e, r, true)
    ensures Active(s, r) && e != Delete(r)
  {
  }

  lemma {:induction false} ChunksHere(s: State, f: FileId)
    requires f in s.files
    requires Inv(s)
    ensures forall k :: 0 <= k < |s.files[f].chunks| ==> s.files[f].chunks[k] in s.pipes
  {
    hide Owned, PipesOk, ListsOk, FilesOk;
    assert ChunksOk(s, f);
  }

  lemma {:induction false} FillWrote(s: State, r: ReqId, ok: bool)
    requires CurrRef(s, r)
    ensures FillStep(s, r, ok).pipes == FillCurr(s, r, ok).0.pipes && FillStep(s, r, ok).files == FillCurr(s, r, ok).0.files
  {
    hide FillCurr;
  }

  // Empty chunks other than `j` are still empty.
  ghost predicate Untouched(s: State, s': State, f: FileId, j: int) {
    forall k: nat :: k != j && EmptyChunk(s, f, k) ==> EmptyChunk(s', f, k)
  }

  lemma {:induction false} FillUntouched(s: State, r: ReqId, ok: bool)
    requires CurrRef(s, r)
    requires Inv(s)
    ensures Untouched(s, FillStep(s, r, ok), s.reqs[r].file, s.reqs[r].curr.value)
  {
    hide Inv, FillCurr, Owned;
    var f := s.reqs[r].file;
    CurrIs(s, r);
    OwnedHere(s);
    ChunkApart(s, f, s.reqs[r].curr.value);
    FillWrote(s, r, ok);
    hide FillStep, CurrRef;
    forall k: nat | k != s.reqs[r].curr.value && EmptyChunk(s, f, k) ensures EmptyChunk(FillStep(s, r, ok), f, k) {
      FillTouches(s, r, ok, f, k);
    }
  }

  lemma {:induction false} MoveUntouched(s: State, e: Event, r: ReqId)
    requires Linked(s) && Enabled(s, e) && (e.Tee? || e.Splice?) && e.r == r && r in s.reqs
    requires Inv(s)
    ensures Untouched(s, Next(s, e), s.reqs[r].file, -1)
  {
    hide Inv, Linked, Enabled, Next;
    var f := s.reqs[r].file;
    OwnedHere(s);
    forall k: nat | EmptyChunk(s, f, k) ensures EmptyChunk(Next(s, e), f, k) {
      ChunkOfFile(s, f, k);
      ServeStepChunk(s, e, f, k);
    }
  }

  // ----- what one turn does -------------------------------------------------------------------

  lemma {:induction false} FillIs(s: State, r: ReqId, ok: bool)
    requires Linked(s) && CurrRef(s, r) && s.reqs[r].phase == Head && LoopGuard(s, r) && !Stalls(s, r)
    ensures Enabled(s, Fill(r, ok)) && Next(s, Fill(r, ok)) == FillStep(s, r, ok) && Turn(Fill(r, ok), r, true)
  {
    hide FillStep;
  }

  // After the fill: on to the tee if the request's pipe is empty.
  ghost predicate Filled(s: State, s': State, r: ReqId) {
    && r in s.reqs && s.reqs[r].buf in s.pipes && r in s'.reqs
    && s'.reqs[r] == s.reqs[r].(phase := if s.pipes[s.reqs[r].buf].filled == 0 then Ready else Flush)
    && s.reqs[r].buf in s'.pipes && s'.pipes[s.reqs[r].buf] == s.pipes[s.reqs[r].buf]
  }

  lemma {:induction false} FillOutcome(s: State, r: ReqId)
    requires CurrRef(s, r) && s.reqs[r].phase == Head && LoopGuard(s, r)
    requires Inv(s)
    ensures Filled(s, FillStep(s, r, true), r)
    ensures s.reqs[r].file in FillStep(s, r, true).files
    ensures !EmptyChunk(FillStep(s, r, true), s.reqs[r].file, s.reqs[r].curr.value)
  {
    hide Inv, FillCurr, LoopGuard;
    CurrIsApart(s, r);
    FillAnswer(s, r);
  }

  // With room in the chunk it is filled, and a request with an empty pipe gets the answer 0.
  lemma {:induction false} FillAnswer(s: State, r: ReqId)
    requires CurrRef(s, r) && s.reqs[r].phase == Head && LoopGuard(s, r)
    requires Inv(s)
    ensures var (s', ret) := FillCurr(s, r, true);
            && s'.reqs == s.reqs && s'.files == s.files && s'.pipes.Keys == s.pipes.Keys
            && (forall p <- s.pipes :: p != CurrOf(s, r) ==> s'.pipes[p] == s.pipes[p])
            && s'.pipes[CurrOf(s, r)].data != [] && (BufOf(s, r).filled == 0 ==> ret == 0)
  {
    hide Inv, StreamOk, ChunksOk, ChunkBytes;
    CurrFacts(s, r);
    OffsetIs(s, r);
    var k, content := s.reqs[r].curr.value, FileOf(s, r).content;
    ChunkSize(content, k);
    assert ChunkRange(content, k);
  }

  // The fill at socket.c:40 when the chunk can be filled.
  lemma {:induction false} FillTurn(s: State, r: ReqId, s': State)
    requires Linked(s) && CurrRef(s, r) && s.reqs[r].phase == Head && LoopGuard(s, r) && !Stalls(s, r)
    requires s' == FillStep(s, r, true)
    requires Inv(s)
    ensures Enabled(s, Fill(r, true)) && s' == Next(s, Fill(r, true))
    ensures Inv(s') && Linked(s') && SameView(s, s', r) && s'.locked == s.locked && Filled(s, s', r)
    ensures !EmptyChunk(s', s.reqs[r].file, s.reqs[r].curr.value)
    ensures Untouched(s, s', s.reqs[r].file, s.reqs[r].curr.value)
  {
    hide Inv, Linked, FillStep, Enabled, Next, Filled, Turn, SameView, EmptyChunk, Stalls, Untouched;
    FillIs(s, r, true);
    FillUntouched(s, r, true);
    TurnKeeps(s, Fill(r, true), r);
    FillLocks(s, Fill(r, true));
    FillOutcome(s, r);
  }

  // vmsplice blocks with bytes still in the request's pipe: the chunk is locked, and the loop goes on.
  lemma {:induction false} BlockedFill(s: State, r: ReqId, s': State)
    requires Linked(s) && CurrRef(s, r) && s.reqs[r].phase == Head && LoopGuard(s, r) && !Stalls(s, r)
    requires s' == FillStep(s, r, false) && EmptyChunk(s, s.reqs[r].file, s.reqs[r].curr.value)
    requires Inv(s)
    ensures Enabled(s, Fill(r, false)) && s' == Next(s, Fill(r, false))
    ensures Inv(s') && Linked(s') && SameView(s, s', r) && s'.locked == s.locked + {CurrOf(s, r)}
    ensures s'.pipes == s.pipes && s'.reqs == s.reqs[r := s.reqs[r].(phase := Flush)]
  {
    FillIs(s, r, false);
    StallsAtLocked(s, r);
    BlockedIs(s, r);
    hide Inv, Linked, FillStep, Enabled, Next, Turn, SameView, Stalls;
    TurnKeeps(s, Fill(r, false), r);
  }

  lemma {:induction false} BlockedIs(s: State, r: ReqId)
    requires CurrRef(s, r) && s.pipes[CurrOf(s, r)].filled < FillLength(s, r)
    ensures FillStep(s, r, false)
            == s.(locked := s.locked + {CurrOf(s, r)}, reqs := s.reqs[r := s.reqs[r].(phase := Flush)])
  {
  }

  // After the tee: the chunk is in the request's pipe, and curr is at the next one.
  ghost predicate TeeMoved(s: State, s': State, r: ReqId) {
    && CurrRef(s, r) && r in s'.reqs && s.reqs[r].buf in s'.pipes
    && s'.reqs[r] == s.reqs[r].(phase := Flush,
         curr := if s.reqs[r].curr.value + 1 == |FileOf(s, r).chunks| then None else Some(s.reqs[r].curr.value + 1))
    && 0 < s'.pipes[s.reqs[r].buf].filled
    && (s.reqs[r].curr.value + 1 < |FileOf(s, r).chunks| ==> s'.pipes[s.reqs[r].buf].filled == PIPE_SIZE)
  }

  lemma {:induction false} TeeIs(s: State, r: ReqId)
    requires Linked(s) && CurrRef(s, r) && s.reqs[r].phase == Ready
    ensures Enabled(s, Tee(r, true)) && Next(s, Tee(r, true)) == TeeStep(s, r, true) && Turn(Tee(r, true), r, false)
    ensures TeeStep(s, r, true).locked == s.locked
  {
  }

  lemma {:induction false} TeeOutcome(s: State, r: ReqId)
    requires CurrRef(s, r) && s.reqs[r].phase == Ready
    requires Inv(s)
    ensures TeeMoved(s, TeeStep(s, r, true), r)
  {
    hide Owned, ListsOk, FilesOk, ContentOk;
    ActiveRefs(s, r);
    ChunkIsPlain(s, r);
    BufferApart(s, r);
    var k, content := s.reqs[r].curr.value, FileOf(s, r).content;
    assert ChunkRange(content, k);
    assert |ChunkBytes(content, k)| == Min(PIPE_SIZE, |content| - Span(k));
    if k + 1 < |FileOf(s, r).chunks| {
      assert ChunkRange(content, k + 1);
    }
  }

  lemma {:induction false} TeeTurn(s: State, r: ReqId, s': State)
    requires Linked(s) && CurrRef(s, r) && s.reqs[r].phase == Ready && s' == TeeStep(s, r, true)
    requires Inv(s)
    ensures Enabled(s, Tee(r, true)) && s' == Next(s, Tee(r, true))
    ensures Inv(s') && Linked(s') && SameView(s, s', r) && s'.locked == s.locked && TeeMoved(s, s', r)
    ensures Untouched(s, s', s.reqs[r].file, -1)
  {
    hide Inv, Linked, TeeStep, Enabled, Next, TeeMoved, SameView, Untouched;
    TeeIs(s, r);
    MoveUntouched(s, Tee(r, true), r);
    TeeOutcome(s, r);
    TurnKeeps(s, Tee(r, true), r);
  }

  lemma {:induction false} SpliceIs(s: State, r: ReqId, n: nat)
    requires Linked(s) && ReqRefs(s, r) && s.reqs[r].phase == Flush && n <= BufOf(s, r).filled == |BufOf(s, r).data|
    ensures Enabled(s, Splice(r, n)) && Next(s, Splice(r, n)) == SpliceStep(s, r, n)
    ensures n > 0 ==> Turn(Splice(r, n), r, false)
  {
    hide Linked;
  }

  // A splice of `n` bytes, whatever the socket takes.
  lemma {:induction false} SpliceTurn(s: State, r: ReqId, n: nat, s': State)
    requires Linked(s) && ReqRefs(s, r) && s.reqs[r].phase == Flush && 0 < n <= BufOf(s, r).filled == |BufOf(s, r).data|
    requires s' == SpliceStep(s, r, n)
    requires Inv(s)
    ensures Enabled(s, Splice(r, n)) && s' == Next(s, Splice(r, n))
    ensures Inv(s') && Linked(s') && SameView(s, s', r) && s'.locked == s.locked
    ensures s'.reqs[r].phase == Head && s'.reqs[r].curr == s.reqs[r].curr && BufOf(s', r).filled == BufOf(s, r).filled - n
    ensures Untouched(s, s', s.reqs[r].file, -1)
  {
    SpliceIs(s, r, n);
    hide Inv, Linked, Enabled, Next, Untouched;
    MoveUntouched(s, Splice(r, n), r);
    TurnKeeps(s, Splice(r, n), r);
  }

  // ----- when a call can hang -----------------------------------------------------------------

  // Chunk `k` still has to go to the client of `r`, and is empty.
  ghost predicate EmptyAhead(s: State, r: ReqId, k: nat) {
    && ReqRefs(s, r) && s.reqs[r].curr.Some? && s.reqs[r].curr.value <= k && EmptyChunk(s, s.reqs[r].file, k)
  }

  ghost predicate LockedAhead(s: State, r: ReqId, k: nat) {
    EmptyAhead(s, r, k) && s.files[s.reqs[r].file].chunks[k] in s.locked
  }

  lemma {:induction false} GuardAhead(s: State, r: ReqId, k: nat)
    requires Inv(s) && r in s.reqs && Serving(s.reqs[r].phase) && EmptyAhead(s, r, k)
    ensures LoopGuard(s, r) && CurrRef(s, r)
    ensures 0 <= BufOf(s, r).filled == |BufOf(s, r).data|
  {
    hide Owned, PipesOk, ListsOk, FilesOk, ContentOk;
    ActiveRefs(s, r);
    var j := s.reqs[r].curr.value;
    assert ChunkRange(FileOf(s, r).content, j) && ChunkRange(FileOf(s, r).content, k);
    assert StreamOk(s, r) && CursorOk(s, r);
  }

  lemma {:induction false} StillAhead(s: State, s': State, r: ReqId, j: int, k: nat)
    requires EmptyAhead(s, r, k) && SameView(s, s', r) && Untouched(s, s', s.reqs[r].file, j) && k != j
    requires s'.reqs[r].curr.Some? && s'.reqs[r].curr.value <= k
    ensures EmptyAhead(s', r, k)
  {
  }

  // The pipe of the request is emptied, curr stays.
  lemma {:induction false} DrainTurn(s: State, r: ReqId) returns (s': State, es: seq<Event>)
    requires Linked(s) && CurrRef(s, r) && s.reqs[r].phase == Head && LoopGuard(s, r) && !Stalls(s, r)
    requires 0 < BufOf(s, r).filled == |BufOf(s, r).data|
    requires Inv(s)
    ensures Path(s, es) && s' == After(s, es) && Turns(es, r, false)
    ensures Inv(s') && Linked(s') && SameView(s, s', r) && s'.locked == s.locked
    ensures s'.reqs[r].phase == Head && s'.reqs[r].curr == s.reqs[r].curr && BufOf(s', r).filled == 0
    ensures !EmptyChunk(s', s.reqs[r].file, s.reqs[r].curr.value)
    ensures Untouched(s, s', s.reqs[r].file, s.reqs[r].curr.value)
  {
    hide Inv, Linked, Enabled, FillStep, SpliceStep, Stalls;
    var s1 := FillStep(s, r, true);
    FillTurn(s, r, s1);
    var n := BufOf(s, r).filled;
    s' := SpliceStep(s1, r, n);
    SpliceTurn(s1, r, n, s');
    es := [Fill(r, true), Splice(r, n)];
    hide Next, LoopGuard, SameView, Path, After;
    SameViewTwice(s, s1, s', r);
    PathTwo(s, Fill(r, true), Splice(r, n));
  }

  lemma {:induction false} SameViewTwice(s: State, s1: State, s2: State, r: ReqId)
    requires SameView(s, s1, r) && SameView(s1, s2, r)
    ensures SameView(s, s2, r)
  {
  }

  lemma {:induction false} UntouchedTwice(s: State, s1: State, s2: State, f: FileId, j: int, i: int)
    requires Untouched(s, s1, f, j) && Untouched(s1, s2, f, i) && (i == j || i == -1)
    ensures Untouched(s, s2, f, j)
  {
  }

  // Fill and tee: the next chunk is in the request's pipe.
  lemma {:induction false} TakeTurn(s: State, r: ReqId) returns (s': State)
    requires Linked(s) && CurrRef(s, r) && s.reqs[r].phase == Head && LoopGuard(s, r) && !Stalls(s, r)
    requires BufOf(s, r).filled == 0 && s.reqs[r].curr.value + 1 < |FileOf(s, r).chunks|
    requires Inv(s)
    ensures Path(s, [Fill(r, true), Tee(r, true)]) && s' == After(s, [Fill(r, true), Tee(r, true)])
    ensures Inv(s') && Linked(s') && SameView(s, s', r) && s'.locked == s.locked
    ensures s'.reqs[r].phase == Flush && s'.reqs[r].curr == Some(s.reqs[r].curr.value + 1) && BufOf(s', r).filled == PIPE_SIZE
    ensures Untouched(s, s', s.reqs[r].file, s.reqs[r].curr.value)
  {
    hide Inv, Linked, Enabled, Next, FillStep, TeeStep, Stalls, LoopGuard, Untouched, EmptyChunk, Path, After;
    var s1 := FillStep(s, r, true);
    FillTurn(s, r, s1);
    s' := TeeStep(s1, r, true);
    TeeTurn(s1, r, s');
    SameViewTwice(s, s1, s', r);
    UntouchedTwice(s, s1, s', s.reqs[r].file, s.reqs[r].curr.value, -1);
    PathTwo(s, Fill(r, true), Tee(r, true));
  }

  // One chunk further: fill, tee, and a splice of everything or of one byte.
  lemma {:induction false} ChunkTurn(s: State, r: ReqId, all: bool) returns (s': State, es: seq<Event>)
    requires Linked(s) && CurrRef(s, r) && s.reqs[r].phase == Head && LoopGuard(s, r) && !Stalls(s, r)
    requires 0 == BufOf(s, r).filled == |BufOf(s, r).data| && s.reqs[r].curr.value + 1 < |FileOf(s, r).chunks|
    requires Inv(s)
    ensures Path(s, es) && s' == After(s, es) && Turns(es, r, false)
    ensures Inv(s') && Linked(s') && SameView(s, s', r) && s'.locked == s.locked
    ensures s'.reqs[r].phase == Head && s'.reqs[r].curr == Some(s.reqs[r].curr.value + 1)
    ensures BufOf(s', r).filled == if all then 0 else PIPE_SIZE - 1
    ensures Untouched(s, s', s.reqs[r].file, s.reqs[r].curr.value)
  {
    hide Inv, Linked, Enabled, Next, SpliceStep, Stalls, LoopGuard, Untouched, Path, After;
    var s1 := TakeTurn(s, r);
    PipeIsPlain(s1, r);
    var n := if all then PIPE_SIZE else 1;
    s' := SpliceStep(s1, r, n);
    SpliceTurn(s1, r, n, s');
    SameViewTwice(s, s1, s', r);
    UntouchedTwice(s, s1, s', s.reqs[r].file, s.reqs[r].curr.value, -1);
    PathOne(s1, Splice(r, n));
    PathJoin(s, [Fill(r, true), Tee(r, true)], [Splice(r, n)]);
    es := [Fill(r, true), Tee(r, true)] + [Splice(r, n)];
  }

  lemma {:induction false} PipeIsPlain(s: State, r: ReqId)
    requires Inv(s) && r in s.reqs && Serving(s.reqs[r].phase)
    ensures ReqRefs(s, r) && 0 <= BufOf(s, r).filled == |BufOf(s, r).data|
  {
    hide Inv;
    ServingFacts(s, r);
  }

  lemma {:induction false} PathJoin(s: State, es: seq<Event>, fs: seq<Event>)
    requires Path(s, es) && Path(After(s, es), fs)
    ensures Path(s, es + fs) && After(s, es + fs) == After(After(s, es), fs)
    decreases |es|
  {
    hide Linked, Enabled, Next;
    if es == [] {
      assert es + fs == fs;
    } else {
      PathJoin(Next(s, es[0]), es[1..], fs);
      assert (es + fs)[0] == es[0] && (es + fs)[1..] == es[1..] + fs;
    }
  }

  lemma {:induction false} HangsLater(s: State, r: ReqId, busy: bool, es: seq<Event>, fs: seq<Event>)
    requires Path(s, es) && Turns(es, r, false) && HangsAlone(After(s, es), r, busy, fs)
    ensures HangsAlone(s, r, busy, es + fs)
  {
    hide Path, After, Waits;
    PathJoin(s, es, fs);
  }

  // The request stands at an empty, locked chunk: the call hangs at once.
  lemma {:induction false} WaitsHere(s: State, r: ReqId)
    requires Inv(s) && r in s.reqs && s.reqs[r].phase == Head && s.reqs[r].curr.Some?
    requires EmptyAhead(s, r, s.reqs[r].curr.value)
    ensures CurrRef(s, r) && LoopGuard(s, r) && (Stalls(s, r) <==> CurrOf(s, r) in s.locked)
    ensures CurrOf(s, r) in s.locked ==> Waits(s, r)
  {
    hide Inv, LoopGuard, Stalls;
    GuardAhead(s, r, s.reqs[r].curr.value);
    StallsAtLocked(s, r);
  }

  // A schedule of the socket that brings the call to the locked chunk.
  lemma {:induction false} HangPath(s: State, r: ReqId, k: nat) returns (es: seq<Event>)
    requires Inv(s) && Linked(s) && r in s.reqs && s.reqs[r].phase == Head && LockedAhead(s, r, k)
    ensures HangsAlone(s, r, false, es)
    decreases k - s.reqs[r].curr.value, BufOf(s, r).filled != 0
  {
    hide Inv, Linked, Waits, Stalls, LoopGuard, Turns, Path, After;
    GuardAhead(s, r, k);
    var j := s.reqs[r].curr.value;
    if Stalls(s, r) {
      es := Stopped(s, r);
    } else {
      if k == j {
        WaitsHere(s, r);
      }
      var s', turn;
      if BufOf(s, r).filled != 0 {
        s', turn := DrainTurn(s, r);
      } else {
        s', turn := ChunkTurn(s, r, true);
      }
      StillAhead(s, s', r, j, k);
      var rest := HangPath(s', r, k);
      HangsLater(s, r, false, turn, rest);
      es := turn + rest;
    }
  }

  lemma {:induction false} Stopped(s: State, r: ReqId) returns (es: seq<Event>)
    requires CurrRef(s, r) && Stalls(s, r) && s.reqs[r].phase == Head && LoopGuard(s, r)
    ensures HangsAlone(s, r, false, es) && HangsAlone(s, r, true, es)
  {
    es := [];
  }

  // ----- curr only goes on --------------------------------------------------------------------

  // What a step of the request itself does to curr.
  ghost predicate CurrMoves(s: State, s': State, i: ReqId) {
    && i in s.reqs && i in s'.reqs
    && (s'.reqs[i].curr.Some? ==>
          && s.reqs[i].curr.Some? && s.reqs[i].curr.value <= s'.reqs[i].curr.value
          && (s'.reqs[i].curr.value > s.reqs[i].curr.value ==>
                s.reqs[i].phase == Ready && s'.reqs[i].curr.value == s.reqs[i].curr.value + 1))
  }

  lemma {:induction false} LoopMoves(s: State, e: Event)
    requires Linked(s) && Enabled(s, e) && (e.EarlyFill? || e.Fill? || e.Tee?)
    ensures CurrMoves(s, Next(s, e), e.r)
  {
    hide Linked, Enabled, Next, FillCurr;
    LoopIs(s, e);
    if e.EarlyFill? || (e.Fill? && s.reqs[e.r].curr.Some?) {
      FillCurrShape(s, e.r, e.ok);
    }
  }

  lemma {:induction false} SpliceMoves(s: State, e: Event)
    requires Linked(s) && Enabled(s, e) && e.Splice?
    ensures CurrMoves(s, Next(s, e), e.r)
  {
    hide Linked, Enabled, Next;
    EndIs(s, e);
  }

  lemma {:induction false} HeaderMoves(s: State, e: Event)
    requires Linked(s) && Enabled(s, e) && InHeaders(e)
    ensures CurrMoves(s, Next(s, e), e.r)
  {
    hide Linked, Enabled, Next;
    HeaderRefs(s, e);
  }

  lemma {:induction false} OwnMoves(s: State, e: Event, i: ReqId)
    requires Linked(s) && Enabled(s, e) && StepOf(e, i) && e != Delete(i)
    ensures CurrMoves(s, Next(s, e), i)
  {
    hide Linked, Enabled, Next, CurrMoves;
    if e.EarlyFill? || e.Fill? || e.Tee? {
      LoopMoves(s, e);
    } else if e.Splice? {
      SpliceMoves(s, e);
    } else {
      HeaderMoves(s, e);
    }
  }

  lemma {:induction false} CurrStill(s: State, s': State, i: ReqId)
    requires i in s.reqs && i in s'.reqs && s'.reqs[i] == s.reqs[i]
    ensures CurrMoves(s, s', i)
  {
  }

  lemma {:induction false} AnyMoves(s: State, e: Event, i: ReqId)
    requires Linked(s) && Enabled(s, e) && Active(s, i) && e != Delete(i)
    requires Inv(s)
    ensures CurrMoves(s, Next(s, e), i)
  {
    hide Inv, Linked, Enabled, Next, CurrMoves, StepOf;
    if StepOf(e, i) {
      OwnMoves(s, e, i);
    } else {
      OthersUndisturbed(s, e, i);
      CurrStill(s, Next(s, e), i);
    }
  }

  // ----- no way to hang -----------------------------------------------------------------------

  ghost predicate NoneLocked(s: State, r: ReqId) {
    Active(s, r) && forall k: nat :: !LockedAhead(s, r, k)
  }

  // What the next state may have of `r`: never an earlier chunk.
  ghost predicate MovesOn(q: Req, q': Req) {
    && Serving(q'.phase) && (q.curr.None? ==> q'.curr.None?)
    && (q'.curr.Some? ==> q'.curr.value >= q.curr.value)
  }

  lemma {:induction false} TurnMoves(s: State, e: Event, r: ReqId)
    requires Linked(s) && Enabled(s, e) && Turn(e, r, true)
    ensures r in s.reqs && r in Next(s, e).reqs && MovesOn(s.reqs[r], Next(s, e).reqs[r])
  {
    hide Linked;
  }

  // Somebody's vmsplice blocks or fails.
  predicate Refused(e: Event) {
    (e.EarlyFill? || e.Fill?) && !e.ok
  }

  lemma {:induction false} PipesNewShrinks(s: State, t: Thread, n: nat)
    requires t in s.workers && forall p <- s.workers[t].pipePool :: p in s.pipes
    ensures PipesNew(s, t, n).0.locked <= s.locked
  {
    if n != 0 {
      PipesNewShrinks(s, t, n - 1);
    }
  }

  lemma {:induction false} FileStepShrinks(s: State, e: Event)
    requires Linked(s) && Enabled(s, e) && (e.Access? || e.Create? || e.Reset?)
    ensures Next(s, e).locked <= s.locked
  {
    hide PipesFree, PipesNew;
    LookupIsEntry(s.table, e.uri);
    if e.Create? {
      PipesNewShrinks(s, e.t, 1 + ChunkCount(|e.content|));
    }
  }

  lemma {:induction false} AdmitShrinks(s: State, t: Thread, socket: int, f: FileId)
    requires Linked(s) && t in s.workers && f in s.files
    ensures Admit(s, t, socket, f).0.locked <= s.locked
  {
  }

  lemma {:induction false} SetupShrinks(s: State, e: Event)
    requires Linked(s) && Enabled(s, e) && e.Setup?
    ensures Next(s, e).locked <= s.locked
  {
    hide Admit;
    LookupIsEntry(s.table, e.uri);
    AdmitShrinks(s, e.t, e.socket, Lookup(s.table, e.uri).value);
  }

  // Only a refused fill leaves a lock behind, that of its chunk.
  lemma {:induction false} LocksShrink(s: State, e: Event)
    requires Linked(s) && Enabled(s, e)
    ensures !Refused(e) ==> Next(s, e).locked <= s.locked
    ensures Refused(e) ==>
              e.r in s.reqs && if s.reqs[e.r].curr.Some? then CurrRef(s, e.r) && Next(s, e).locked <= s.locked + {CurrOf(s, e.r)}
                               else Next(s, e).locked <= s.locked
  {
    hide Linked, Enabled, Next, CurrRef;
    if e.Access? || e.Create? || e.Reset? {
      FileStepShrinks(s, e);
    } else if e.Setup? {
      SetupShrinks(s, e);
    } else if e.Delete? {
      DeleteLocks(s, e.r);
    } else if e.EarlyFill? || e.Fill? {
      FillLocks(s, e);
    } else {
      QuietLocks(s, e);
    }
  }

  lemma {:induction false} UnlockedFrame(s: State, s': State, r: ReqId)
    requires NoneLocked(s, r) && Active(s', r) && SameView(s, s', r) && CurrMoves(s, s', r) && s'.locked <= s.locked
    ensures NoneLocked(s', r)
  {
    forall k: nat ensures !LockedAhead(s', r, k) {
      assert !LockedAhead(s, r, k);
    }
  }

  // Whoever takes the step, no chunk ahead of `r` gets locked unless a fill is refused.
  lemma {:induction false} UnlockedStays(s: State, e: Event, r: ReqId)
    requires Linked(s) && Enabled(s, e) && e != Delete(r) && !Refused(e) && NoneLocked(s, r)
    requires Inv(s)
    ensures NoneLocked(Next(s, e), r)
  {
    hide Inv, Linked, Enabled, Next, NoneLocked, SameView, CurrMoves, Refused, LockedAhead;
    UnlockedIs(s, r);
    LocksShrink(s, e);
    AnyMoves(s, e, r);
    KeepsView(s, e, r);
    UnlockedFrame(s, Next(s, e), r);
  }

  lemma {:induction false} UnlockedIs(s: State, r: ReqId)
    requires NoneLocked(s, r)
    ensures Active(s, r)
  {
  }

  lemma {:induction false} NotDeleted(e: Event, r: ReqId)
    requires !StepOf(e, r)
    ensures e != Delete(r)
  {
  }

  lemma {:induction false} NotWaiting(s: State, r: ReqId)
    requires Inv(s) && NoneLocked(s, r)
    ensures !Waits(s, r)
  {
    hide Inv, Stalls;
    if CurrRef(s, r) && (s.reqs[r].phase == Arrived || Serving(s.reqs[r].phase)) {
      StallsAtLocked(s, r);
      assert !LockedAhead(s, r, s.reqs[r].curr.value);
    }
  }

  // ----- when vmsplice may block --------------------------------------------------------------

  // A chunk that still has to go to the client and whose filling can be refused while the loop goes
  // on: one that is locked, one behind the current chunk, or the current one while the request's
  // pipe still holds bytes to send.
  ghost predicate Risky(s: State, r: ReqId, k: nat) {
    && EmptyAhead(s, r, k)
    && (s.files[s.reqs[r].file].chunks[k] in s.locked || k > s.reqs[r].curr.value || BufOf(s, r).filled != 0)
  }

  // vmsplice blocks, the socket takes a byte, and the second fill waits for the lock of the first.
  lemma {:induction false} BlockTurn(s: State, r: ReqId) returns (es: seq<Event>)
    requires Inv(s) && Linked(s) && CurrRef(s, r) && s.reqs[r].phase == Head && LoopGuard(s, r) && !Stalls(s, r)
    requires EmptyAhead(s, r, s.reqs[r].curr.value) && 0 < BufOf(s, r).filled == |BufOf(s, r).data|
    ensures HangsAlone(s, r, true, es)
  {
    hide Inv, Linked, Enabled, FillStep, SpliceStep, Stalls, Waits;
    var s1 := FillStep(s, r, false);
    BlockedFill(s, r, s1);
    var s2 := SpliceStep(s1, r, 1);
    SpliceTurn(s1, r, 1, s2);
    StillAhead(s, s1, r, -1, s.reqs[r].curr.value);
    StillAhead(s1, s2, r, -1, s.reqs[r].curr.value);
    WaitsHere(s2, r);
    es := [Fill(r, false), Splice(r, 1)];
    hide Next, LoopGuard, SameView, Path, After;
    PathTwo(s, Fill(r, false), Splice(r, 1));
  }

  lemma {:induction false} RiskyPath(s: State, r: ReqId, k: nat) returns (es: seq<Event>)
    requires Inv(s) && Linked(s) && r in s.reqs && s.reqs[r].phase == Head && Risky(s, r, k)
    ensures HangsAlone(s, r, true, es)
    decreases k - s.reqs[r].curr.value, BufOf(s, r).filled != 0
  {
    hide Inv, Linked, Waits, Stalls, LoopGuard, Turns, Path, After;
    GuardAhead(s, r, k);
    var j := s.reqs[r].curr.value;
    if Stalls(s, r) {
      es := Stopped(s, r);
    } else if k == j {
      WaitsHere(s, r);
      es := BlockTurn(s, r);
    } else {
      var s', turn;
      if BufOf(s, r).filled != 0 {
        s', turn := DrainTurn(s, r);
      } else {
        s', turn := ChunkTurn(s, r, false);
      }
      StillAhead(s, s', r, j, k);
      var rest := RiskyPath(s', r, k);
      HangsLater(s, r, true, turn, rest);
      es := turn + rest;
    }
  }

  // Every chunk from curr on is full, but perhaps the one at curr: then nothing is left to splice
  // should its filling be refused.
  ghost predicate Calm(s: State, r: ReqId) {
    && Active(s, r) && Serving(s.reqs[r].phase) && ReqRefs(s, r)
    && (forall k: nat :: EmptyAhead(s, r, k) ==>
          && k == s.reqs[r].curr.value && BufOf(s, r).filled == 0
          && (s.reqs[r].phase == Flush || (s.reqs[r].phase == Head && s.files[s.reqs[r].file].chunks[k] !in s.locked)))
  }

  lemma {:induction false} NextFill(s: State, e: Event)
    requires Linked(s) && Enabled(s, e) && e.Fill?
    ensures ReqRefs(s, e.r) && (s.reqs[e.r].curr.Some? ==> CurrRef(s, e.r)) && Next(s, e) == FillStep(s, e.r, e.ok)
    ensures s.reqs[e.r].phase == Head && Turn(e, e.r, true)
  {
    hide FillStep;
  }

  // A fill leaves the request and its pipe alone, but for where it goes on.
  ghost predicate FillView(s: State, s': State, r: ReqId) {
    && ReqRefs(s, r) && r in s'.reqs && s.reqs[r].buf in s'.pipes && s'.pipes[s.reqs[r].buf] == BufOf(s, r)
    && s'.reqs[r] == s.reqs[r].(phase := s'.reqs[r].phase) && s'.reqs[r].phase in {Ready, Flush}
  }

  lemma {:induction false} FillShape(s: State, r: ReqId, ok: bool)
    requires ReqRefs(s, r) && (s.reqs[r].curr.Some? ==> CurrRef(s, r) && CurrOf(s, r) != s.reqs[r].buf)
    ensures FillView(s, FillStep(s, r, ok), r)
  {
  }

  lemma {:induction false} CalmFilled(s: State, s': State, r: ReqId)
    requires Calm(s, r) && s.reqs[r].phase == Head && SameView(s, s', r) && FillView(s, s', r)
    requires s'.reqs[r].phase == Ready ==> CurrRef(s', r) && !EmptyChunk(s', s.reqs[r].file, s.reqs[r].curr.value)
    ensures Calm(s', r)
  {
    forall k: nat | EmptyAhead(s', r, k)
      ensures k == s'.reqs[r].curr.value && BufOf(s', r).filled == 0 && s'.reqs[r].phase == Flush
    {
      assert EmptyAhead(s, r, k);
    }
  }

  lemma {:induction false} CurrIsApart(s: State, r: ReqId)
    requires CurrRef(s, r)
    requires Inv(s)
    ensures CurrOf(s, r) != s.reqs[r].buf
  {
    OwnedHere(s);
    BufferApart(s, r);
    CurrIs(s, r);
  }

  lemma {:induction false} CalmFill(s: State, e: Event, r: ReqId)
    requires Linked(s) && Enabled(s, e) && e.Fill? && e.r == r && Calm(s, r)
    requires Inv(s)
    ensures Calm(Next(s, e), r)
  {
    hide Inv, Linked, Enabled, Next, Turn, Calm, SameView, FillView, FillStep;
    NextFill(s, e);
    if s.reqs[r].curr.Some? {
      CurrIsApart(s, r);
    }
    FillShape(s, r, e.ok);
    TurnKeeps(s, e, r);
    ViewHere(s, Next(s, e), r);
    if Next(s, e).reqs[r].phase == Ready {
      ReadyIsFull(Next(s, e), r);
    }
    CalmFilled(s, Next(s, e), r);
  }

  lemma {:induction false} ViewHere(s: State, s': State, r: ReqId)
    requires SameView(s, s', r) && FillView(s, s', r)
    ensures r in s'.reqs && s'.reqs[r].curr == s.reqs[r].curr && s'.reqs[r].file == s.reqs[r].file
  {
  }

  lemma {:induction false} ReadyIsFull(s: State, r: ReqId)
    requires Inv(s) && r in s.reqs && s.reqs[r].phase == Ready
    ensures CurrRef(s, r) && !EmptyChunk(s, s.reqs[r].file, s.reqs[r].curr.value)
  {
    hide Owned, PipesOk, ListsOk, FilesOk, ContentOk;
    ActiveRefs(s, r);
    var k, content := s.reqs[r].curr.value, FileOf(s, r).content;
    assert ChunkRange(content, k);
    assert |ChunkBytes(content, k)| == Min(PIPE_SIZE, |content| - Span(k));
  }

  lemma {:induction false} CalmMoved(s: State, s': State, r: ReqId)
    requires Calm(s, r) && SameView(s, s', r) && MovesOn(s.reqs[r], s'.reqs[r])
    requires s.reqs[r].phase == Ready || (s.reqs[r].phase == Flush && BufOf(s, r).filled > 0)
    ensures Calm(s', r)
  {
    forall k: nat ensures !EmptyAhead(s', r, k) {
      assert EmptyAhead(s', r, k) ==> EmptyAhead(s, r, k);
    }
  }

  lemma {:induction false} CalmMove(s: State, e: Event, r: ReqId)
    requires Linked(s) && Enabled(s, e) && (e.Tee? || (e.Splice? && e.n > 0)) && e.r == r && Calm(s, r)
    requires Inv(s)
    ensures Calm(Next(s, e), r)
  {
    MoveStarts(s, e, r);
    hide Inv, Linked, Enabled, Next, Turn, Calm, SameView, MovesOn;
    TurnMoves(s, e, r);
    TurnKeeps(s, e, r);
    CalmMoved(s, Next(s, e), r);
  }

  lemma {:induction false} MoveStarts(s: State, e: Event, r: ReqId)
    requires Linked(s) && Enabled(s, e) && (e.Tee? || (e.Splice? && e.n > 0)) && e.r == r
    ensures r in s.reqs && ReqRefs(s, r) && Turn(e, r, true)
    ensures if e.Tee? then s.reqs[r].phase == Ready else s.reqs[r].phase == Flush && BufOf(s, r).filled > 0
  {
    hide Linked;
  }

  lemma {:induction false} TurnKinds(e: Event, r: ReqId)
    requires Turn(e, r, true)
    ensures (e.Fill? || e.Tee? || (e.Splice? && e.n > 0)) && e.r == r
  {
  }

  lemma {:induction false} CalmNotWaiting(s: State, r: ReqId)
    requires Inv(s) && Calm(s, r)
    ensures !Waits(s, r)
  {
    hide Inv, Stalls;
    if CurrRef(s, r) {
      StallsAtLocked(s, r);
      assert EmptyChunk(s, s.reqs[r].file, s.reqs[r].curr.value) ==> EmptyAhead(s, r, s.reqs[r].curr.value);
    }
  }

  lemma {:induction false} HeadIsActive(s: State, r: ReqId)
    requires Inv(s) && r in s.reqs && s.reqs[r].phase == Head
    ensures Active(s, r) && ReqRefs(s, r) && Serving(s.reqs[r].phase)
  {
    hide Inv;
    ActiveInv(s, r);
  }

  // ----- what an unfinished call returns ------------------------------------------------------

  lemma {:induction false} PathOne(s: State, e: Event)
    requires Linked(s) && Enabled(s, e)
    ensures Path(s, [e]) && After(s, [e]) == Next(s, e)
  {
    hide Linked, Enabled, Next;
    assert [e][1..] == [];
    assert Path(Next(s, e), []);
  }

  lemma {:induction false} PathTwo(s: State, e: Event, f: Event)
    requires Linked(s) && Enabled(s, e) && Linked(Next(s, e)) && Enabled(Next(s, e), f)
    ensures Path(s, [e, f]) && After(s, [e, f]) == Next(Next(s, e), f)
  {
    hide Linked, Enabled, Next;
    assert [e, f][1..] == [f];
    PathOne(Next(s, e), f);
  }

  // The fill, whatever curr is.
  lemma {:induction false} AnyFill(s: State, r: ReqId, s': State)
    requires Linked(s) && ReqRefs(s, r) && s.reqs[r].phase == Head && LoopGuard(s, r) && !Waits(s, r)
    requires s' == FillStep(s, r, true) && (s.reqs[r].curr.Some? ==> CurrRef(s, r))
    requires Inv(s)
    ensures Enabled(s, Fill(r, true)) && s' == Next(s, Fill(r, true)) && Inv(s') && Linked(s')
    ensures r in s'.reqs && s'.reqs[r].phase in {Ready, Flush} && s'.reqs[r].bytesToSend == s.reqs[r].bytesToSend
  {
    hide Inv, Linked, Enabled, FillStep, Waits, LoopGuard, FillView, Next, SameView;
    FillPossible(s, r);
    NextFill(s, Fill(r, true));
    if s.reqs[r].curr.Some? {
      CurrIsApart(s, r);
    }
    FillShape(s, r, true);
    TurnKeeps(s, Fill(r, true), r);
    Shaped(s, s', r);
  }

  // The tee, seen from outside.
  lemma {:induction false} AnyTee(s: State, r: ReqId, s': State)
    requires Linked(s) && r in s.reqs && s.reqs[r].phase == Ready
    requires CurrRef(s, r) && s' == TeeStep(s, r, true)
    requires Inv(s)
    ensures Enabled(s, Tee(r, true)) && s' == Next(s, Tee(r, true)) && Inv(s') && Linked(s')
    ensures r in s'.reqs && s'.reqs[r].phase == Flush && s'.reqs[r].bytesToSend == s.reqs[r].bytesToSend
  {
    hide Inv, Linked, Enabled, TeeStep, Next, SameView;
    TeeTurn(s, r, s');
  }

  // Fill, and tee if there is something to tee: the request is about to splice.
  lemma {:induction false} ToSplice(s: State, r: ReqId) returns (s': State, es: seq<Event>)
    requires Linked(s) && ReqRefs(s, r) && s.reqs[r].phase == Head && LoopGuard(s, r) && !Waits(s, r)
    requires Inv(s)
    ensures Path(s, es) && s' == After(s, es) && Turns(es, r, true)
    ensures Inv(s') && Linked(s') && r in s'.reqs && s'.reqs[r].phase == Flush
    ensures s'.reqs[r].bytesToSend == s.reqs[r].bytesToSend
  {
    hide Inv, Linked, Enabled, Next, FillStep, TeeStep, Waits, LoopGuard, Path, After, CurrRef;
    if s.reqs[r].curr.Some? {
      CurrLinked(s, r);
    }
    var s1 := FillStep(s, r, true);
    AnyFill(s, r, s1);
    if s1.reqs[r].phase == Flush {
      s', es := s1, [Fill(r, true)];
      PathOne(s, Fill(r, true));
    } else {
      ReadyIsFull(s1, r);
      s' := TeeStep(s1, r, true);
      AnyTee(s1, r, s');
      es := [Fill(r, true), Tee(r, true)];
      PathTwo(s, Fill(r, true), Tee(r, true));
    }
  }

  lemma {:induction false} Shaped(s: State, s': State, r: ReqId)
    requires FillView(s, s', r)
    ensures r in s.reqs && r in s'.reqs && s'.reqs[r].phase in {Ready, Flush}
    ensures s'.reqs[r].bytesToSend == s.reqs[r].bytesToSend
  {
  }

  lemma {:induction false} CurrLinked(s: State, r: ReqId)
    requires Linked(s) && r in s.reqs && s.reqs[r].phase != Idle && s.reqs[r].curr.Some?
    ensures CurrRef(s, r)
  {
  }

  lemma {:induction false} FillPossible(s: State, r: ReqId)
    requires ReqRefs(s, r) && s.reqs[r].phase == Head && LoopGuard(s, r) && !Waits(s, r)
    ensures Enabled(s, Fill(r, true))
  {
  }
}
