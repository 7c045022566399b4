/**
The guarantees of the protocol, stated over whole runs.
*/
module Guarantees {
  import opened Options
  import opened TableLog
  import opened CacheState
  import opened Protocol
  import opened Ownership
  import opened Streams
  import opened Steps
  import opened Headers
  import opened Lifecycle
  import opened Requests
  import opened Creation
  import opened Runs

  // ----- what a client receives ---------------------------------------------------------------

  // In every run, what has been put on the socket is a prefix of the response (cached headers, if
  // taken, then the file), what waits in the request's pipe are the bytes that follow, and the
  // response is complete exactly when nothing remains to be sent.
  lemma {:induction false} SentIsPrefix(ss: seq<State>, es: seq<Event>, i: nat, r: ReqId)
    requires Run(ss, es) && i < |ss| && r in ss[i].reqs && Serving(ss[i].reqs[r].phase)
    ensures ReqRefs(ss[i], r)
    ensures var q := ss[i].reqs[r];
            var response := Response(ss[i], r);
            && q.sent + BufOf(ss[i], r).data <= response
            && q.bytesToSend == |response| - |q.sent|
            && q.bytesOffset + q.bytesToSend == |FileOf(ss[i], r).content|
            && (q.bytesToSend == 0 <==> q.sent == response)
    ensures 0 <= BufOf(ss[i], r).filled == |BufOf(ss[i], r).data| <= PIPE_SIZE
  {
    hide Inv, Run, Owned, ListsOk, FilesOk, ContentOk;
    RunInv(ss, es, i);
    ServingFacts(ss[i], r);
  }

  lemma {:induction false} ServingFacts(s: State, r: ReqId)
    requires Inv(s) && r in s.reqs && Serving(s.reqs[r].phase)
    ensures ReqRefs(s, r) && ChunksOk(s, s.reqs[r].file) && StreamOk(s, r) && CursorOk(s, r)
    ensures var q := s.reqs[r];
            var response := Response(s, r);
            && q.sent + BufOf(s, r).data <= response
            && (q.bytesToSend == 0 <==> q.sent == response)
            && 0 <= q.bytesToSend <= |FileOf(s, r).content| + PIPE_SIZE
    ensures 0 <= BufOf(s, r).filled == |BufOf(s, r).data| <= PIPE_SIZE
  {
    hide Owned, PipesOk, ListsOk, FilesOk, ContentOk;
    ActiveRefs(s, r);
    BufferFits(s, r);
    assert |FileOf(s, r).published| <= PIPE_SIZE by {
      assert HeadersOk(s, s.reqs[r].file);
    }
    assert |Response(s, r)| <= |FileOf(s, r).content| + PIPE_SIZE;
    var q := s.reqs[r];
    assert q.sent <= Response(s, r);
  }

  // The while condition of the serve loop says just that bytes remain: the request never runs out
  // of chunks early.
  lemma {:induction false} GuardMeansUnsent(s: State, r: ReqId)
    requires Inv(s) && r in s.reqs && Serving(s.reqs[r].phase)
    ensures ReqRefs(s, r) && (LoopGuard(s, r) <==> s.reqs[r].sent != Response(s, r))
  {
    hide Inv;
    ServingFacts(s, r);
  }

  // A request that took the embedded body never tees the chunk it still points at.
  lemma {:induction false} EmbeddedNeverTeed(s: State, r: ReqId, ok: bool)
    requires Inv(s) && r in s.reqs && s.reqs[r].phase == Head && CurrRef(s, r)
    requires s.reqs[r].cached && FillOffset(s, r) == |FileOf(s, r).content|
    ensures FillCurr(s, r, ok) == (s, -|FileOf(s, r).content|) && FillStep(s, r, ok).reqs[r].phase == Flush
    ensures |FileOf(s, r).chunks| == 1 && Complete(s, s.reqs[r].file, 0)
  {
    hide Owned, ListsOk, FilesOk, ContentOk;
    ActiveRefs(s, r);
    ChunkIsPlain(s, r);
    var content := FileOf(s, r).content;
    var k := s.reqs[r].curr.value;
    assert ChunkRange(content, k);
  }

  // ----- shared chunks ------------------------------------------------------------------------

  // In every run chunk k of a file is empty or exactly bytes k*cap..min((k+1)*cap, size) of it,
  // and there are as many chunks as the size needs.
  lemma {:induction false} ChunksHoldFile(ss: seq<State>, es: seq<Event>, i: nat, f: FileId)
    requires Run(ss, es) && i < |ss| && f in ss[i].files
    ensures var file := ss[i].files[f];
            && Span(|file.chunks| - 1) < |file.content| <= Span(|file.chunks|)
            && forall k :: 0 <= k < |file.chunks| ==>
                 file.chunks[k] in ss[i].pipes
                 && (ss[i].pipes[file.chunks[k]] == EMPTY_PIPE
                     || (Span(k) <= |file.content|
                         && ss[i].pipes[file.chunks[k]] == Pipe(ChunkBytes(file.content, k), |ChunkBytes(file.content, k)|)))
  {
    hide Run;
    RunInv(ss, es, i);
    ChunksPlain(ss[i], f);
  }

  lemma {:induction false} ChunksPlain(s: State, f: FileId)
    requires Inv(s) && f in s.files
    ensures ChunksOk(s, f)
    ensures forall k :: 0 <= k < |s.files[f].chunks| ==>
              s.files[f].chunks[k] in s.pipes && PlainPipe(s.pipes[s.files[f].chunks[k]])
  {
    hide Owned, ListsOk, FilesOk;
    assert ChunksOk(s, f);
    forall k | 0 <= k < |s.files[f].chunks| ensures PlainPipe(s.pipes[s.files[f].chunks[k]]) {
      var p := s.files[f].chunks[k];
      forall g | g in s.files ensures s.files[g].headers != p {
        HeadersApart(s, g);
        assert p in s.files[f].chunks;
      }
    }
  }

  // ----- the life of a file -------------------------------------------------------------------

  // In every run: the count is the number of live requests; a file exists exactly while it is in
  // the table or some live request is on it; each file is freed at most once, and never in use.
  lemma {:induction false} FileLifetime(ss: seq<State>, es: seq<Event>, i: nat, f: FileId)
    requires Run(ss, es) && i < |ss| && f < ss[i].nextFile
    ensures var s := ss[i];
            && (f in s.files ==> s.files[f].pending == |LiveOn(s, f)|)
            && (f in s.files <==> (exists uri :: Entry(uri, f) in s.table) || LiveOn(s, f) != {})
            && multiset(s.freed)[f] == (if f in s.files then 0 else 1)
            && UniqueKeys(s.table)
  {
    hide Run, Inv;
    RunInv(ss, es, i);
    LifeFacts(ss[i], f);
  }

  lemma {:induction false} LifeFacts(s: State, f: FileId)
    requires Inv(s) && f < s.nextFile
    ensures && (f in s.files ==> s.files[f].pending == |LiveOn(s, f)|)
            && (f in s.files <==> (exists uri :: Entry(uri, f) in s.table) || LiveOn(s, f) != {})
            && multiset(s.freed)[f] == (if f in s.files then 0 else 1)
            && UniqueKeys(s.table)
  {
    hide Owned, PipesOk, ListsOk, ContentOk;
    if f in s.files {
      assert FileCounted(s, f);
    }
    forall uri | Entry(uri, f) in s.table ensures f in s.files {
    }
    if r :| r in LiveOn(s, f) {
      assert f in s.files;
    }
    Occurrences(s.freed, f);
  }

  lemma {:induction false} Occurrences<T(!new)>(s: seq<T>, x: T)
    requires NoDup(s)
    ensures multiset(s)[x] == if x in s then 1 else 0
  {
    if s != [] {
      NoDupTail(s);
      Occurrences(s[1..], x);
      assert s == [s[0]] + s[1..];
      assert x in s <==> x == s[0] || x in s[1..];
    }
  }

  // ----- pipes and memory ---------------------------------------------------------------------

  // In every run each live pipe is referred to from exactly one place, every place refers to a
  // live pipe, and the memory counter is PIPE_SIZE for each of them.
  lemma {:induction false} OneOwner(ss: seq<State>, es: seq<Event>, i: nat)
    requires Run(ss, es) && i < |ss|
    ensures forall p <- ss[i].pipes :: exists slot :: Holds(ss[i], [], slot, p)
    ensures forall slot, p :: Holds(ss[i], [], slot, p) ==> p in ss[i].pipes
    ensures forall x, y, p :: Holds(ss[i], [], x, p) && Holds(ss[i], [], y, p) ==> x == y
    ensures forall t <- ss[i].workers :: NoDup(ss[i].workers[t].pipePool)
    ensures ss[i].memUsed == PIPE_SIZE * |ss[i].pipes|
    ensures forall t <- ss[i].workers ::
              |ss[i].workers[t].pipePool| <= PIPE_BUF_POOL_MAX && |ss[i].workers[t].reqPool| <= CACHE_REQ_POOL_MAX
  {
    hide Run, ContentOk, FilesOk, Holds;
    RunInv(ss, es, i);
    var s := ss[i];
    var owner :| OwnedBy(s, [], owner);
    forall slot, p | Holds(s, [], slot, p) ensures OwnerIs(owner, p, slot) {
      HoldsIsOwner(s, owner, slot, p);
    }
    forall t | t in s.workers ensures NoDup(s.workers[t].pipePool) && |s.workers[t].reqPool| <= CACHE_REQ_POOL_MAX {
      assert PoolOwned(s.workers[t].pipePool, t, owner) && WorkerOk(s, t);
    }
  }

  lemma {:induction false} HoldsIsOwner(s: State, owner: map<PipeId, Slot>, slot: Slot, p: PipeId)
    requires OwnedBy(s, [], owner) && Holds(s, [], slot, p)
    ensures OwnerIs(owner, p, slot)
  {
    match slot
    case HeaderOf(f) => assert FileOwned(s.files[f], f, owner);
    case ChunkOf(f, k) => assert FileOwned(s.files[f], f, owner);
    case BufferOf(r) =>
    case PooledBy(t) => assert PoolOwned(s.workers[t].pipePool, t, owner);
    case InHand =>
  }

  // ----- the shared headers -------------------------------------------------------------------

  // Whatever the publisher has reached, a request that sees `filled` non-zero takes the headers,
  // or the headers and the whole one-chunk file.
  lemma {:induction false} ReaderTakesWhole(ss: seq<State>, es: seq<Event>, i: nat, r: ReqId)
    requires Run(ss, es) && i < |ss| && Enabled(ss[i], TakeHeaders(r))
    ensures ReqRefs(ss[i], r)
    ensures var file, taken := FileOf(ss[i], r), Teed(HeadersOf(ss[i], r), HeadersOf(ss[i], r).filled);
            && file.headerLen == |file.published| > 0
            && (taken == file.published || (taken == file.published + file.content && |file.chunks| == 1))
  {
    hide Run, Owned, PipesOk, ListsOk, FilesOk, ContentOk;
    RunInv(ss, es, i);
    ActiveRefs(ss[i], r);
    HeadersTaken(ss[i], r);
  }
}
