/**
What holds in every run: the protocol's guarantees, whatever the interleaving of requests, resets
and evictions and however the sockets split their writes.
*/
module Runs {
  import opened Options
  import opened TableLog
  import opened CacheState
  import opened Protocol
  import opened Ownership
  import opened Streams
  import opened Steps
  import opened Headers
  import opened Lifecycle
  import opened Requests
  import opened Creation

  // ----- one step -----------------------------------------------------------------------------

  lemma {:induction false} InvLinksLists(s: State)
    requires Owned(s, []) && ListsOk(s)
    ensures forall t <- s.workers ::
              && (forall p <- s.workers[t].pipePool :: p in s.pipes)
              && (forall r <- s.workers[t].reqPool :: r in s.reqs && s.reqs[r].buf in s.pipes && s.reqs[r].home == t)
  {
    hide OwnedBy;
    RefsOwned(s);
    forall t | t in s.workers
      ensures forall p <- s.workers[t].pipePool :: p in s.pipes
      ensures forall r <- s.workers[t].reqPool :: r in s.reqs && s.reqs[r].buf in s.pipes && s.reqs[r].home == t
    {
      PooledApart(s, t);
      assert WorkerOk(s, t);
      forall r | r in s.workers[t].reqPool ensures r in s.reqs && s.reqs[r].buf in s.pipes && s.reqs[r].home == t {
        assert OnList(s, t, r, true);
      }
    }
  }

  lemma {:induction false} InvLinksFiles(s: State)
    requires ContentOk(s)
    ensures forall f <- s.files :: s.files[f].chunks != [] && s.files[f].headers in s.pipes
              && forall p <- s.files[f].chunks :: p in s.pipes
    ensures forall r <- s.reqs :: s.reqs[r].phase != Idle ==> ReqRefs(s, r) && (s.reqs[r].curr.Some? ==> CurrRef(s, r))
  {
    forall f | f in s.files
      ensures s.files[f].chunks != [] && s.files[f].headers in s.pipes && forall p <- s.files[f].chunks :: p in s.pipes
    {
      assert ChunksOk(s, f) && HeadersOk(s, f);
      forall p | p in s.files[f].chunks ensures p in s.pipes {
        var k :| 0 <= k < |s.files[f].chunks| && s.files[f].chunks[k] == p;
      }
    }
    forall r | r in s.reqs && s.reqs[r].phase != Idle
      ensures ReqRefs(s, r) && (s.reqs[r].curr.Some? ==> CurrRef(s, r))
    {
      ActiveRefs(s, r);
    }
  }

  lemma {:induction false} InvLinked(s: State)
    requires Inv(s)
    ensures Linked(s)
  {
    hide Owned, PipesOk, ListsOk, ContentOk;
    InvLinksLists(s);
    InvLinksFiles(s);
  }

  lemma {:induction false} BufferFits(s: State, r: ReqId)
    requires ReqRefs(s, r)
    requires PipesOk(s)
    ensures |BufOf(s, r).data| <= PIPE_SIZE
  {
  }

  lemma {:induction false} FirstChunkPlain(s: State, r: ReqId)
    requires ReqRefs(s, r) && FileOf(s, r).chunks != []
    requires Owned(s, []) && PipesOk(s)
    ensures PlainPipe(s.pipes[FileOf(s, r).chunks[0]]) && FileOf(s, r).headers !in FileOf(s, r).chunks
  {
    hide OwnedBy;
    var p := FileOf(s, r).chunks[0];
    forall f | f in s.files ensures s.files[f].headers != p {
      HeadersApart(s, f);
      assert p in FileOf(s, r).chunks;
    }
    HeadersApart(s, s.reqs[r].file);
  }

  lemma {:induction false} OwnerRefs(s: State, r: ReqId)
    requires Linked(s) && r in s.reqs && s.reqs[r].phase != Idle
    ensures ReqRefs(s, r) && FileOf(s, r).chunks != [] && (s.reqs[r].curr.Some? ==> CurrRef(s, r))
  {
  }

  // What the loop events are, without their dispatch.
  lemma {:induction false} LoopIs(s: State, e: Event)
    requires Linked(s) && Enabled(s, e) && (e.EarlyFill? || e.Fill? || e.Tee?)
    ensures ReqRefs(s, e.r) && (s.reqs[e.r].curr.Some? ==> CurrRef(s, e.r))
    ensures match e
            case EarlyFill(r, ok) => CurrRef(s, r) && s.reqs[r].phase == Arrived && Next(s, e) == EarlyFillStep(s, r, ok)
            case Fill(r, ok) => s.reqs[r].phase == Head && Next(s, e) == FillStep(s, r, ok)
            case Tee(r, ok) => CurrRef(s, r) && s.reqs[r].phase == Ready && Next(s, e) == TeeStep(s, r, ok)
            case _ => true
  {
    hide EarlyFillStep, FillStep, TeeStep, Stalls;
    assert e.r in s.reqs && s.reqs[e.r].phase != Idle;
    OwnerRefs(s, e.r);
  }

  lemma {:induction false} EndIs(s: State, e: Event)
    requires Linked(s) && Enabled(s, e) && (e.Splice? || e.Delete?)
    ensures ReqRefs(s, e.r)
    ensures match e
            case Splice(r, n) => s.reqs[r].phase == Flush && 0 <= n <= |BufOf(s, r).data| && Next(s, e) == SpliceStep(s, r, n)
            case Delete(r) => s.reqs[r].phase == Head && Next(s, e) == ReqDel(s, r)
            case _ => true
  {
    hide SpliceStep, ReqDel;
    assert e.r in s.reqs && s.reqs[e.r].phase != Idle;
    OwnerRefs(s, e.r);
  }

  lemma {:induction false} ServeStepKeeps(s: State, e: Event)
    requires Linked(s) && Enabled(s, e) && (e.EarlyFill? || e.Fill? || e.Tee? || e.Splice? || e.Delete?)
    requires Inv(s)
    ensures Inv(Next(s, e))
  {
    hide Inv, Linked, Enabled, Next, EarlyFillStep, FillStep, TeeStep, SpliceStep, ReqDel, CurrRef;
    match e
    case EarlyFill(r, ok) =>
      LoopIs(s, e);
      PlainCurr(s, r);
      EarlyFillKeeps(s, r, ok, Next(s, e));
    case Fill(r, ok) =>
      LoopIs(s, e);
      if s.reqs[r].curr.Some? {
        PlainCurr(s, r);
      }
      FillKeeps(s, r, ok, Next(s, e));
    case Tee(r, ok) =>
      LoopIs(s, e);
      PlainCurr(s, r);
      TeeKeeps(s, r, ok, Next(s, e));
    case Splice(r, n) =>
      EndIs(s, e);
      PipesHere(s);
      BufferFits(s, r);
      SpliceKeeps(s, r, n, Next(s, e));
    case Delete(r) =>
      EndIs(s, e);
      DeleteKeeps(s, r, Next(s, e));
  }

  lemma {:induction false} PlainCurr(s: State, r: ReqId)
    requires CurrRef(s, r)
    requires Inv(s)
    ensures PlainPipe(s.pipes[CurrOf(s, r)])
  {
    hide Owned, PipesOk;
    ChunkIsPlain(s, r);
  }

  lemma {:induction false} PipesHere(s: State)
    requires Inv(s)
    ensures PipesOk(s) && Owned(s, [])
  {
  }

  lemma {:induction false} HeaderRefs(s: State, e: Event)
    requires Linked(s) && Enabled(s, e) && InHeaders(e)
    ensures e.r in s.reqs && s.reqs[e.r].phase != Idle && ReqRefs(s, e.r) && FileOf(s, e.r).chunks != []
    ensures Next(s, e) == HeaderStep(s, e)
    ensures match e
            case SendHeaders(r, text) =>
              s.reqs[r].phase == Fresh && HeadersOf(s, r).filled == 0 && HeadersFree(s, r) && 0 < |text| <= PIPE_SIZE
            case SkipHeaders(r) => s.reqs[r].phase == Fresh
            case SizeHeaders(r) => s.reqs[r].phase == PubSent
            case ShowHeaders(r) => s.reqs[r].phase == PubSized
            case EmbedChunk(r) => s.reqs[r].phase == PubShown
            case ShowEmbedded(r) => s.reqs[r].phase.PubTeed?
            case SendOwnHeaders(r) => s.reqs[r].phase == Decide
            case TakeHeaders(r) => s.reqs[r].phase == Decide && HeadersOf(s, r).filled != 0
            case _ => true
  {
    hide HeaderStep, HeadersFree;
    assert e.r in s.reqs && s.reqs[e.r].phase != Idle;
    OwnerRefs(s, e.r);
  }

  lemma {:induction false} ChoiceKeeps(s: State, e: Event)
    requires Linked(s) && Enabled(s, e) && (e.SkipHeaders? || e.SendOwnHeaders? || e.TakeHeaders?)
    requires Inv(s)
    ensures Inv(Next(s, e))
  {
    hide Inv, Linked, Enabled, Next, ServeHeaders;
    HeaderRefs(s, e);
    match e
    case SkipHeaders(r) => SkipKeeps(s, r, Next(s, e));
    case SendOwnHeaders(r) => OwnHeadersKeeps(s, r, Next(s, e));
    case TakeHeaders(r) => TakeHeadersKeeps(s, r, Next(s, e));
  }

  lemma {:induction false} WriteKeeps(s: State, e: Event)
    requires Linked(s) && Enabled(s, e) && (e.SendHeaders? || e.SizeHeaders? || e.ShowHeaders?)
    requires Inv(s)
    ensures Inv(Next(s, e))
  {
    hide Inv, Linked, Enabled, Next, WriteHeaders, MeasureHeaders, PublishHeaders, HeadersFree;
    HeaderRefs(s, e);
    match e
    case SendHeaders(r, text) => SendHeadersKeeps(s, r, text, Next(s, e));
    case SizeHeaders(r) => SizeHeadersKeeps(s, r, Next(s, e));
    case ShowHeaders(r) => ShowHeadersKeeps(s, r, Next(s, e));
  }

  lemma {:induction false} HeaderStepKeeps(s: State, e: Event)
    requires Linked(s) && Enabled(s, e) && InHeaders(e)
    requires Inv(s)
    ensures Inv(Next(s, e))
  {
    hide Inv, Linked, Enabled, Next, EmbedFirst, PublishEmbedded;
    HeaderRefs(s, e);
    if e.EmbedChunk? {
      PipesHere(s);
      FirstChunkPlain(s, e.r);
      EmbedKeeps(s, e.r, Next(s, e));
    } else if e.ShowEmbedded? {
      PipesHere(s);
      HeadersApart(s, s.reqs[e.r].file);
      ShowEmbeddedKeeps(s, e.r, Next(s, e));
    } else {
      hide HeaderStep;
      if e.SkipHeaders? || e.SendOwnHeaders? || e.TakeHeaders? {
        ChoiceKeeps(s, e);
      } else {
        WriteKeeps(s, e);
      }
    }
  }

  lemma {:induction false} FileStepKeeps(s: State, e: Event)
    requires Linked(s) && Enabled(s, e) && (e.Access? || e.Create? || e.Reset? || e.Setup?)
    requires Inv(s)
    ensures Inv(Next(s, e))
  {
    hide Owned, PipesOk, ListsOk, FilesOk, ContentOk;
    var s' := Next(s, e);
    LookupIsEntry(s.table, e.uri);
    match e
    case Access(uri, now) => TouchKeeps(s, uri, now, s');
    case Create(t, uri, content, evictable, now) => CreateKeeps(s, t, uri, content, evictable, now, s');
    case Reset(t, uri) => ResetKeeps(s, t, uri, s');
    case Setup(t, socket, uri) =>
      var f := Lookup(s.table, uri).value;
      AdmitKeeps(s, t, socket, f, Admit(s, t, socket, f).1, s');
  }

  lemma {:induction false} StepInv(s: State, e: Event)
    requires Linked(s) && Enabled(s, e)
    requires Inv(s)
    ensures Inv(Next(s, e)) && Linked(Next(s, e))
  {
    hide Inv, Linked;
    if e.Access? || e.Create? || e.Reset? || e.Setup? {
      FileStepKeeps(s, e);
    } else if e.EarlyFill? || e.Fill? || e.Tee? || e.Splice? || e.Delete? {
      ServeStepKeeps(s, e);
    } else {
      HeaderStepKeeps(s, e);
    }
    InvLinked(Next(s, e));
  }

  // ----- runs ---------------------------------------------------------------------------------

  ghost predicate Step(s: State, e: Event, s': State) {
    Linked(s) && Enabled(s, e) && s' == Next(s, e)
  }

  ghost predicate Run(ss: seq<State>, es: seq<Event>) {
    && |ss| == |es| + 1
    && Init(ss[0])
    && forall i :: 0 <= i < |es| ==> Step(ss[i], es[i], ss[i + 1])
  }

  lemma {:induction false} InitInv(s: State)
    requires Init(s)
    ensures Inv(s)
  {
    var owner: map<PipeId, Slot> := map[];
    forall t | t in s.workers ensures PoolOwned(s.workers[t].pipePool, t, owner) && WorkerOk(s, t) {
    }
    assert OwnedBy(s, [], owner);
  }

  lemma {:induction false} RunInv(ss: seq<State>, es: seq<Event>, i: nat)
    requires Run(ss, es) && i < |ss|
    ensures Inv(ss[i])
  {
    hide Inv, Linked, Init;
    if i == 0 {
      InitInv(ss[0]);
    } else {
      RunInv(ss, es, i - 1);
      assert Step(ss[i - 1], es[i - 1], ss[i]);
      StepInv(ss[i - 1], es[i - 1]);
    }
  }
}
