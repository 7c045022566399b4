/**
What a step cannot disturb: the requests of others, a response once it is fixed, and a chunk once
it is filled.
*/
module Stability {
  import opened Options
  import opened TableLog
  import opened CacheState
  import opened Protocol
  import opened Ownership
  import opened Streams
  import opened Steps
  import opened Headers
  import opened Lifecycle
  import opened Requests
  import opened Creation
  import opened Runs

  // Event `e` is a step of the handler of request `r`.
  predicate StepOf(e: Event, r: ReqId) {
    !e.Access? && !e.Create? && !e.Reset? && !e.Setup? && e.r == r
  }

  ghost predicate Active(s: State, r: ReqId) {
    r in s.reqs && s.reqs[r].phase != Idle
  }

  // ----- what one step of a handler can change ------------------------------------------------

  // The file keeps its name, its bytes and its pipes, and headers once published stay.
  ghost predicate FileFixed(x: File, y: File) {
    && y.uri == x.uri && y.content == x.content && y.chunks == x.chunks && y.headers == x.headers
    && y.evictable == x.evictable && (x.published != [] ==> y.published == x.published)
  }

  // ... and, unless somebody asks for it, its stamp.
  ghost predicate FileSame(x: File, y: File) {
    FileFixed(x, y) && y.lastAccessed == x.lastAccessed
  }

  ghost predicate ReqAdvances(q: Req, q': Req) {
    && q'.file == q.file && q'.home == q.home && q'.socket == q.socket && q'.buf == q.buf && q'.phase != Idle
    && q.sent <= q'.sent && (q.cached ==> q'.cached)
    && (Serving(q.phase) ==> Serving(q'.phase) && q'.cached == q.cached)
  }

  // A step of the handler of `r`: of requests only `r` changes, of files only its file.
  ghost predicate HandlerStep(s: State, s': State, r: ReqId) {
    && ReqRefs(s, r) && s.reqs[r].phase != Idle && r in s'.reqs && s.reqs[r].file in s'.files
    && s'.reqs == s.reqs[r := s'.reqs[r]] && ReqAdvances(s.reqs[r], s'.reqs[r])
    && s'.files == s.files[s.reqs[r].file := s'.files[s.reqs[r].file]]
    && s'.pipes.Keys == s.pipes.Keys
  }

  predicate InLoop(e: Event) {
    e.EarlyFill? || e.Fill? || e.Tee? || e.Splice?
  }

  // Publication writes the header pipe and the request's own.
  ghost predicate HeaderStepShape(s: State, s': State, r: ReqId) {
    && HandlerStep(s, s', r) && s'.locked == s.locked && s'.files[s.reqs[r].file].chunks == FileOf(s, r).chunks
    && forall p <- s.pipes :: p != FileOf(s, r).headers && p != s.reqs[r].buf ==> s'.pipes[p] == s.pipes[p]
  }

  lemma {:induction false} StayShape(s: State, e: Event)
    requires Linked(s) && Enabled(s, e) && (e.SkipHeaders? || e.SendOwnHeaders?)
    ensures HeaderStepShape(s, Next(s, e), e.r) && Next(s, e).files == s.files
  {
    hide Linked, Enabled, Next;
    HeaderRefs(s, e);
  }

  lemma {:induction false} TakeShape(s: State, e: Event)
    requires Linked(s) && Enabled(s, e) && e.TakeHeaders?
    ensures HeaderStepShape(s, Next(s, e), e.r) && Next(s, e).files == s.files
  {
    hide Linked, Enabled, Next;
    HeaderRefs(s, e);
  }

  lemma {:induction false} WriteShape(s: State, e: Event)
    requires Linked(s) && Enabled(s, e) && e.SendHeaders?
    ensures HeaderStepShape(s, Next(s, e), e.r)
    ensures FileOf(s, e.r).published == [] ==> FileSame(FileOf(s, e.r), Next(s, e).files[s.reqs[e.r].file])
  {
    hide Linked, Enabled, Next;
    HeaderRefs(s, e);
  }

  lemma {:induction false} CountShape(s: State, e: Event)
    requires Linked(s) && Enabled(s, e) && (e.SizeHeaders? || e.ShowHeaders?)
    ensures HeaderStepShape(s, Next(s, e), e.r) && FileSame(FileOf(s, e.r), Next(s, e).files[s.reqs[e.r].file])
  {
    hide Linked, Enabled, Next;
    HeaderRefs(s, e);
  }

  lemma {:induction false} EmbedShape(s: State, e: Event)
    requires Linked(s) && Enabled(s, e) && e.EmbedChunk?
    ensures HeaderStepShape(s, Next(s, e), e.r) && FileSame(FileOf(s, e.r), Next(s, e).files[s.reqs[e.r].file])
  {
    hide Linked, Enabled, Next;
    HeaderRefs(s, e);
  }

  lemma {:induction false} EmbeddedShape(s: State, e: Event)
    requires Linked(s) && Enabled(s, e) && e.ShowEmbedded?
    ensures HeaderStepShape(s, Next(s, e), e.r) && FileSame(FileOf(s, e.r), Next(s, e).files[s.reqs[e.r].file])
  {
    hide Linked, Enabled, Next;
    HeaderRefs(s, e);
  }

  lemma {:induction false} HeaderShape(s: State, e: Event)
    requires Linked(s) && Enabled(s, e) && InHeaders(e)
    ensures HeaderStepShape(s, Next(s, e), e.r)
    ensures FileOf(s, e.r).published == [] || !e.SendHeaders? ==>
              FileSame(FileOf(s, e.r), Next(s, e).files[s.reqs[e.r].file])
  {
    hide Linked, Enabled, Next;
    if e.SkipHeaders? || e.SendOwnHeaders? {
      StayShape(s, e);
    } else if e.TakeHeaders? {
      TakeShape(s, e);
    } else if e.EmbedChunk? {
      EmbedShape(s, e);
    } else if e.ShowEmbedded? {
      EmbeddedShape(s, e);
    } else if e.SendHeaders? {
      WriteShape(s, e);
    } else {
      CountShape(s, e);
    }
  }

  // The loop leaves the files alone; the tee and the splice write the request's pipe.
  lemma {:induction false} TeeShape(s: State, e: Event)
    requires Linked(s) && Enabled(s, e) && e.Tee?
    ensures HandlerStep(s, Next(s, e), e.r) && Next(s, e).files == s.files && Next(s, e).locked == s.locked
    ensures forall p <- s.pipes :: p != s.reqs[e.r].buf ==> Next(s, e).pipes[p] == s.pipes[p]
  {
    hide Linked, Enabled, Next;
    LoopIs(s, e);
  }

  lemma {:induction false} MoveShape(s: State, e: Event)
    requires Linked(s) && Enabled(s, e) && (e.Tee? || e.Splice?)
    ensures HandlerStep(s, Next(s, e), e.r) && Next(s, e).files == s.files && Next(s, e).locked == s.locked
    ensures forall p <- s.pipes :: p != s.reqs[e.r].buf ==> Next(s, e).pipes[p] == s.pipes[p]
  {
    hide Linked, Enabled, Next;
    if e.Tee? {
      hide HandlerStep;
      TeeShape(s, e);
    } else {
      EndIs(s, e);
    }
  }

  // A fill changes no more than its chunk and that chunk's lock.
  lemma {:induction false} FillCurrShape(s: State, r: ReqId, ok: bool)
    requires CurrRef(s, r)
    ensures var s1 := FillCurr(s, r, ok).0;
            s1 == s.(pipes := s1.pipes, locked := s1.locked) && s1.pipes.Keys == s.pipes.Keys
  {
  }

  lemma {:induction false} FillShapes(s: State, e: Event)
    requires Linked(s) && Enabled(s, e) && e.Fill?
    ensures HandlerStep(s, Next(s, e), e.r) && Next(s, e).files == s.files
  {
    hide Linked, Enabled, Next, FillCurr, CurrRef;
    LoopIs(s, e);
    if s.reqs[e.r].curr.Some? {
      FillCurrShape(s, e.r, e.ok);
    }
  }

  lemma {:induction false} EarlyShape(s: State, e: Event)
    requires Linked(s) && Enabled(s, e) && e.EarlyFill?
    ensures HandlerStep(s, Next(s, e), e.r) && Next(s, e).files == s.files
  {
    hide Linked, Enabled, Next, FillCurr, CurrRef;
    LoopIs(s, e);
    FillCurrShape(s, e.r, e.ok);
  }

  lemma {:induction false} HandlerShape(s: State, e: Event)
    requires Linked(s) && Enabled(s, e) && (InHeaders(e) || InLoop(e))
    ensures HandlerStep(s, Next(s, e), e.r)
  {
    hide Linked, Enabled, Next, HandlerStep;
    if InHeaders(e) {
      HeaderShape(s, e);
      assert HeaderStepShape(s, Next(s, e), e.r);
    } else if e.Tee? || e.Splice? {
      MoveShape(s, e);
    } else if e.Fill? {
      FillShapes(s, e);
    } else {
      EarlyShape(s, e);
    }
  }

  // ----- requests of others -------------------------------------------------------------------

  lemma {:induction false} FreeKeepsReqs(s: State, t: Thread, f: FileId)
    requires t in s.workers && f in s.files
    ensures FileFree(s, t, f).reqs == s.reqs && FileFree(s, t, f).files == s.files - {f}
  {
    hide PipesFree;
  }

  lemma {:induction false} OthersUndisturbed(s: State, e: Event, r: ReqId)
    requires Linked(s) && Enabled(s, e) && Active(s, r) && !StepOf(e, r)
    requires Inv(s)
    ensures Active(Next(s, e), r) && Next(s, e).reqs[r] == s.reqs[r]
  {
    hide Owned, PipesOk, FilesOk, ContentOk, FileFree, PipesNew, Linked;
    if e.Reset? {
      ResetKeepsReqs(s, e.t, e.uri);
    } else if e.Setup? {
      SetupKeepsReq(s, e, r);
    } else if e.Delete? {
      DeleteKeepsReq(s, e.r, r);
    } else if e.Access? || e.Create? {
    } else {
      HandlerKeepsReq(s, e, r);
    }
  }

  lemma {:induction false} HandlerKeepsReq(s: State, e: Event, r: ReqId)
    requires Linked(s) && Enabled(s, e) && Active(s, r) && !StepOf(e, r) && (InHeaders(e) || InLoop(e))
    ensures Active(Next(s, e), r) && Next(s, e).reqs[r] == s.reqs[r]
  {
    hide Linked, Enabled, Next;
    HandlerShape(s, e);
  }

  lemma {:induction false} ResetKeepsReqs(s: State, t: Thread, uri: Uri)
    requires Linked(s) && Enabled(s, Reset(t, uri))
    ensures Next(s, Reset(t, uri)).reqs == s.reqs
  {
    hide PipesFree;
    LookupIsEntry(s.table, uri);
  }

  lemma {:induction false} SetupShape(s: State, e: Event) returns (f: FileId, i: ReqId)
    requires Linked(s) && Enabled(s, e) && e.Setup?
    requires Inv(s)
    ensures Lookup(s.table, e.uri) == Some(f)
    ensures Admitted(s, e.t, e.socket, f, i, Next(s, e)) && (i in s.reqs ==> s.reqs[i].phase == Idle)
  {
    hide Owned, PipesOk, ListsOk, FilesOk, ContentOk, Admit;
    LookupIsEntry(s.table, e.uri);
    f := Lookup(s.table, e.uri).value;
    i := Admit(s, e.t, e.socket, f).1;
    hide Linked;
    AdmitKeeps(s, e.t, e.socket, f, i, Next(s, e));
    PooledIdle(s, e.t, i);
  }

  lemma {:induction false} SetupKeepsReq(s: State, e: Event, r: ReqId)
    requires Linked(s) && Enabled(s, e) && e.Setup? && Active(s, r)
    requires Inv(s)
    ensures Active(Next(s, e), r) && Next(s, e).reqs[r] == s.reqs[r]
  {
    hide Inv, Linked, Next, Enabled;
    var f, i := SetupShape(s, e);
  }

  lemma {:induction false} DeleteKeepsReq(s: State, i: ReqId, r: ReqId)
    requires Linked(s) && Enabled(s, Delete(i)) && Active(s, r) && i != r
    ensures Active(Next(s, Delete(i)), r) && Next(s, Delete(i)).reqs[r] == s.reqs[r]
  {
    hide PipesFree;
  }

  // ----- the table ----------------------------------------------------------------------------

  lemma {:induction false} LookupTail(table: seq<Entry<FileId>>, e: Entry<FileId>, key: Uri)
    ensures Lookup([e] + table, key) == if e.key == key then Some(e.val) else Lookup(table, key)
  {
    assert ([e] + table)[1..] == table;
  }

  lemma {:induction false} CreateLists(s: State, e: Event)
    requires Linked(s) && Enabled(s, e) && e.Create?
    ensures Next(s, e).table == [Entry(e.uri, s.nextFile)] + s.table && Next(s, e).workers.Keys == s.workers.Keys
  {
    hide Linked, PipesNew;
  }

  lemma {:induction false} ResetLists(s: State, e: Event)
    requires Linked(s) && Enabled(s, e) && e.Reset?
    ensures Next(s, e).table == (if Lookup(s.table, e.uri).None? then s.table else Drop(s.table, e.uri))
    ensures Next(s, e).workers.Keys == s.workers.Keys
  {
    hide PipesFree, Drop, Lookup;
    LookupIsEntry(s.table, e.uri);
  }

  lemma {:induction false} ParkLists(s: State, r: ReqId)
    requires r in s.reqs && s.reqs[r].home in s.workers
    ensures ReqPark(s, r).table == s.table && ReqPark(s, r).workers.Keys == s.workers.Keys
  {
  }

  lemma {:induction false} ReleaseLists(s: State, t: Thread, f: FileId)
    requires t in s.workers && f in s.files
    ensures Release(s, t, f).table == s.table && Release(s, t, f).workers.Keys == s.workers.Keys
  {
    hide PipesFree;
  }

  lemma {:induction false} DeleteLists(s: State, r: ReqId)
    requires Linked(s) && Enabled(s, Delete(r))
    ensures Next(s, Delete(r)).table == s.table && Next(s, Delete(r)).workers.Keys == s.workers.Keys
  {
    hide Linked, Enabled, ReqRefs, ReqPark, Release;
    DeleteRefs(s, r);
    var q := s.reqs[r];
    var w := s.workers[q.home];
    var s1 := s.(workers := s.workers[q.home := w.(live := Remove(w.live, r))], reqs := s.reqs[r := q.(phase := Idle)]);
    ReleaseLists(s1, q.home, q.file);
    ParkLists(Release(s1, q.home, q.file), r);
  }

  lemma {:induction false} LoopLists(s: State, e: Event)
    requires Linked(s) && Enabled(s, e) && (InLoop(e) || e.Access?)
    ensures Next(s, e).table == s.table && Next(s, e).workers == s.workers
  {
    hide Linked, Enabled, Next, FillCurr;
    if e.Access? {
      AccessLists(s, e);
    } else if e.Splice? {
      EndIs(s, e);
    } else {
      LoopIs(s, e);
      if e.EarlyFill? || (e.Fill? && s.reqs[e.r].curr.Some?) {
        FillCurrShape(s, e.r, e.ok);
      }
    }
  }

  lemma {:induction false} AccessLists(s: State, e: Event)
    requires Linked(s) && Enabled(s, e) && e.Access?
    ensures Next(s, e).table == s.table && Next(s, e).workers == s.workers
  {
    hide Linked;
  }

  lemma {:induction false} HeaderLists(s: State, e: Event)
    requires Linked(s) && Enabled(s, e) && InHeaders(e)
    ensures Next(s, e).table == s.table && Next(s, e).workers == s.workers
  {
    hide Linked, Enabled, Next;
    HeaderRefs(s, e);
  }

  // Threads neither come nor go, and the table changes where a file is made or reset.
  lemma {:induction false} TableStep(s: State, e: Event)
    requires Linked(s) && Enabled(s, e)
    requires Inv(s)
    ensures Next(s, e).workers.Keys == s.workers.Keys
    ensures Next(s, e).table
            == if e.Create? then [Entry(e.uri, s.nextFile)] + s.table
               else if e.Reset? && Lookup(s.table, e.uri).Some? then Drop(s.table, e.uri)
               else s.table
  {
    hide Inv, Linked, Enabled, Next, Lookup, Drop;
    if e.Create? {
      CreateLists(s, e);
    } else if e.Reset? {
      ResetLists(s, e);
    } else if e.Setup? {
      var g, i := SetupShape(s, e);
    } else if e.Delete? {
      DeleteLists(s, e.r);
    } else if InHeaders(e) {
      HeaderLists(s, e);
    } else {
      LoopLists(s, e);
    }
  }

  lemma {:induction false} TableUnique(s: State)
    requires Inv(s)
    ensures UniqueKeys(s.table)
  {
    hide Owned, PipesOk, ListsOk, ContentOk;
  }

  lemma {:induction false} EntryFound(table: seq<Entry<FileId>>, e: Entry<FileId>)
    requires UniqueKeys(table) && e in table
    ensures Lookup(table, e.key) == Some(e.val)
  {
    LookupIsEntry(table, e.key);
  }

  lemma {:induction false} DroppedListing(s: State, dropped: Uri, uri: Uri, f: FileId)
    requires Lookup(Drop(s.table, dropped), uri) == Some(f)
    requires Inv(s)
    ensures Lookup(s.table, uri) == Some(f)
  {
    hide Inv, Drop, Lookup, UniqueKeys;
    TableUnique(s);
    TableAfterDrop(s.table, dropped);
    LookupIsEntry(Drop(s.table, dropped), uri);
    EntryFound(s.table, Entry(uri, f));
  }

  lemma {:induction false} KeptListing(s: State, dropped: Uri, uri: Uri, f: FileId)
    requires Lookup(s.table, uri) == Some(f) && dropped != uri
    requires Inv(s)
    ensures Lookup(Drop(s.table, dropped), uri) == Some(f)
  {
    hide Inv, Drop, Lookup, UniqueKeys;
    TableUnique(s);
    TableAfterDrop(s.table, dropped);
    LookupIsEntry(s.table, uri);
    EntryFound(Drop(s.table, dropped), Entry(uri, f));
  }

  // A file that is not in the table does not come back.
  lemma {:induction false} ListedBefore(s: State, e: Event, uri: Uri, f: FileId)
    requires Linked(s) && Enabled(s, e) && f in s.files && Lookup(Next(s, e).table, uri) == Some(f)
    requires Inv(s)
    ensures Lookup(s.table, uri) == Some(f) && Next(s, e).workers.Keys == s.workers.Keys
  {
    hide Inv, Linked, Enabled, Next, Lookup, Drop;
    TableStep(s, e);
    if e.Create? {
      NewFileId(s);
      LookupTail(s.table, Entry(e.uri, s.nextFile), uri);
    } else if e.Reset? && Lookup(s.table, e.uri).Some? {
      DroppedListing(s, e.uri, uri, f);
    }
  }

  // Only a reset of its uri takes a file out of the table, and only a request for it changes its stamp.
  lemma {:induction false} ListedStays(s: State, e: Event, uri: Uri, f: FileId)
    requires Linked(s) && Enabled(s, e) && Lookup(s.table, uri) == Some(f) && !(e.Reset? && e.uri == uri)
    requires Inv(s)
    ensures f in s.files && f in Next(s, e).files && Lookup(Next(s, e).table, uri) == Some(f)
    ensures !AsksFor(e, uri) ==> Next(s, e).files[f].lastAccessed == s.files[f].lastAccessed
  {
    CreatesUnlisted(s, e);
    hide Inv, Linked, Enabled, Next, Lookup, Drop, FileFixed, AsksFor;
    TableStep(s, e);
    if e.Create? {
      LookupTail(s.table, Entry(e.uri, s.nextFile), uri);
    } else if e.Reset? && Lookup(s.table, e.uri).Some? {
      KeptListing(s, e.uri, uri, f);
    }
    StepInv(s, e);
    ListedFile(s, uri, f);
    ListedFile(Next(s, e), uri, f);
    FilesFixed(s, e, f);
  }

  lemma {:induction false} CreatesUnlisted(s: State, e: Event)
    requires Enabled(s, e)
    ensures e.Create? ==> Lookup(s.table, e.uri).None?
  {
  }

  // In every run: a listed file that nobody asks for or resets is still listed later, with its stamp.
  lemma {:induction false} RunListed(ss: seq<State>, es: seq<Event>, i: nat, j: nat, uri: Uri, f: FileId)
    requires Run(ss, es) && i <= j < |ss| && Lookup(ss[i].table, uri) == Some(f)
    requires forall k :: i <= k < j ==> !AsksFor(es[k], uri) && !(es[k].Reset? && es[k].uri == uri)
    ensures f in ss[i].files && f in ss[j].files && Lookup(ss[j].table, uri) == Some(f)
    ensures ss[j].files[f].lastAccessed == ss[i].files[f].lastAccessed
    decreases j - i
  {
    hide Inv, Linked, Init, Enabled, Next, Lookup, AsksFor;
    RunInv(ss, es, i);
    if i == j {
      ListedFile(ss[i], uri, f);
    } else {
      assert Step(ss[i], es[i], ss[i + 1]);
      ListedStays(ss[i], es[i], uri, f);
      RunListed(ss, es, i + 1, j, uri, f);
    }
  }

  // ----- responses ----------------------------------------------------------------------------

  // The event asks for the file under this uri.
  predicate AsksFor(e: Event, uri: Uri) {
    e.Access? && e.uri == uri
  }

  lemma {:induction false} FilesFixed(s: State, e: Event, f: FileId)
    requires Linked(s) && Enabled(s, e) && f in s.files && f in Next(s, e).files
    requires Inv(s)
    ensures FileFixed(s.files[f], Next(s, e).files[f])
    ensures !AsksFor(e, s.files[f].uri) ==> Next(s, e).files[f].lastAccessed == s.files[f].lastAccessed
  {
    hide Inv, Linked, Enabled, Next, FileFixed, Lookup;
    if e.Create? {
      NewFileId(s);
      CreateFilesFixed(s, e, f);
    } else if e.Setup? {
      SetupFilesFixed(s, e, f);
    } else if e.Access? || e.Reset? {
      if Lookup(s.table, e.uri) == Some(f) {
        ListedFile(s, e.uri, f);
      }
      TableFilesFixed(s, e, f);
    } else if e.Delete? {
      DeleteFilesFixed(s, e.r, f);
    } else {
      if e.SendHeaders? {
        NothingPublished(s, e);
      }
      HandlerFilesFixed(s, e, f);
    }
  }

  lemma {:induction false} ListedFile(s: State, uri: Uri, f: FileId)
    requires Lookup(s.table, uri) == Some(f)
    requires Inv(s)
    ensures f in s.files && s.files[f].uri == uri
  {
    hide Owned, PipesOk, ListsOk, ContentOk;
    LookupIsEntry(s.table, uri);
  }

  // In every run: over a stretch in which nobody asks for a file its stamp does not change.
  lemma {:induction false} RunStamp(ss: seq<State>, es: seq<Event>, i: nat, j: nat, f: FileId)
    requires Run(ss, es) && i <= j < |ss| && forall k :: i <= k <= j ==> f in ss[k].files
    requires forall k :: i <= k < j ==> !AsksFor(es[k], ss[i].files[f].uri)
    ensures ss[j].files[f].lastAccessed == ss[i].files[f].lastAccessed && ss[j].files[f].uri == ss[i].files[f].uri
    decreases j - i
  {
    hide Inv, Linked, Init, Enabled, Next;
    if i < j {
      RunInv(ss, es, i);
      assert Step(ss[i], es[i], ss[i + 1]);
      FilesFixed(ss[i], es[i], f);
      RunStamp(ss, es, i + 1, j, f);
    }
  }

  lemma {:induction false} NewFileId(s: State)
    requires Inv(s)
    ensures s.nextFile !in s.files
  {
    hide Owned, PipesOk, ListsOk, ContentOk;
    FreshFile(s);
  }

  // Headers are written only while there are none.
  lemma {:induction false} NothingPublished(s: State, e: Event)
    requires Enabled(s, e) && e.SendHeaders?
    requires Inv(s)
    ensures ReqRefs(s, e.r) && FileOf(s, e.r).published == []
  {
    hide Owned, PipesOk, ListsOk, FilesOk, ContentOk;
    ActiveRefs(s, e.r);
  }

  lemma {:induction false} CreateFilesFixed(s: State, e: Event, f: FileId)
    requires Linked(s) && Enabled(s, e) && e.Create? && f in s.files && s.nextFile !in s.files
    ensures f in Next(s, e).files && FileSame(s.files[f], Next(s, e).files[f])
  {
    hide PipesNew;
  }

  lemma {:induction false} HandlerFilesFixed(s: State, e: Event, f: FileId)
    requires Linked(s) && Enabled(s, e) && f in s.files && (InHeaders(e) || InLoop(e))
    requires e.SendHeaders? && ReqRefs(s, e.r) ==> FileOf(s, e.r).published == []
    ensures f in Next(s, e).files && FileSame(s.files[f], Next(s, e).files[f])
  {
    hide Linked, Enabled, Next;
    if InHeaders(e) {
      HeaderShape(s, e);
    } else if e.Tee? || e.Splice? {
      MoveShape(s, e);
    } else if e.Fill? {
      FillShapes(s, e);
    } else {
      EarlyShape(s, e);
    }
  }

  lemma {:induction false} TouchFixes(s: State, uri: Uri, now: int, f: FileId)
    requires Linked(s) && f in s.files
    ensures f in Touch(s, uri, now).files && FileFixed(s.files[f], Touch(s, uri, now).files[f])
    ensures Lookup(s.table, uri) != Some(f) ==> FileSame(s.files[f], Touch(s, uri, now).files[f])
  {
    hide Linked, Lookup;
  }

  lemma {:induction false} ResetFixes(s: State, t: Thread, uri: Uri, f: FileId)
    requires t in s.workers && (Lookup(s.table, uri).Some? ==> Lookup(s.table, uri).value in s.files)
    requires f in s.files && f in FileReset(s, t, uri).files
    ensures FileSame(s.files[f], FileReset(s, t, uri).files[f])
  {
    hide PipesFree, Lookup;
  }

  lemma {:induction false} TableFilesFixed(s: State, e: Event, f: FileId)
    requires Linked(s) && Enabled(s, e) && f in s.files && f in Next(s, e).files && (e.Access? || e.Reset?)
    ensures FileFixed(s.files[f], Next(s, e).files[f])
    ensures e.Reset? || Lookup(s.table, e.uri) != Some(f) ==> FileSame(s.files[f], Next(s, e).files[f])
  {
    hide Touch, FileReset, FileFixed, Lookup;
    LookupIsEntry(s.table, e.uri);
    if e.Access? {
      TouchFixes(s, e.uri, e.now, f);
    } else {
      ResetFixes(s, e.t, e.uri, f);
    }
  }

  lemma {:induction false} ReleaseFixes(s: State, t: Thread, g: FileId, f: FileId)
    requires t in s.workers && g in s.files && f in s.files && f in Release(s, t, g).files
    ensures FileSame(s.files[f], Release(s, t, g).files[f])
  {
    hide PipesFree;
  }

  lemma {:induction false} DeleteFilesFixed(s: State, r: ReqId, f: FileId)
    requires Linked(s) && Enabled(s, Delete(r)) && f in s.files && f in Next(s, Delete(r)).files
    ensures FileSame(s.files[f], Next(s, Delete(r)).files[f])
  {
    DeleteRefs(s, r);
    hide Linked, Release, FileSame, ReqRefs;
    var q := s.reqs[r];
    var w := s.workers[q.home];
    var s1 := s.(workers := s.workers[q.home := w.(live := Remove(w.live, r))], reqs := s.reqs[r := q.(phase := Idle)]);
    assert Next(s, Delete(r)).files == Release(s1, q.home, q.file).files;
    ReleaseFixes(s1, q.home, q.file, f);
  }

  lemma {:induction false} SetupFilesFixed(s: State, e: Event, f: FileId)
    requires Linked(s) && Enabled(s, e) && e.Setup? && f in s.files
    requires Inv(s)
    ensures f in Next(s, e).files && FileSame(s.files[f], Next(s, e).files[f])
  {
    hide Inv, Linked, Next, Enabled;
    var g, i := SetupShape(s, e);
  }

  // While a request is being served its response does not change and its bytes on the socket only
  // grow, whatever anybody does in between: requests, resets, replacements and evictions.
  ghost predicate Progress(s: State, s': State, r: ReqId) {
    && Active(s, r) && Active(s', r) && ReqRefs(s, r) && ReqRefs(s', r)
    && s'.reqs[r].file == s.reqs[r].file && s'.reqs[r].home == s.reqs[r].home && s'.reqs[r].socket == s.reqs[r].socket
    && FileFixed(FileOf(s, r), FileOf(s', r)) && (HeadersOf(s, r).filled != 0 ==> HeadersOf(s', r).filled != 0)
    && (s.reqs[r].cached ==> s'.reqs[r].cached && Response(s', r) == Response(s, r))
    && (Serving(s.reqs[r].phase) ==> Serving(s'.reqs[r].phase) && s'.reqs[r].cached == s.reqs[r].cached)
    && s.reqs[r].sent <= s'.reqs[r].sent
  }

  lemma {:induction false} StepProgress(s: State, e: Event, r: ReqId)
    requires Linked(s) && Enabled(s, e) && Active(s, r) && e != Delete(r)
    requires Inv(s)
    ensures Progress(s, Next(s, e), r)
  {
    hide Inv, Linked;
    StepInv(s, e);
    ActiveInv(s, r);
    OwnStep(s, e, r);
    ActiveInv(Next(s, e), r);
    FilesFixed(s, e, s.reqs[r].file);
    if HeadersOf(s, r).filled != 0 {
      VisibleStay(s, e, s.reqs[r].file);
    }
  }

  // Nobody can see the headers of a file before they are published, ...
  lemma {:induction false} NotYetShown(s: State, w: ReqId)
    requires Inv(s) && w in s.reqs && (s.reqs[w].phase == PubSent || s.reqs[w].phase == PubSized)
    ensures ReqRefs(s, w) && HeadersOf(s, w).filled == 0
  {
    hide Owned, PipesOk, ListsOk, FilesOk, ContentOk;
    ActiveRefs(s, w);
    assert StartOk(s, w);
  }

  // ... and once there are headers, only their publisher can keep them from being seen.
  lemma {:induction false} ShownUnlessPublishing(s: State, f: FileId) returns (w: ReqId)
    requires Inv(s) && f in s.files && s.files[f].published != []
    ensures s.files[f].headers in s.pipes
    ensures s.pipes[s.files[f].headers].filled == 0 ==>
              w in s.reqs && s.reqs[w].file == f && (s.reqs[w].phase == PubSent || s.reqs[w].phase == PubSized)
  {
    hide Owned, PipesOk, ListsOk, FilesOk;
    assert ChunksOk(s, f) && HeadersOk(s, f);
    w := if s.files[f].writer.Some? then s.files[f].writer.value else 0;
  }

  lemma {:induction false} ShownHas(s: State, f: FileId)
    requires Inv(s) && f in s.files
    ensures s.files[f].headers in s.pipes
    ensures s.pipes[s.files[f].headers].filled != 0 ==> s.files[f].published != []
  {
    hide Owned, PipesOk, ListsOk, FilesOk;
    assert ChunksOk(s, f) && HeadersOk(s, f);
  }

  lemma {:induction false} LoopPhases(s: State, e: Event)
    requires Linked(s) && Enabled(s, e) && InLoop(e)
    ensures e.r in Next(s, e).reqs && Next(s, e).reqs[e.r].phase in {Fresh, Ready, Flush, Head}
  {
    hide Linked, Enabled, Next, FillCurr;
    if e.Splice? {
      EndIs(s, e);
    } else {
      LoopIs(s, e);
      if e.EarlyFill? || (e.Fill? && s.reqs[e.r].curr.Some?) {
        FillCurrShape(s, e.r, e.ok);
      }
    }
  }

  // Only the step that writes the headers, or the one that measures them, leads to these phases.
  lemma {:induction false} HidingStep(s: State, e: Event, w: ReqId)
    requires Linked(s) && Enabled(s, e) && StepOf(e, w) && w in Next(s, e).reqs
    requires Next(s, e).reqs[w].phase == PubSent || Next(s, e).reqs[w].phase == PubSized
    requires e != Delete(w)
    ensures w in s.reqs
    ensures (e.SendHeaders? && ReqRefs(s, w) && HeadersOf(s, w).filled == 0) || s.reqs[w].phase == PubSent
  {
    hide Linked, Enabled, Next;
    if InHeaders(e) {
      HeaderRefs(s, e);
    } else {
      LoopPhases(s, e);
      assert false;
    }
  }

  // Headers that can be seen stay visible.
  lemma {:induction false} VisibleStay(s: State, e: Event, f: FileId)
    requires Linked(s) && Enabled(s, e) && f in s.files && f in Next(s, e).files
    requires s.files[f].headers in s.pipes && s.pipes[s.files[f].headers].filled != 0
    requires Inv(s)
    ensures var s' := Next(s, e); s'.files[f].headers in s'.pipes && s'.pipes[s'.files[f].headers].filled != 0
  {
    hide Inv, Linked, Enabled, Next;
    StepInv(s, e);
    FilesFixed(s, e, f);
    ShownHas(s, f);
    var s' := Next(s, e);
    var w := ShownUnlessPublishing(s', f);
    if s'.pipes[s'.files[f].headers].filled == 0 {
      Hidden(s, e, f, w);
      assert false;
    }
  }

  lemma {:induction false} Hidden(s: State, e: Event, f: FileId, w: ReqId)
    requires Linked(s) && Enabled(s, e) && f in s.files && w in Next(s, e).reqs && Next(s, e).reqs[w].file == f
    requires Next(s, e).reqs[w].phase == PubSent || Next(s, e).reqs[w].phase == PubSized
    requires Inv(s)
    ensures s.files[f].headers in s.pipes && s.pipes[s.files[f].headers].filled == 0
  {
    hide Inv, Linked, Enabled, Next;
    PublisherBefore(s, e, w);
    if StepOf(e, w) {
      OwnStep(s, e, w);
      HidingStep(s, e, w);
      if s.reqs[w].phase == PubSent {
        NotYetShown(s, w);
      }
    } else {
      OthersUndisturbed(s, e, w);
      NotYetShown(s, w);
    }
  }

  // Whoever is active after a step, and has not just arrived, was so before.
  lemma {:induction false} PublisherBefore(s: State, e: Event, w: ReqId)
    requires Linked(s) && Enabled(s, e) && w in Next(s, e).reqs
    requires Next(s, e).reqs[w].phase == PubSent || Next(s, e).reqs[w].phase == PubSized
    requires Inv(s)
    ensures Active(s, w) && e != Delete(w)
  {
    hide Inv, Linked, Enabled, Next;
    if e.Setup? {
      var g, i := SetupShape(s, e);
    } else if e.Access? || e.Create? || e.Reset? {
      TableKeepsReqs(s, e);
    } else if e.Delete? {
      DeletedReqs(s, e.r);
    } else {
      HandlerShape(s, e);
    }
  }

  lemma {:induction false} TableKeepsReqs(s: State, e: Event)
    requires Linked(s) && Enabled(s, e) && (e.Access? || e.Create? || e.Reset?)
    ensures Next(s, e).reqs == s.reqs
  {
    hide PipesNew, PipesFree, Linked;
  }

  lemma {:induction false} ParkReqs(s: State, r: ReqId)
    requires r in s.reqs && s.reqs[r].home in s.workers
    ensures forall x <- ReqPark(s, r).reqs :: x in s.reqs && ReqPark(s, r).reqs[x] == s.reqs[x]
  {
  }

  lemma {:induction false} DeletedReqs(s: State, r: ReqId)
    requires Linked(s) && Enabled(s, Delete(r))
    ensures forall x <- Next(s, Delete(r)).reqs :: x in s.reqs && (x != r ==> Next(s, Delete(r)).reqs[x] == s.reqs[x])
    ensures !Active(Next(s, Delete(r)), r)
  {
    DeleteRefs(s, r);
    hide Linked, Enabled, ReqRefs, ReqPark, Release;
    var q := s.reqs[r];
    var w := s.workers[q.home];
    var s1 := s.(workers := s.workers[q.home := w.(live := Remove(w.live, r))], reqs := s.reqs[r := q.(phase := Idle)]);
    ParkReqs(Release(s1, q.home, q.file), r);
  }

  lemma {:induction false} ActiveInv(s: State, r: ReqId)
    requires Inv(s) && Active(s, r)
    ensures ReqRefs(s, r) && (s.reqs[r].cached ==> FileOf(s, r).published != [])
  {
    hide Owned, PipesOk, ListsOk, FilesOk, ContentOk;
    ActiveRefs(s, r);
  }

  lemma {:induction false} OwnStep(s: State, e: Event, r: ReqId)
    requires Linked(s) && Enabled(s, e) && Active(s, r) && e != Delete(r)
    requires Inv(s)
    ensures Active(Next(s, e), r) && ReqAdvances(s.reqs[r], Next(s, e).reqs[r])
  {
    hide Inv, Linked, Enabled, Next;
    if !StepOf(e, r) {
      OthersUndisturbed(s, e, r);
    } else {
      HandlerShape(s, e);
    }
  }

  // In every run, between two moments of one request's service.
  lemma {:induction false} RunProgress(ss: seq<State>, es: seq<Event>, i: nat, j: nat, r: ReqId)
    requires Run(ss, es) && i <= j < |ss| && Active(ss[i], r)
    requires forall k :: i <= k < j ==> es[k] != Delete(r)
    ensures Progress(ss[i], ss[j], r)
    decreases j - i
  {
    hide Inv, Linked, Init, Enabled, Next;
    RunInv(ss, es, i);
    if i == j {
      ActiveInv(ss[i], r);
    } else {
      assert Step(ss[i], es[i], ss[i + 1]);
      StepProgress(ss[i], es[i], r);
      RunProgress(ss, es, i + 1, j, r);
    }
  }

  // ----- chunks -------------------------------------------------------------------------------

  ghost predicate ChunkStays(s: State, s': State, f: FileId, k: nat) {
    && f in s.files && f in s'.files && s'.files[f].chunks == s.files[f].chunks && k < |s.files[f].chunks|
    && PipeKept(s, s', s.files[f].chunks[k])
  }

  lemma {:induction false} ChunkOfFile(s: State, f: FileId, k: nat)
    requires f in s.files && k < |s.files[f].chunks|
    requires Owned(s, [])
    ensures var p := s.files[f].chunks[k];
            && p in s.pipes
            && (forall g <- s.files :: s.files[g].headers != p)
            && (forall r <- s.reqs :: s.reqs[r].buf != p)
            && (forall t <- s.workers :: p !in s.workers[t].pipePool)
  {
    var owner :| OwnedBy(s, [], owner);
    var p := s.files[f].chunks[k];
    assert FileOwned(s.files[f], f, owner);
    forall g | g in s.files ensures s.files[g].headers != p {
      assert FileOwned(s.files[g], g, owner);
    }
    forall r | r in s.reqs ensures s.reqs[r].buf != p {
      assert OwnerIs(owner, s.reqs[r].buf, BufferOf(r));
    }
    forall t | t in s.workers ensures p !in s.workers[t].pipePool {
      assert PoolOwned(s.workers[t].pipePool, t, owner);
    }
  }

  // A fill writes its own chunk, and only when that is empty.
  lemma {:induction false} FillWritesEmpty(s: State, r: ReqId, ok: bool, f: FileId, k: nat)
    requires CurrRef(s, r) && f in s.files && k < |s.files[f].chunks|
    requires s.reqs[r].phase == Arrived || s.reqs[r].phase == Head
    requires s.files[f].chunks[k] in s.pipes && s.pipes[s.files[f].chunks[k]].data != []
    requires Inv(s)
    ensures ChunkStays(s, FillCurr(s, r, ok).0, f, k)
  {
    hide Owned, PipesOk, ListsOk, FilesOk, ContentOk;
    ActiveRefs(s, r);
    ChunkIsPlain(s, r);
    assert StreamOk(s, r) && CursorOk(s, r);
    FillCases(s, r, ok);
  }

  lemma {:induction false} PoolStepChunk(s: State, e: Event, f: FileId, k: nat)
    requires Linked(s) && Enabled(s, e) && (e.Create? || e.Setup?)
    requires f in s.files && k < |s.files[f].chunks| && s.files[f].chunks[k] in s.pipes
    requires Inv(s)
    ensures ChunkStays(s, Next(s, e), f, k)
  {
    hide Owned, PipesOk, ListsOk, FilesOk, ContentOk;
    ChunkOfFile(s, f, k);
    if e.Create? {
      FreshFile(s);
      CreateChunk(s, e, f, k);
    } else {
      hide Linked, Next, Enabled, Inv;
      SetupChunk(s, e, f, k);
    }
  }

  lemma {:induction false} CreateChunk(s: State, e: Event, f: FileId, k: nat)
    requires Linked(s) && Enabled(s, e) && e.Create? && s.nextFile !in s.files
    requires f in s.files && k < |s.files[f].chunks| && s.files[f].chunks[k] in s.pipes
    requires s.files[f].chunks[k] !in s.workers[e.t].pipePool
    requires Owned(s, []) && PipesOk(s)
    ensures ChunkStays(s, Next(s, e), f, k)
  {
    hide Owned, PipesOk, PipesNew;
    PipesNewEmpty(s, e.t, 1 + ChunkCount(|e.content|));
  }

  lemma {:induction false} SetupChunk(s: State, e: Event, f: FileId, k: nat)
    requires Linked(s) && Enabled(s, e) && e.Setup?
    requires f in s.files && k < |s.files[f].chunks| && s.files[f].chunks[k] in s.pipes
    requires forall t <- s.workers :: s.files[f].chunks[k] !in s.workers[t].pipePool
    requires forall r <- s.reqs :: s.reqs[r].buf != s.files[f].chunks[k]
    requires Inv(s)
    ensures ChunkStays(s, Next(s, e), f, k)
  {
    hide Linked, Next, Enabled, Inv;
    var g, i := SetupShape(s, e);
    assert PipeKept(s, Next(s, e), s.files[f].chunks[k]);
  }

  lemma {:induction false} ReleaseChunk(s: State, e: Event, f: FileId, k: nat)
    requires Linked(s) && Enabled(s, e) && (e.Reset? || e.Delete?) && f in Next(s, e).files
    requires f in s.files && k < |s.files[f].chunks| && s.files[f].chunks[k] in s.pipes
    requires Inv(s)
    ensures ChunkStays(s, Next(s, e), f, k)
  {
    hide Owned, PipesOk, ListsOk, FilesOk, ContentOk;
    if e.Reset? {
      ResetChunk(s, e.t, e.uri, f, k);
    } else {
      DeleteChunk(s, e.r, f, k);
    }
  }

  lemma {:induction false} FreedChunk(s: State, t: Thread, g: FileId, f: FileId, k: nat)
    requires t in s.workers && g in s.files && f in s.files && f != g && s.files[g].writer.None?
    requires k < |s.files[f].chunks|
    requires Owned(s, []) && PipesOk(s)
    ensures ChunkStays(s, FileFree(s, t, g), f, k)
  {
    hide Owned, PipesOk, PipesFree;
    FreePipes(s, t, g, FileFree(s, t, g));
    FilesApart(s, g, f);
    var p := s.files[f].chunks[k];
    assert p == PipesOf(s.files[f])[k + 1] && p in PipesOf(s.files[f]);
    assert s.files[g].headers == PipesOf(s.files[g])[0];
    assert forall q <- s.files[g].chunks :: q in PipesOf(s.files[g]);
    FreeKeepsReqs(s, t, g);
  }

  lemma {:induction false} ResetChunk(s: State, t: Thread, uri: Uri, f: FileId, k: nat)
    requires Linked(s) && Enabled(s, Reset(t, uri)) && f in Next(s, Reset(t, uri)).files
    requires f in s.files && k < |s.files[f].chunks| && s.files[f].chunks[k] in s.pipes
    requires Inv(s)
    ensures ChunkStays(s, Next(s, Reset(t, uri)), f, k)
  {
    hide Owned, PipesOk, ListsOk, FilesOk, ContentOk;
    LookupIsEntry(s.table, uri);
    if Lookup(s.table, uri).Some? {
      var g := Lookup(s.table, uri).value;
      var s1 := Unlisted(s, uri, g);
      WriterIsLive(s, g);
      UnlistedRest(s, uri, g, s1);
      if s.files[g].pending == 0 {
        FreeKeepsReqs(s1, t, g);
        hide FileFree;
        FreedChunk(s1, t, g, f, k);
      }
    }
  }

  // The state of a request being deleted, once its reference on the file is dropped.
  ghost function Dropped(s: State, r: ReqId): State
    requires ReqRefs(s, r)
  {
    var s1, f := Detached(s, r), s.reqs[r].file;
    if s1.files[f].zombie && s1.files[f].pending == 0 then FileFree(s1, s.reqs[r].home, f) else s1
  }

  lemma {:induction false} DroppedChunk(s: State, r: ReqId, f: FileId, k: nat)
    requires ReqRefs(s, r) && s.reqs[r].phase == Head && f in Dropped(s, r).files
    requires f in s.files && k < |s.files[f].chunks| && s.files[f].chunks[k] in s.pipes
    requires Inv(s)
    ensures ChunkStays(s, Dropped(s, r), f, k)
  {
    hide Owned, PipesOk, ListsOk, FilesOk, ContentOk, FileFree;
    var s1 := Detached(s, r);
    var t, g := s.reqs[r].home, s.reqs[r].file;
    DetachedPlaces(s, r, s1);
    if s1.files[g].zombie && s1.files[g].pending == 0 {
      DetachedWriter(s, r);
      FreeKeepsReqs(s1, t, g);
      FreedChunk(s1, t, g, f, k);
    }
  }

  lemma {:induction false} ParkedChunk(s: State, r: ReqId, f: FileId, k: nat)
    requires r in s.reqs && s.reqs[r].home in s.workers && f in s.files && k < |s.files[f].chunks|
    requires s.files[f].chunks[k] in s.pipes && s.reqs[r].buf != s.files[f].chunks[k]
    ensures ChunkStays(s, ReqPark(s, r), f, k)
  {
  }

  lemma {:induction false} DeleteRefs(s: State, r: ReqId)
    requires Linked(s) && Enabled(s, Delete(r))
    ensures ReqRefs(s, r) && s.reqs[r].phase == Head && r in s.reqs && s.reqs[r].file in s.files
    ensures s.reqs[r].home in s.workers
  {
  }

  lemma {:induction false} DroppedParts(s: State, r: ReqId)
    requires ReqRefs(s, r) && s.reqs[r].home in s.workers
    ensures var s2 := Dropped(s, r);
            && r in s2.reqs && s2.reqs[r].home in s2.workers && s2.reqs[r].home == s.reqs[r].home
            && s2.reqs[r].buf == s.reqs[r].buf && s2.files.Keys <= s.files.Keys
            && (forall f <- s2.files :: s2.files[f].chunks == s.files[f].chunks)
  {
    FreeKeepsReqs(Detached(s, r), s.reqs[r].home, s.reqs[r].file);
    hide PipesFree;
  }

  lemma {:induction false} DeleteIs(s: State, r: ReqId)
    requires Linked(s) && Enabled(s, Delete(r)) && ReqRefs(s, r) && s.reqs[r].home in s.workers
    requires r in Dropped(s, r).reqs && Dropped(s, r).reqs[r].home in Dropped(s, r).workers
    ensures Next(s, Delete(r)) == ReqPark(Dropped(s, r), r)
  {
    hide FileFree, ReqPark, Linked;
  }

  lemma {:induction false} StaysTwice(s: State, s1: State, s2: State, f: FileId, k: nat)
    requires f in s.files && k < |s.files[f].chunks| && s.files[f].chunks[k] in s.pipes
    requires f in s1.files && k < |s1.files[f].chunks| && s1.files[f].chunks[k] in s1.pipes
    requires ChunkStays(s, s1, f, k) && ChunkStays(s1, s2, f, k)
    ensures ChunkStays(s, s2, f, k)
  {
  }

  lemma {:induction false} StaysHere(s: State, s1: State, f: FileId, k: nat)
    requires f in s.files && k < |s.files[f].chunks| && s.files[f].chunks[k] in s.pipes && f in s1.files
    requires ChunkStays(s, s1, f, k)
    ensures k < |s1.files[f].chunks| && s1.files[f].chunks[k] in s1.pipes && s1.files[f].chunks[k] == s.files[f].chunks[k]
  {
  }

  lemma {:induction false} DeleteChunk(s: State, r: ReqId, f: FileId, k: nat)
    requires Linked(s) && Enabled(s, Delete(r)) && f in Next(s, Delete(r)).files
    requires f in s.files && k < |s.files[f].chunks| && s.files[f].chunks[k] in s.pipes
    requires Inv(s)
    ensures ChunkStays(s, Next(s, Delete(r)), f, k)
  {
    hide *;
    DeleteRefs(s, r);
    OwnedHere(s);
    ChunkOfFile(s, f, k);
    DroppedParts(s, r);
    DeleteIs(s, r);
    ParkKeepsFiles(Dropped(s, r), r);
    DroppedChunk(s, r, f, k);
    StaysHere(s, Dropped(s, r), f, k);
    ParkedChunk(Dropped(s, r), r, f, k);
    StaysTwice(s, Dropped(s, r), Next(s, Delete(r)), f, k);
  }

  lemma {:induction false} ParkKeepsFiles(s: State, r: ReqId)
    requires r in s.reqs && s.reqs[r].home in s.workers
    ensures ReqPark(s, r).files == s.files
  {
  }

  // Once a shared chunk holds its bytes nobody refills, drains or replaces it while the file lives.
  lemma {:induction false} FilledChunkStays(s: State, e: Event, f: FileId, k: nat)
    requires Linked(s) && Enabled(s, e) && f in Next(s, e).files
    requires f in s.files && k < |s.files[f].chunks| && s.files[f].chunks[k] in s.pipes
    requires s.pipes[s.files[f].chunks[k]].data != []
    requires Inv(s)
    ensures ChunkStays(s, Next(s, e), f, k)
  {
    hide Owned, PipesOk, ListsOk, FilesOk, ContentOk;
    if e.Create? || e.Setup? {
      PoolStepChunk(s, e, f, k);
    } else if e.Reset? || e.Delete? {
      ReleaseChunk(s, e, f, k);
    } else if e.EarlyFill? || e.Fill? {
      if s.reqs[e.r].curr.Some? {
        hide Linked;
        FillWritesEmpty(s, e.r, e.ok, f, k);
      }
    } else {
      ChunkOfFile(s, f, k);
      OtherStepChunk(s, e, f, k);
    }
  }

  lemma {:induction false} HeaderStepChunk(s: State, e: Event, f: FileId, k: nat)
    requires Linked(s) && Enabled(s, e) && InHeaders(e)
    requires f in s.files && k < |s.files[f].chunks| && s.files[f].chunks[k] in s.pipes
    requires forall g <- s.files :: s.files[g].headers != s.files[f].chunks[k]
    requires forall r <- s.reqs :: s.reqs[r].buf != s.files[f].chunks[k]
    ensures ChunkStays(s, Next(s, e), f, k)
  {
    hide Linked, Enabled, Next;
    HeaderShape(s, e);
  }

  lemma {:induction false} ServeStepChunk(s: State, e: Event, f: FileId, k: nat)
    requires Linked(s) && Enabled(s, e) && (e.Access? || e.Tee? || e.Splice?)
    requires f in s.files && k < |s.files[f].chunks| && s.files[f].chunks[k] in s.pipes
    requires forall g <- s.files :: s.files[g].headers != s.files[f].chunks[k]
    requires forall r <- s.reqs :: s.reqs[r].buf != s.files[f].chunks[k]
    ensures ChunkStays(s, Next(s, e), f, k)
  {
    if e.Access? {
      hide Linked;
    } else {
      hide Linked, Enabled, Next;
      MoveShape(s, e);
    }
  }

  lemma {:induction false} OtherStepChunk(s: State, e: Event, f: FileId, k: nat)
    requires Linked(s) && Enabled(s, e) && (InHeaders(e) || e.Access? || e.Tee? || e.Splice?)
    requires f in s.files && k < |s.files[f].chunks| && s.files[f].chunks[k] in s.pipes
    requires forall g <- s.files :: s.files[g].headers != s.files[f].chunks[k]
    requires forall r <- s.reqs :: s.reqs[r].buf != s.files[f].chunks[k]
    ensures ChunkStays(s, Next(s, e), f, k)
  {
    hide *;
    if e.Access? || e.Tee? || e.Splice? {
      ServeStepChunk(s, e, f, k);
    } else {
      HeaderStepChunk(s, e, f, k);
    }
  }

  // ----- private pipes ------------------------------------------------------------------------

  lemma {:induction false} PrivatePipe(s: State, r: ReqId)
    requires Inv(s) && Active(s, r)
    ensures ReqRefs(s, r) && Owned(s, []) && PipesOk(s)
    ensures forall f <- s.files :: s.files[f].headers != s.reqs[r].buf
    ensures forall f <- s.files :: s.reqs[r].buf !in s.files[f].chunks
    ensures forall i <- s.reqs :: i != r ==> s.reqs[i].buf != s.reqs[r].buf
    ensures forall t <- s.workers :: s.reqs[r].buf !in s.workers[t].pipePool
  {
    hide Owned, PipesOk, ListsOk, FilesOk, ContentOk;
    ActiveRefs(s, r);
    BufferApart(s, r);
    forall t | t in s.workers ensures s.reqs[r].buf !in s.workers[t].pipePool {
      PooledApart(s, t);
    }
  }

  lemma {:induction false} FillCurrWrites(s: State, r: ReqId, ok: bool, p: PipeId)
    requires CurrRef(s, r) && p in s.pipes && p != CurrOf(s, r)
    ensures PipeKept(s, FillCurr(s, r, ok).0, p)
  {
  }

  // A step of another handler writes the header pipe or a chunk of its file, or its own pipe.
  lemma {:induction false} FillsElsewhere(s: State, e: Event, p: PipeId)
    requires Linked(s) && Enabled(s, e) && (e.EarlyFill? || e.Fill?)
    requires p in s.pipes && forall f <- s.files :: p !in s.files[f].chunks
    ensures PipeKept(s, Next(s, e), p)
  {
    hide Linked, Enabled, Next, FillCurr;
    LoopIs(s, e);
    if s.reqs[e.r].curr.Some? {
      FillCurrWrites(s, e.r, e.ok, p);
    }
  }

  lemma {:induction false} HandlerElsewhere(s: State, e: Event, p: PipeId)
    requires Linked(s) && Enabled(s, e) && (InHeaders(e) || InLoop(e))
    requires p in s.pipes && forall f <- s.files :: s.files[f].headers != p && p !in s.files[f].chunks
    requires forall i <- s.reqs :: i == e.r ==> s.reqs[i].buf != p
    ensures PipeKept(s, Next(s, e), p)
  {
    hide Linked, Enabled, Next;
    if InHeaders(e) {
      HeaderShape(s, e);
    } else if e.Tee? || e.Splice? {
      MoveShape(s, e);
    } else {
      FillsElsewhere(s, e, p);
    }
  }

  lemma {:induction false} CreateElsewhere(s: State, e: Event, p: PipeId)
    requires Linked(s) && Enabled(s, e) && e.Create?
    requires p in s.pipes && forall t <- s.workers :: p !in s.workers[t].pipePool
    requires Owned(s, []) && PipesOk(s)
    ensures PipeKept(s, Next(s, e), p)
  {
    hide Owned, PipesOk, PipesNew;
    PipesNewEmpty(s, e.t, 1 + ChunkCount(|e.content|));
  }

  lemma {:induction false} SetupElsewhere(s: State, e: Event, r: ReqId)
    requires Linked(s) && Enabled(s, e) && e.Setup? && Active(s, r)
    requires Inv(s)
    ensures PipeKept(s, Next(s, e), s.reqs[r].buf)
  {
    hide Inv, Linked, Next, Enabled;
    PrivatePipe(s, r);
    var g, i := SetupShape(s, e);
  }

  // Freeing a file gives away its own pipes only.
  lemma {:induction false} FreeElsewhere(s: State, t: Thread, g: FileId, p: PipeId)
    requires t in s.workers && g in s.files && s.files[g].writer.None?
    requires p in s.pipes && s.files[g].headers != p && p !in s.files[g].chunks
    requires Owned(s, []) && PipesOk(s)
    ensures PipeKept(s, FileFree(s, t, g), p)
  {
    hide Owned, PipesOk, FileFree;
    FreePipes(s, t, g, FileFree(s, t, g));
  }

  lemma {:induction false} ResetElsewhere(s: State, t: Thread, uri: Uri, p: PipeId)
    requires Linked(s) && Enabled(s, Reset(t, uri))
    requires p in s.pipes && forall f <- s.files :: s.files[f].headers != p && p !in s.files[f].chunks
    requires Inv(s)
    ensures PipeKept(s, Next(s, Reset(t, uri)), p)
  {
    hide Owned, PipesOk, ListsOk, FilesOk, ContentOk;
    LookupIsEntry(s.table, uri);
    if Lookup(s.table, uri).Some? {
      var g := Lookup(s.table, uri).value;
      var s1 := Unlisted(s, uri, g);
      WriterIsLive(s, g);
      UnlistedRest(s, uri, g, s1);
      if s.files[g].pending == 0 {
        hide FileFree;
        FreeElsewhere(s1, t, g, p);
      }
    }
  }

  lemma {:induction false} DroppedElsewhere(s: State, r: ReqId, p: PipeId)
    requires ReqRefs(s, r) && s.reqs[r].phase == Head
    requires p in s.pipes && forall f <- s.files :: s.files[f].headers != p && p !in s.files[f].chunks
    requires Inv(s)
    ensures PipeKept(s, Dropped(s, r), p)
  {
    hide Owned, PipesOk, ListsOk, FilesOk, ContentOk, FileFree;
    var s1 := Detached(s, r);
    var t, g := s.reqs[r].home, s.reqs[r].file;
    DetachedPlaces(s, r, s1);
    if s1.files[g].zombie && s1.files[g].pending == 0 {
      DetachedWriter(s, r);
      FreeElsewhere(s1, t, g, p);
    }
  }

  lemma {:induction false} ParkElsewhere(s: State, r: ReqId, p: PipeId)
    requires r in s.reqs && s.reqs[r].home in s.workers && p in s.pipes && s.reqs[r].buf != p
    ensures PipeKept(s, ReqPark(s, r), p)
  {
  }

  lemma {:induction false} DeleteElsewhere(s: State, i: ReqId, p: PipeId)
    requires Linked(s) && Enabled(s, Delete(i)) && forall j <- s.reqs :: j == i ==> s.reqs[j].buf != p
    requires p in s.pipes && forall f <- s.files :: s.files[f].headers != p && p !in s.files[f].chunks
    requires Inv(s)
    ensures PipeKept(s, Next(s, Delete(i)), p)
  {
    hide Inv, Linked, Enabled, Next, ReqPark, Dropped;
    DeleteRefs(s, i);
    DroppedParts(s, i);
    DeleteIs(s, i);
    DroppedElsewhere(s, i, p);
    ParkElsewhere(Dropped(s, i), i, p);
  }

  // No step of anybody else touches the pipe of a live request.
  lemma {:induction false} BufferStays(s: State, e: Event, r: ReqId)
    requires Linked(s) && Enabled(s, e) && Active(s, r) && !StepOf(e, r)
    requires Inv(s)
    ensures PipeKept(s, Next(s, e), s.reqs[r].buf)
  {
    hide Inv, Linked, Enabled, Next;
    PrivatePipe(s, r);
    if e.Create? {
      CreateElsewhere(s, e, s.reqs[r].buf);
    } else if e.Setup? {
      SetupElsewhere(s, e, r);
    } else if e.Reset? {
      ResetElsewhere(s, e.t, e.uri, s.reqs[r].buf);
    } else if e.Delete? {
      DeleteElsewhere(s, e.r, s.reqs[r].buf);
    } else if e.Access? {
      TouchElsewhere(s, e);
    } else {
      HandlerElsewhere(s, e, s.reqs[r].buf);
    }
  }

  lemma {:induction false} TouchElsewhere(s: State, e: Event)
    requires Linked(s) && Enabled(s, e) && e.Access?
    ensures Next(s, e).pipes == s.pipes
  {
    hide Linked;
  }
}
