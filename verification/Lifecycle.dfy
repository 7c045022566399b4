/**
Files going: a lookup, a reset and a free keep the invariant, so a
file is freed once, when it is out of the table and no request is left on it.
*/
module Lifecycle {
  import opened Options
  import opened TableLog
  import opened CacheState
  import opened Protocol
  import opened Ownership
  import opened Streams
  import opened Steps

  // ----- what a step leaves alone -------------------------------------------------------------

  ghost predicate SameText(x: File, y: File) {
    && x.content == y.content && x.chunks == y.chunks && x.headers == y.headers
    && x.published == y.published && x.writer == y.writer && x.headerLen == y.headerLen
  }

  ghost predicate PipeKept(s: State, s': State, p: PipeId) {
    p in s.pipes && p in s'.pipes && s'.pipes[p] == s.pipes[p]
  }

  ghost predicate FileCalm(s: State, s': State, f: FileId) {
    && f in s.files && f in s'.files && SameText(s.files[f], s'.files[f])
    && PipeKept(s, s', s.files[f].headers)
    && (forall p <- s.files[f].chunks :: PipeKept(s, s', p))
    && (s.files[f].writer.Some? ==>
          s.files[f].writer.value in s.reqs && s.files[f].writer.value in s'.reqs
          && s'.reqs[s.files[f].writer.value] == s.reqs[s.files[f].writer.value])
  }

  ghost predicate ReqCalm(s: State, s': State, i: ReqId) {
    && i in s.reqs && i in s'.reqs && s'.reqs[i] == s.reqs[i]
    && PipeKept(s, s', s.reqs[i].buf) && s.reqs[i].home in s'.workers
    && FileCalm(s, s', s.reqs[i].file)
  }

  lemma {:induction false} CalmChunks(s: State, s': State, f: FileId)
    requires FileCalm(s, s', f) && ChunksOk(s, f)
    ensures ChunksGrow(s, s', f) && ChunksOk(s', f)
  {
    forall k | 0 <= k < |s.files[f].chunks| ensures ChunkGrows(s, s', f, k) {
      assert PipeKept(s, s', s.files[f].chunks[k]);
    }
    ChunksFrame(s, s', f);
  }

  lemma {:induction false} CalmFile(s: State, s': State, f: FileId)
    requires FileCalm(s, s', f) && ChunksOk(s, f) && HeadersOk(s, f)
    ensures ChunksOk(s', f) && HeadersOk(s', f)
  {
    CalmChunks(s, s', f);
    HeadersFrame(s, s', f);
  }

  lemma {:induction false} CalmReq(s: State, s': State, i: ReqId)
    requires ReqCalm(s, s', i) && ReqRefs(s, i) && ChunksOk(s, s.reqs[i].file) && ReqOk(s, i)
    ensures ReqRefs(s', i) && ChunksOk(s', s.reqs[i].file) && ReqOk(s', i)
  {
    CalmChunks(s, s', s.reqs[i].file);
    forall p | p in s'.files[s.reqs[i].file].chunks ensures p in s'.pipes {
      assert PipeKept(s, s', p);
    }
    ReqFrame(s, s', i);
  }

  // Contents survive when every surviving file and active request is calm.
  lemma {:induction false} CalmContent(s: State, s': State)
    requires ContentOk(s)
    requires forall f <- s'.files :: FileCalm(s, s', f)
    requires forall i <- s'.reqs :: s'.reqs[i].phase != Idle ==> ReqCalm(s, s', i)
    ensures ContentOk(s')
  {
    hide FileCalm, ReqCalm, ChunksOk, HeadersOk, ReqOk;
    forall f | f in s'.files ensures ChunksOk(s', f) && HeadersOk(s', f) {
      CalmSurvives(s, s', f);
    }
    forall i | i in s'.reqs && s'.reqs[i].phase != Idle ensures ReqRefs(s', i) && ReqOk(s', i) {
      CalmReqSurvives(s, s', i);
    }
  }

  lemma {:induction false} CalmSurvives(s: State, s': State, f: FileId)
    requires ContentOk(s) && FileCalm(s, s', f)
    ensures ChunksOk(s', f) && HeadersOk(s', f)
  {
    assert ChunksOk(s, f) && HeadersOk(s, f);
    CalmFile(s, s', f);
  }

  lemma {:induction false} CalmReqSurvives(s: State, s': State, i: ReqId)
    requires ContentOk(s) && ReqCalm(s, s', i) && i in s'.reqs && s'.reqs[i].phase != Idle
    ensures ReqRefs(s', i) && ChunksOk(s', s'.reqs[i].file) && ReqOk(s', i)
  {
    assert ReqRefs(s, i) && ReqOk(s, i);
    CalmReq(s, s', i);
  }

  // ----- freeing a file -----------------------------------------------------------------------

  // FilesOk, except that `f` is a zombie with no request left on it.
  ghost predicate LastReference(s: State, f: FileId) {
    && f in s.files && s.files[f].zombie && s.files[f].pending == 0
    && f < s.nextFile && LiveOn(s, f) == {} && Entry(s.files[f].uri, f) !in s.table
    && (forall g <- s.files :: g != f ==> FileCounted(s, g))
    && UniqueKeys(s.table)
    && (forall e <- s.table :: e.val in s.files && s.files[e.val].uri == e.key)
    && (forall r <- s.reqs :: s.reqs[r].phase != Idle ==> s.reqs[r].file in s.files)
    && NoDup(s.freed)
    && (forall g: FileId :: g in s.freed <==> g < s.nextFile && g !in s.files)
  }

  lemma {:induction false} FreeFiles(s: State, t: Thread, f: FileId, s': State)
    requires LastReference(s, f) && t in s.workers && s' == FileFree(s, t, f)
    ensures FilesOk(s')
  {
    hide PipesFree;
    forall g | g in s'.files ensures FileCounted(s', g) {
      assert FileCounted(s, g);
      SameLive(s, s', g);
    }
    forall r | r in s'.reqs && s'.reqs[r].phase != Idle ensures s'.reqs[r].file in s'.files {
      assert s.reqs[r].file == f ==> r in LiveOn(s, f);
    }
    forall e | e in s'.table ensures e.val in s'.files && s'.files[e.val].uri == e.key {
      assert e == Entry(s.files[e.val].uri, e.val);
    }
    assert f !in s.freed;
    NoDupAppend(s.freed, f);
  }

  ghost function PipesOf(file: File): seq<PipeId> {
    [file.headers] + file.chunks
  }

  lemma {:induction false} FilePipes(file: File, f: FileId, owner: map<PipeId, Slot>)
    requires FileOwned(file, f, owner)
    ensures PipesOfFile(PipesOf(file), owner, f)
  {
    var ps := PipesOf(file);
    forall i | 0 <= i < |ps| ensures OwnerIs(owner, ps[i], if i == 0 then HeaderOf(f) else ChunkOf(f, i - 1)) {
      assert i > 0 ==> ps[i] == file.chunks[i - 1];
    }
  }

  // The owners once the pipes of file `f` have been taken in hand.
  ghost function Handed(owner: map<PipeId, Slot>, ps: seq<PipeId>): map<PipeId, Slot> {
    map p | p in owner :: if p in ps then InHand else owner[p]
  }

  lemma {:induction false} HandedHolds(s: State, f: FileId, owner: map<PipeId, Slot>, q: PipeId, s': State)
    requires f in s.files && q in owner && Holds(s, [], owner[q], q)
    requires s' == s.(files := s.files - {f}, freed := s.freed + [f])
    ensures Holds(s', PipesOf(s.files[f]), Handed(owner, PipesOf(s.files[f]))[q], q)
  {
    var ps := PipesOf(s.files[f]);
    if owner[q] == HeaderOf(f) {
      assert ps[0] == q;
    } else if owner[q].ChunkOf? && owner[q].f == f {
      assert ps[owner[q].k + 1] == q;
    }
  }

  lemma {:induction false} HandOver(s: State, f: FileId, owner: map<PipeId, Slot>, s': State)
    requires OwnedBy(s, [], owner) && f in s.files
    requires s' == s.(files := s.files - {f}, freed := s.freed + [f])
    ensures OwnedBy(s', PipesOf(s.files[f]), Handed(owner, PipesOf(s.files[f])))
  {
    hide Holds, FileOwned, PoolOwned, InHandOwned;
    var ps := PipesOf(s.files[f]);
    var owner' := Handed(owner, ps);
    FilePipes(s.files[f], f, owner);
    forall g | g in s'.files ensures FileOwned(s'.files[g], g, owner') {
      FileUntouched(s.files[g], g, owner, ps, f);
    }
    forall r | r in s'.reqs ensures OwnerIs(owner', s'.reqs[r].buf, BufferOf(r)) {
      assert OwnerIs(owner, s.reqs[r].buf, BufferOf(r));
    }
    forall u | u in s'.workers ensures PoolOwned(s'.workers[u].pipePool, u, owner') {
      PoolUntouched(s.workers[u].pipePool, u, owner, ps, f);
    }
    forall q | q in owner' ensures Holds(s', ps, owner'[q], q) {
      HandedHolds(s, f, owner, q, s');
    }
    HandedOwned(ps, owner);
    assert owner'.Keys == s'.pipes.Keys;
  }

  // `ps` are pipes of file `f` and no others.
  ghost predicate PipesOfFile(ps: seq<PipeId>, owner: map<PipeId, Slot>, f: FileId) {
    NoDup(ps) && forall p <- ps :: p in owner && (owner[p] == HeaderOf(f) || (owner[p].ChunkOf? && owner[p].f == f))
  }

  lemma {:induction false} FileUntouched(file: File, g: FileId, owner: map<PipeId, Slot>, ps: seq<PipeId>, f: FileId)
    requires FileOwned(file, g, owner) && PipesOfFile(ps, owner, f) && g != f
    ensures FileOwned(file, g, Handed(owner, ps))
  {
  }

  lemma {:induction false} PoolUntouched(pool: seq<PipeId>, u: Thread, owner: map<PipeId, Slot>, ps: seq<PipeId>, f: FileId)
    requires PoolOwned(pool, u, owner) && PipesOfFile(ps, owner, f)
    ensures PoolOwned(pool, u, Handed(owner, ps))
  {
    forall q | q in pool ensures OwnerIs(Handed(owner, ps), q, PooledBy(u)) {
      assert OwnerIs(owner, q, PooledBy(u));
    }
  }

  lemma {:induction false} HandedOwned(ps: seq<PipeId>, owner: map<PipeId, Slot>)
    requires NoDup(ps) && forall p <- ps :: p in owner
    ensures InHandOwned(ps, Handed(owner, ps))
  {
  }

  lemma {:induction false} UnlistedPipesOk(s: State, f: FileId, s': State)
    requires PipesOk(s) && f in s.files && s.files[f].writer.None?
    requires s' == s.(files := s.files - {f}, freed := s.freed + [f])
    ensures PipesOk(s')
  {
    forall p | p in s'.pipes ensures s'.pipes[p].filled == |s'.pipes[p].data| || Writing(s', p) {
      if Writing(s, p) {
        var g :| g in s.files && s.files[g].headers == p && s.files[g].writer.Some?;
        assert g in s'.files;
      }
    }
  }

  // The pipes a freed file had, and no others, are released.
  lemma {:induction false} FreePipes(s: State, t: Thread, f: FileId, s': State)
    requires f in s.files && s.files[f].writer.None? && t in s.workers && s' == FileFree(s, t, f)
    requires Owned(s, []) && PipesOk(s)
    ensures Owned(s', []) && PipesOk(s')
    ensures forall p <- s.pipes :: p != s.files[f].headers && p !in s.files[f].chunks ==> PipeKept(s, s', p)
  {
    hide OwnedBy, PipesOk, PipesFree;
    var owner :| OwnedBy(s, [], owner);
    var s1 := s.(files := s.files - {f}, freed := s.freed + [f]);
    HandOver(s, f, owner, s1);
    UnlistedPipesOk(s, f, s1);
    PipesFreeOwned(s1, t, PipesOf(s.files[f]));
  }

  lemma {:induction false} FilesApart(s: State, f: FileId, g: FileId)
    requires Owned(s, []) && f in s.files && g in s.files && f != g
    ensures forall p <- PipesOf(s.files[g]) :: p in s.pipes && p !in PipesOf(s.files[f])
  {
    var owner :| OwnedBy(s, [], owner);
    assert FileOwned(s.files[f], f, owner) && FileOwned(s.files[g], g, owner);
    FilePipes(s.files[f], f, owner);
    FilePipes(s.files[g], g, owner);
  }

  lemma {:induction false} OtherFileCalm(s: State, t: Thread, f: FileId, s': State, g: FileId)
    requires Owned(s, []) && f in s.files && g in s.files && f != g && t in s.workers && s' == FileFree(s, t, f)
    requires forall p <- s.pipes :: p != s.files[f].headers && p !in s.files[f].chunks ==> PipeKept(s, s', p)
    requires ChunksOk(s, g) && HeadersOk(s, g)
    ensures FileCalm(s, s', g)
  {
    hide OwnedBy, PipesFree;
    FilesApart(s, f, g);
    var ps, qs := PipesOf(s.files[f]), PipesOf(s.files[g]);
    assert s.files[g].headers == qs[0] && s.files[f].headers == ps[0];
    forall p | p in s.files[g].chunks ensures PipeKept(s, s', p) {
      assert p in qs;
    }
    assert forall p <- s.files[f].chunks :: p in ps;
  }

  // cache_file_free of a file nothing refers to.
  lemma {:induction false} FreeKeeps(s: State, t: Thread, f: FileId, s': State)
    requires f in s.files && s.files[f].writer.None? && t in s.workers && s' == FileFree(s, t, f)
    requires Owned(s, []) && PipesOk(s) && ContentOk(s) && LastReference(s, f)
    requires forall r <- s.reqs :: s.reqs[r].phase != Idle ==> s.reqs[r].home in s.workers
    ensures Owned(s', []) && PipesOk(s') && FilesOk(s') && ContentOk(s')
  {
    hide Owned, PipesOk, PipesFree;
    FreeFiles(s, t, f, s');
    FreePipes(s, t, f, s');
    forall g | g in s'.files ensures FileCalm(s, s', g) {
      assert ChunksOk(s, g) && HeadersOk(s, g);
      OtherFileCalm(s, t, f, s', g);
    }
    forall i | i in s'.reqs && s'.reqs[i].phase != Idle ensures ReqCalm(s, s', i) {
      assert s.reqs[i].file == f ==> i in LiveOn(s, f);
      RefsOwned(s);
      BufferApart(s, i);
    }
    CalmContent(s, s');
  }

  // Fields of files that say nothing about pipes or bytes may change freely.
  lemma {:induction false} RefieldedRest(s: State, s1: State)
    requires s1 == s.(table := s1.table, files := s1.files) && s1.files.Keys == s.files.Keys
    requires forall f <- s.files :: SameText(s.files[f], s1.files[f])
    requires Owned(s, []) && PipesOk(s) && ListsOk(s) && ContentOk(s)
    ensures Owned(s1, []) && PipesOk(s1) && ListsOk(s1) && ContentOk(s1)
  {
    RefieldedPlaces(s, s1);
    RefieldedPipes(s, s1);
    RefieldedLists(s, s1);
    RefieldedContent(s, s1);
  }

  lemma {:induction false} RefieldedPlaces(s: State, s1: State)
    requires s1 == s.(table := s1.table, files := s1.files) && s1.files.Keys == s.files.Keys
    requires forall f <- s.files :: SameText(s.files[f], s1.files[f])
    requires Owned(s, [])
    ensures Owned(s1, [])
  {
    hide OwnedBy;
    forall f | f in s.files ensures SamePipes(s.files[f], s1.files[f]) {
      assert SameText(s.files[f], s1.files[f]);
    }
    SameOwners(s, s1, []);
  }

  lemma {:induction false} RefieldedPipes(s: State, s1: State)
    requires s1 == s.(table := s1.table, files := s1.files) && s1.files.Keys == s.files.Keys
    requires forall f <- s.files :: SameText(s.files[f], s1.files[f])
    requires PipesOk(s)
    ensures PipesOk(s1)
  {
    forall p | p in s1.pipes ensures s1.pipes[p].filled == |s1.pipes[p].data| || Writing(s1, p) {
      if Writing(s, p) {
        var g :| g in s.files && s.files[g].headers == p && s.files[g].writer.Some?;
        assert SameText(s.files[g], s1.files[g]);
      }
    }
  }

  lemma {:induction false} RefieldedLists(s: State, s1: State)
    requires s1 == s.(table := s1.table, files := s1.files)
    requires ListsOk(s)
    ensures ListsOk(s1)
  {
    forall t | t in s1.workers ensures WorkerOk(s1, t) {
      assert WorkerOk(s, t);
      assert forall i, idle :: OnList(s, t, i, idle) ==> OnList(s1, t, i, idle);
    }
    forall i | i in s1.reqs ensures i < s1.nextReq && Listed(s1, i) {
      assert Listed(s, i);
    }
  }

  lemma {:induction false} RefieldedContent(s: State, s1: State)
    requires s1 == s.(table := s1.table, files := s1.files) && s1.files.Keys == s.files.Keys
    requires forall f <- s.files :: SameText(s.files[f], s1.files[f])
    requires ContentOk(s)
    ensures ContentOk(s1)
  {
    forall f | f in s1.files ensures FileCalm(s, s1, f) {
      assert SameText(s.files[f], s1.files[f]) && ChunksOk(s, f) && HeadersOk(s, f);
    }
    forall i | i in s1.reqs && s1.reqs[i].phase != Idle ensures ReqCalm(s, s1, i) {
      assert ReqRefs(s, i);
    }
    CalmContent(s, s1);
  }

  // ----- cache_file.c -------------------------------------------------------------------------

  lemma {:induction false} TableAfterDrop(table: seq<Entry<FileId>>, uri: Uri)
    requires UniqueKeys(table)
    ensures UniqueKeys(Drop(table, uri))
    ensures forall e :: e in Drop(table, uri) <==> e in table && e.key != uri
  {
    if table != [] {
      var rest := table[1..];
      assert forall e :: e in table <==> e == table[0] || e in rest;
      UniqueRest(table);
      if table[0].key != uri {
        TableAfterDrop(rest, uri);
        assert Drop(table, uri) == [table[0]] + Drop(rest, uri);
        hide Drop, UniqueKeys;
        UniqueMore(table[0], Drop(rest, uri));
      } else {
        assert Drop(table, uri) == rest;
      }
    }
  }

  lemma {:induction false} UniqueRest(table: seq<Entry<FileId>>)
    requires UniqueKeys(table) && table != []
    ensures UniqueKeys(table[1..]) && forall e <- table[1..] :: e.key != table[0].key
  {
    forall i, j | 0 <= i < j < |table[1..]| ensures table[1..][i].key != table[1..][j].key {
      assert table[1..][i] == table[i + 1] && table[1..][j] == table[j + 1];
    }
  }

  lemma {:induction false} UniqueMore(e: Entry<FileId>, table: seq<Entry<FileId>>)
    requires UniqueKeys(table) && forall x <- table :: x.key != e.key
    ensures UniqueKeys([e] + table)
  {
  }

  lemma {:induction false} UniqueEntry(table: seq<Entry<FileId>>, uri: Uri, f: FileId, g: FileId)
    requires UniqueKeys(table)
    ensures Entry(uri, f) in table && Entry(uri, g) in table ==> f == g
  {
  }

  // The file that reset takes out of the table.
  ghost function Unlisted(s: State, uri: Uri, f: FileId): State
    requires f in s.files
  {
    s.(table := Drop(s.table, uri), files := s.files[f := s.files[f].(zombie := true)])
  }

  lemma {:induction false} UnlistedCounts(s: State, uri: Uri, f: FileId, s1: State)
    requires FilesOk(s) && f in s.files && Entry(uri, f) in s.table && s1 == Unlisted(s, uri, f)
    ensures s.files[f].pending > 0 ==> FilesOk(s1)
    ensures s.files[f].pending == 0 ==> LastReference(s1, f)
  {
    TableAfterDrop(s.table, uri);
    forall g | g in s1.files ensures LiveOn(s1, g) == LiveOn(s, g) {
      SameLive(s, s1, g);
    }
    forall g | g in s1.files && g != f ensures FileCounted(s1, g) {
      assert FileCounted(s, g);
      UniqueEntry(s.table, uri, f, g);
    }
    assert FileCounted(s, f);
  }

  lemma {:induction false} UnlistedRest(s: State, uri: Uri, f: FileId, s1: State)
    requires f in s.files && s1 == Unlisted(s, uri, f)
    requires Owned(s, []) && PipesOk(s) && ListsOk(s) && ContentOk(s)
    ensures Owned(s1, []) && PipesOk(s1) && ListsOk(s1) && ContentOk(s1)
  {
    hide Owned, PipesOk, ListsOk, ContentOk;
    RefieldedRest(s, s1);
  }

  lemma {:induction false} WriterIsLive(s: State, f: FileId)
    requires FilesOk(s) && ContentOk(s) && f in s.files
    ensures s.files[f].writer.Some? ==> 0 < s.files[f].pending
  {
    assert FileCounted(s, f) && ChunksOk(s, f) && HeadersOk(s, f);
    if s.files[f].writer.Some? {
      assert s.files[f].writer.value in LiveOn(s, f);
    }
  }

  lemma {:induction false} ListsFrame(s: State, s': State)
    requires ListsOk(s) && SameLists(s, s') && s'.reqs == s.reqs && s'.nextReq == s.nextReq
    ensures ListsOk(s')
  {
    forall t | t in s'.workers ensures WorkerOk(s', t) {
      assert WorkerOk(s, t);
      assert forall i, idle :: OnList(s, t, i, idle) ==> OnList(s', t, i, idle);
    }
    forall i | i in s'.reqs ensures i < s'.nextReq && Listed(s', i) {
      assert Listed(s, i);
    }
    forall i, j | i in s'.reqs && j in s'.reqs && i != j ensures SocketsApart(s'.reqs[i], s'.reqs[j]) {
      assert SocketsApart(s.reqs[i], s.reqs[j]);
    }
  }

  lemma {:induction false} HomesKnown(s: State)
    requires ListsOk(s)
    ensures forall r <- s.reqs :: s.reqs[r].home in s.workers
  {
    forall r | r in s.reqs ensures s.reqs[r].home in s.workers {
      assert Listed(s, r);
    }
  }

  // file_table_reset
  lemma {:induction false} ResetKeeps(s: State, t: Thread, uri: Uri, s': State)
    requires t in s.workers && (Lookup(s.table, uri).Some? ==> Lookup(s.table, uri).value in s.files)
    requires s' == FileReset(s, t, uri)
    requires Inv(s)
    ensures Inv(s')
  {
    hide Owned, PipesOk, ListsOk, FilesOk, ContentOk, LastReference, FileFree;
    if Lookup(s.table, uri).Some? {
      var f := Lookup(s.table, uri).value;
      LookupIsEntry(s.table, uri);
      var s1 := Unlisted(s, uri, f);
      UnlistedCounts(s, uri, f, s1);
      UnlistedRest(s, uri, f, s1);
      WriterIsLive(s, f);
      if s.files[f].pending == 0 {
        HomesKnown(s1);
        FreeKeeps(s1, t, f, s');
        FileFreeLists(s1, t, f);
        ListsFrame(s1, s');
      } else {
        assert s.files[f].pending > 0 by { PendingIsCount(s, f); }
      }
    }
  }

  lemma {:induction false} PendingIsCount(s: State, f: FileId)
    requires FilesOk(s) && f in s.files
    ensures s.files[f].pending == |LiveOn(s, f)|
  {
    assert FileCounted(s, f);
  }

  lemma {:induction false} FileFreeLists(s: State, t: Thread, f: FileId)
    requires t in s.workers && f in s.files
    ensures var s' := FileFree(s, t, f);
            SameLists(s, s') && s'.reqs == s.reqs && s'.nextReq == s.nextReq
  {
    hide PipesFree;
  }

  // cache_file_get
  lemma {:induction false} TouchKeeps(s: State, uri: Uri, now: int, s': State)
    requires Linked(s) && s' == Touch(s, uri, now)
    requires Inv(s)
    ensures Inv(s') && s' == s.(files := s'.files) && s'.files.Keys == s.files.Keys
    ensures forall f <- s.files ::
              s'.files[f] == s.files[f].(lastAccessed := if Entry(uri, f) in s.table then now else s.files[f].lastAccessed)
  {
    hide Owned, PipesOk, ListsOk, FilesOk, ContentOk;
    LookupIsEntry(s.table, uri);
    if Lookup(s.table, uri).Some? {
      RefieldedRest(s, s');
      ListedOnce(s, uri, Lookup(s.table, uri).value);
      TouchCounts(s, Lookup(s.table, uri).value, now, s');
    }
  }

  lemma {:induction false} ListedOnce(s: State, uri: Uri, f: FileId)
    requires FilesOk(s) && Entry(uri, f) in s.table
    ensures forall g :: Entry(uri, g) in s.table <==> g == f
  {
    forall g | Entry(uri, g) in s.table ensures g == f {
      UniqueEntry(s.table, uri, f, g);
    }
  }

  lemma {:induction false} TouchCounts(s: State, f: FileId, now: int, s': State)
    requires FilesOk(s) && f in s.files && s' == s.(files := s.files[f := s.files[f].(lastAccessed := now)])
    ensures FilesOk(s')
  {
    forall g | g in s'.files ensures FileCounted(s', g) {
      assert FileCounted(s, g);
      SameLive(s, s', g);
    }
  }
}
