/**
The serving protocol as a transition system.  Each event is one handler sub-step of socket.c,
cache_req.c, cache.c or cache_file.c; steps of different requests interleave in any order.
*/
module Protocol {
  import opened CInts
  import opened Options
  import opened TableLog
  import opened CacheState

  datatype Event =
    // cache_file.c
    | Access(uri: Uri, now: int)
    | Create(t: Thread, uri: Uri, content: seq<byte>, evictable: bool, now: int)
    | Reset(t: Thread, uri: Uri)
    // cache.c, stage 30: the request is linked and counted, then the early fill
    | Setup(t: Thread, socket: int, uri: Uri)
    | EarlyFill(r: ReqId, ok: bool)
    // fill_cache_headers, one event for each shared write
    | SkipHeaders(r: ReqId)
    | SendHeaders(r: ReqId, text: seq<byte>)
    | SizeHeaders(r: ReqId)
    | ShowHeaders(r: ReqId)
    | EmbedChunk(r: ReqId)
    | ShowEmbedded(r: ReqId)
    // the choice at cache.c:429
    | SendOwnHeaders(r: ReqId)
    | TakeHeaders(r: ReqId)
    // socket_serve_req_splice: the fill, tee and splice of one iteration
    | Fill(r: ReqId, ok: bool)
    | Tee(r: ReqId, ok: bool)
    | Splice(r: ReqId, n: int)
    // curr_reqs_del
    | Delete(r: ReqId)

  // ----- pointers -----------------------------------------------------------------------------

  predicate ReqRefs(s: State, r: ReqId) {
    && r in s.reqs
    && var q := s.reqs[r];
    && q.buf in s.pipes && q.home in s.workers
    && q.file in s.files && s.files[q.file].headers in s.pipes
    && forall p <- s.files[q.file].chunks :: p in s.pipes
  }

  predicate CurrRef(s: State, r: ReqId) {
    ReqRefs(s, r) && s.reqs[r].curr.Some? && s.reqs[r].curr.value < |s.files[s.reqs[r].file].chunks|
  }

  function FileOf(s: State, r: ReqId): File
    requires ReqRefs(s, r)
  {
    s.files[s.reqs[r].file]
  }

  function BufOf(s: State, r: ReqId): Pipe
    requires ReqRefs(s, r)
  {
    s.pipes[s.reqs[r].buf]
  }

  function HeadersOf(s: State, r: ReqId): Pipe
    requires ReqRefs(s, r)
  {
    s.pipes[FileOf(s, r).headers]
  }

  function CurrOf(s: State, r: ReqId): PipeId
    requires CurrRef(s, r)
  {
    FileOf(s, r).chunks[s.reqs[r].curr.value]
  }

  // Where the next chunk of the file has to start for request `r`.
  function FillOffset(s: State, r: ReqId): int
    requires ReqRefs(s, r)
  {
    s.reqs[r].bytesOffset + BufOf(s, r).filled
  }

  // How many bytes cache_req_fill_curr wants in the current chunk.
  function FillLength(s: State, r: ReqId): int
    requires ReqRefs(s, r)
  {
    var off, size := FillOffset(s, r), |FileOf(s, r).content|;
    if off + PIPE_SIZE > size then size - off else PIPE_SIZE
  }

  // ----- cache_req.c --------------------------------------------------------------------------

  // `n` bytes of the mapping from `from` on; FillSafe below shows that they lie inside the file.
  function Mapped(content: seq<byte>, from: int, n: int): seq<byte> {
    if 0 <= from <= from + n <= |content| then content[from..from + n] else []
  }

  // The mk_bug checks of cache_req_fill_curr and pipe_buf_vmsplice pass, and the bytes copied
  // lie inside the file.
  ghost predicate FillSafe(s: State, r: ReqId)
    requires CurrRef(s, r)
  {
    var c, off, len := s.pipes[CurrOf(s, r)], FillOffset(s, r), FillLength(s, r);
    && 0 <= off <= |FileOf(s, r).content| && 0 <= len && 0 <= c.filled == |c.data|
    && (c.filled < len ==> len <= PIPE_SIZE && off + c.filled + (len - c.filled) <= |FileOf(s, r).content|)
  }

  // cache_req_fill_curr has bytes to put into the chunk, but the chunk's write_mutex is gone: the
  // call waits for ever.
  predicate Stalls(s: State, r: ReqId)
    requires CurrRef(s, r)
  {
    CurrOf(s, r) in s.locked && s.pipes[CurrOf(s, r)].filled < FillLength(s, r)
  }

  // The state after cache_req_fill_curr and its return value; `ok` is false when vmsplice blocks or
  // fails, which leaves the chunk's write_mutex locked.
  function FillCurr(s: State, r: ReqId, ok: bool): (State, int)
    requires CurrRef(s, r)
  {
    var p := CurrOf(s, r);
    var c := s.pipes[p];
    var off, len := FillOffset(s, r), FillLength(s, r);
    if c.filled == len then (s, 0)
    else if c.filled < len && ok then
      var c' := Pipe(c.data + Mapped(FileOf(s, r).content, c.filled + off, len - c.filled), len);
      (s.(pipes := s.pipes[p := c']), 0)
    else if c.filled < len then (s.(locked := s.locked + {p}), len - c.filled)
    else (s, len - c.filled)
  }

  function ReqNew(s: State, t: Thread): (State, ReqId)
    requires t in s.workers
    requires forall p <- s.workers[t].pipePool :: p in s.pipes
    requires forall r <- s.workers[t].reqPool :: r in s.reqs && s.reqs[r].buf in s.pipes
  {
    var w := s.workers[t];
    if w.reqPool != [] then
      var r := w.reqPool[0];
      var b := s.pipes[s.reqs[r].buf];
      var b' := if b.filled != 0 then Flushed(b) else b;
      (s.(pipes := s.pipes[s.reqs[r].buf := b'],
          workers := s.workers[t := w.(reqPool := w.reqPool[1..])]), r)
    else
      var (s', p) := PipeNew(s, t);
      var q := Req(-1, 0, None, 0, 0, p, t, Idle, false, []);
      (s'.(reqs := s'.reqs[s.nextReq := q], nextReq := s.nextReq + 1), s.nextReq)
  }

  // Releasing the pipes of a freed file, header pipe first.
  function PipesFree(s: State, t: Thread, ps: seq<PipeId>): (s': State)
    requires t in s.workers
    ensures SameLists(s, s')
    ensures s' == s.(pipes := s'.pipes, workers := s'.workers, memUsed := s'.memUsed)
    decreases |ps|
  {
    if ps == [] then s else PipesFree(PipeFree(s, t, ps[0]), t, ps[1..])
  }

  function FileFree(s: State, t: Thread, f: FileId): State
    requires t in s.workers && f in s.files
  {
    var file := s.files[f];
    PipesFree(s.(files := s.files - {f}, freed := s.freed + [f]), t, [file.headers] + file.chunks)
  }

  // Drop the reference a finished request holds on its file.
  function Release(s: State, t: Thread, f: FileId): (s': State)
    requires t in s.workers && f in s.files
    ensures SameLists(s, s') && s'.reqs == s.reqs
  {
    var file := s.files[f].(pending := s.files[f].pending - 1);
    var s1 := s.(files := s.files[f := file]);
    if file.zombie && file.pending == 0 then FileFree(s1, t, f) else s1
  }

  function ReqPark(s: State, r: ReqId): State
    requires r in s.reqs && s.reqs[r].home in s.workers
  {
    var t := s.reqs[r].home;
    var w := s.workers[t];
    if |w.reqPool| < CACHE_REQ_POOL_MAX then
      s.(workers := s.workers[t := w.(reqPool := w.reqPool + [r])])
    else
      PipeFree(s.(reqs := s.reqs - {r}), t, s.reqs[r].buf)
  }

  function ReqDel(s: State, r: ReqId): State
    requires r in s.reqs && s.reqs[r].home in s.workers && s.reqs[r].file in s.files
  {
    var q := s.reqs[r];
    var w := s.workers[q.home];
    var s1 := s.(workers := s.workers[q.home := w.(live := Remove(w.live, r))],
                 reqs := s.reqs[r := q.(phase := Idle)]);
    ReqPark(Release(s1, q.home, q.file), r)
  }

  // ----- cache_file.c -------------------------------------------------------------------------

  function PipesNew(s: State, t: Thread, n: nat): (r: (State, seq<PipeId>))
    requires t in s.workers
    requires forall p <- s.workers[t].pipePool :: p in s.pipes
    ensures |r.1| == n && SameLists(s, r.0)
    ensures t in r.0.workers && forall p <- r.0.workers[t].pipePool :: p in r.0.pipes
    ensures r.0 == s.(pipes := r.0.pipes, locked := r.0.locked, workers := r.0.workers, memUsed := r.0.memUsed,
                      nextPipe := r.0.nextPipe)
  {
    if n == 0 then (s, [])
    else
      var (s1, ps) := PipesNew(s, t, n - 1);
      var (s2, p) := PipeNew(s1, t);
      (s2, ps + [p])
  }

  // A new file: the header pipe first, then as many empty chunk pipes as the size needs.
  function FileNew(s: State, t: Thread, uri: Uri, content: seq<byte>, evictable: bool, now: int): State
    requires t in s.workers
    requires forall p <- s.workers[t].pipePool :: p in s.pipes
  {
    var (s1, ps) := PipesNew(s, t, 1 + ChunkCount(|content|));
    var file := File(uri, content, ps[1..], ps[0], 0, [], None, evictable, now, false, 0);
    s1.(files := s1.files[s.nextFile := file], nextFile := s.nextFile + 1,
        table := [Entry(uri, s.nextFile)] + s1.table)
  }

  function FileReset(s: State, t: Thread, uri: Uri): State
    requires t in s.workers
    requires Lookup(s.table, uri).Some? ==> Lookup(s.table, uri).value in s.files
  {
    match Lookup(s.table, uri)
    case None => s
    case Some(f) =>
      var s1 := s.(table := Drop(s.table, uri), files := s.files[f := s.files[f].(zombie := true)]);
      if s.files[f].pending == 0 then FileFree(s1, t, f) else s1
  }

  // ----- invariants ---------------------------------------------------------------------------

  datatype Slot = HeaderOf(f: FileId) | ChunkOf(f: FileId, k: nat) | BufferOf(r: ReqId) | PooledBy(t: Thread) | InHand

  // The place `slot` refers to pipe `p`.
  ghost predicate Holds(s: State, held: seq<PipeId>, slot: Slot, p: PipeId) {
    match slot
    case HeaderOf(f) => f in s.files && s.files[f].headers == p
    case ChunkOf(f, k) => f in s.files && k < |s.files[f].chunks| && s.files[f].chunks[k] == p
    case BufferOf(r) => r in s.reqs && s.reqs[r].buf == p
    case PooledBy(t) => t in s.workers && p in s.workers[t].pipePool
    case InHand => p in held
  }

  ghost predicate NoDup<T(!new)>(s: seq<T>) {
    forall i, j :: 0 <= i < j < |s| ==> s[i] != s[j]
  }

  // `owner` assigns every live pipe the one place that refers to it; `held` are pipes a handler
  // has in hand while it builds or frees a file.
  ghost predicate OwnedBy(s: State, held: seq<PipeId>, owner: map<PipeId, Slot>) {
    && owner.Keys == s.pipes.Keys
    && InHandOwned(held, owner)
    && (forall f <- s.files :: FileOwned(s.files[f], f, owner))
    && (forall r <- s.reqs :: OwnerIs(owner, s.reqs[r].buf, BufferOf(r)))
    && (forall t <- s.workers :: PoolOwned(s.workers[t].pipePool, t, owner))
    && (forall p <- owner :: Holds(s, held, owner[p], p))
  }

  ghost predicate OwnerIs(owner: map<PipeId, Slot>, p: PipeId, slot: Slot) {
    p in owner && owner[p] == slot
  }

  ghost predicate InHandOwned(held: seq<PipeId>, owner: map<PipeId, Slot>) {
    NoDup(held) && forall p <- held :: OwnerIs(owner, p, InHand)
  }

  ghost predicate FileOwned(file: File, f: FileId, owner: map<PipeId, Slot>) {
    && OwnerIs(owner, file.headers, HeaderOf(f))
    && forall k :: 0 <= k < |file.chunks| ==> OwnerIs(owner, file.chunks[k], ChunkOf(f, k))
  }

  ghost predicate PoolOwned(pool: seq<PipeId>, t: Thread, owner: map<PipeId, Slot>) {
    NoDup(pool) && forall p <- pool :: OwnerIs(owner, p, PooledBy(t))
  }

  ghost predicate Owned(s: State, held: seq<PipeId>) {
    exists owner :: OwnedBy(s, held, owner)
  }

  ghost predicate Writing(s: State, p: PipeId) {
    exists f :: f in s.files && s.files[f].headers == p && s.files[f].writer.Some?
  }

  // Every pipe is accounted for; only a header pipe being written may hold more than it counts.
  ghost predicate PipesOk(s: State) {
    && s.memUsed == Span(|s.pipes|)
    && (forall t <- s.workers :: |s.workers[t].pipePool| <= PIPE_BUF_POOL_MAX)
    && (forall p <- s.pipes :: p < s.nextPipe && 0 <= s.pipes[p].filled <= |s.pipes[p].data| <= PIPE_SIZE)
    && (forall p <- s.pipes :: s.pipes[p].filled == |s.pipes[p].data| || Writing(s, p))
  }

  ghost predicate ListsOk(s: State) {
    && (forall t <- s.workers :: WorkerOk(s, t))
    && (forall r <- s.reqs :: r < s.nextReq && Listed(s, r))
    && (forall r, r' | r in s.reqs && r' in s.reqs && r != r' :: SocketsApart(s.reqs[r], s.reqs[r']))
  }

  ghost predicate OnList(s: State, t: Thread, r: ReqId, idle: bool) {
    r in s.reqs && (s.reqs[r].phase == Idle) == idle && s.reqs[r].home == t
  }

  ghost predicate WorkerOk(s: State, t: Thread)
    requires t in s.workers
  {
    var w := s.workers[t];
    && NoDup(w.live) && NoDup(w.reqPool) && |w.reqPool| <= CACHE_REQ_POOL_MAX
    && (forall r <- w.live :: OnList(s, t, r, false))
    && (forall r <- w.reqPool :: OnList(s, t, r, true))
  }

  ghost predicate Listed(s: State, r: ReqId)
    requires r in s.reqs
  {
    var q := s.reqs[r];
    && q.home in s.workers
    && if q.phase == Idle then r in s.workers[q.home].reqPool else r in s.workers[q.home].live
  }

  // A thread serves at most one request on a socket.
  ghost predicate SocketsApart(q: Req, q': Req) {
    q.phase == Idle || q'.phase == Idle || q.home != q'.home || q.socket != q'.socket
  }

  // Reference counts, the table, and the life of a file.
  ghost predicate FilesOk(s: State) {
    && (forall f <- s.files :: FileCounted(s, f))
    && UniqueKeys(s.table)
    && (forall e <- s.table :: e.val in s.files && s.files[e.val].uri == e.key)
    && (forall r <- s.reqs :: s.reqs[r].phase != Idle ==> s.reqs[r].file in s.files)
    && NoDup(s.freed)
    && (forall f: FileId :: f in s.freed <==> f < s.nextFile && f !in s.files)
  }

  ghost predicate FileCounted(s: State, f: FileId)
    requires f in s.files
  {
    var file := s.files[f];
    && f < s.nextFile && file.pending == |LiveOn(s, f)|
    && (Entry(file.uri, f) in s.table <==> !file.zombie)
    && (file.zombie ==> 0 < file.pending)
  }

  ghost predicate ChunkRange(content: seq<byte>, k: int) {
    0 <= k && Span(k) < |content|
  }

  ghost predicate Complete(s: State, f: FileId, k: nat)
    requires f in s.files && k < |s.files[f].chunks| && ChunkRange(s.files[f].content, k)
  {
    var p := s.files[f].chunks[k];
    p in s.pipes && s.pipes[p].data == ChunkBytes(s.files[f].content, k)
  }

  ghost predicate ChunksOk(s: State, f: FileId)
    requires f in s.files
  {
    var file := s.files[f];
    && 0 < |file.content| <= INT_MAX
    && |file.chunks| == ChunkCount(|file.content|)
    && forall k :: 0 <= k < |file.chunks| ==>
         ChunkRange(file.content, k) && file.chunks[k] in s.pipes
         && (s.pipes[file.chunks[k]].data == [] || Complete(s, f, k))
  }

  // The whole file sits behind the headers in the header pipe.
  ghost predicate Embedded(s: State, f: FileId)
    requires f in s.files && ChunksOk(s, f)
  {
    var file := s.files[f];
    && |file.published| + |file.content| <= PIPE_SIZE && |file.chunks| == 1
    && Complete(s, f, 0)
  }

  ghost predicate HeadersOk(s: State, f: FileId)
    requires f in s.files && ChunksOk(s, f)
  {
    var file := s.files[f];
    && file.headers in s.pipes
    && |file.published| <= PIPE_SIZE
    && var h := s.pipes[file.headers];
    match file.writer
    case None =>
      if file.published == [] then h == EMPTY_PIPE
      else file.headerLen == |file.published| && h.filled == |h.data|
           && (h.data == file.published || (h.data == file.published + file.content && Embedded(s, f)))
    case Some(w) =>
      && file.published != []
      && w in s.reqs && s.reqs[w].file == f
      && match s.reqs[w].phase
         case PubSent => h == Pipe(file.published, 0)
         case PubSized => h == Pipe(file.published, 0) && file.headerLen == |file.published|
         case PubShown => h == Pipe(file.published, |file.published|) && file.headerLen == |file.published|
         case PubTeed(n) => h == Pipe(file.published + file.content, |file.published|) && n == |file.content|
                            && file.headerLen == |file.published| && Embedded(s, f)
         case _ => false
  }

  // What request `r` owes its client: the shared headers if it took them, then the file.
  function Response(s: State, r: ReqId): seq<byte>
    requires ReqRefs(s, r)
  {
    if s.reqs[r].cached then FileOf(s, r).published + FileOf(s, r).content else FileOf(s, r).content
  }

  ghost predicate Publishing(phase: Phase) {
    phase.PubSent? || phase.PubSized? || phase.PubShown? || phase.PubTeed?
  }

  ghost predicate Serving(phase: Phase) {
    phase == Head || phase == Ready || phase == Flush
  }

  ghost predicate StartOk(s: State, r: ReqId)
    requires ReqRefs(s, r)
  {
    var q := s.reqs[r];
    && q.bytesOffset == 0 && q.bytesToSend == |FileOf(s, r).content| && q.curr == Some(0)
    && BufOf(s, r) == EMPTY_PIPE && q.sent == [] && !q.cached
    && (Publishing(q.phase) ==> FileOf(s, r).writer == Some(r))
  }

  // Bytes sent and bytes waiting in the request's own pipe spell a prefix of the response.
  ghost predicate StreamOk(s: State, r: ReqId)
    requires ReqRefs(s, r)
  {
    var q, b := s.reqs[r], BufOf(s, r);
    && (q.cached ==> FileOf(s, r).published != [])
    && q.bytesOffset + q.bytesToSend == |FileOf(s, r).content|
    && b.filled == |b.data|
    && |Response(s, r)| - |q.sent| == q.bytesToSend
    && |q.sent| + |b.data| <= |Response(s, r)|
    && q.sent + b.data == Response(s, r)[..|q.sent| + |b.data|]
  }

  // Where the request stands in the chunk list: at the chunk that starts where its bytes end, or
  // with the whole file already taken out of the header pipe.
  ghost predicate CursorOk(s: State, r: ReqId)
    requires ReqRefs(s, r) && ChunksOk(s, s.reqs[r].file)
  {
    var q, file := s.reqs[r], FileOf(s, r);
    match q.curr
    case None => FillOffset(s, r) == |file.content|
    case Some(k) =>
      && k < |file.chunks|
      && (FillOffset(s, r) == Span(k)
          || (q.cached && |file.chunks| == 1 && FillOffset(s, r) == |file.content| && Complete(s, q.file, 0)))
  }

  ghost predicate ReqOk(s: State, r: ReqId)
    requires r in s.reqs && ReqRefs(s, r) && ChunksOk(s, s.reqs[r].file)
  {
    var q := s.reqs[r];
    if Serving(q.phase) then
      && StreamOk(s, r) && CursorOk(s, r)
      && (q.phase == Ready ==>
            && q.curr.Some? && q.curr.value < |FileOf(s, r).chunks| && BufOf(s, r).filled == 0
            && FillOffset(s, r) == Span(q.curr.value) && Complete(s, q.file, q.curr.value))
    else StartOk(s, r)
  }

  ghost predicate ContentOk(s: State) {
    && (forall f <- s.files :: ChunksOk(s, f) && HeadersOk(s, f))
    && (forall r <- s.reqs :: s.reqs[r].phase != Idle ==> ReqRefs(s, r) && ReqOk(s, r))
  }

  ghost predicate Inv(s: State) {
    Owned(s, []) && PipesOk(s) && ListsOk(s) && FilesOk(s) && ContentOk(s)
  }

  ghost predicate Init(s: State) {
    && s.pipes == map[] && s.locked == {} && s.files == map[] && s.reqs == map[] && s.table == [] && s.memUsed == 0
    && s.nextFile == 0 && s.freed == []
    && forall t <- s.workers :: s.workers[t] == Worker([], [], [])
  }

  // ----- steps --------------------------------------------------------------------------------

  predicate Enabled(s: State, e: Event) {
    match e
    case Access(_, _) => true
    case Create(t, uri, content, _, _) =>
      t in s.workers && Lookup(s.table, uri).None? && 0 < |content| <= INT_MAX
    case Reset(t, _) => t in s.workers
    case Setup(t, socket, uri) =>
      t in s.workers && Lookup(s.table, uri).Some?
      && (forall r <- s.workers[t].live :: r in s.reqs ==> s.reqs[r].socket != socket)
    case EarlyFill(r, _) => CurrRef(s, r) && s.reqs[r].phase == Arrived && !Stalls(s, r)
    case SkipHeaders(r) =>
      ReqRefs(s, r) && s.reqs[r].phase == Fresh && (HeadersOf(s, r).filled != 0 || !HeadersFree(s, r))
    case SendHeaders(r, text) =>
      ReqRefs(s, r) && s.reqs[r].phase == Fresh && HeadersOf(s, r).filled == 0 && HeadersFree(s, r)
      && 0 < |text| <= PIPE_SIZE
    case SizeHeaders(r) => r in s.reqs && s.reqs[r].phase == PubSent
    case ShowHeaders(r) => r in s.reqs && s.reqs[r].phase == PubSized
    case EmbedChunk(r) => r in s.reqs && s.reqs[r].phase == PubShown
    case ShowEmbedded(r) => r in s.reqs && s.reqs[r].phase.PubTeed?
    case SendOwnHeaders(r) => r in s.reqs && s.reqs[r].phase == Decide
    case TakeHeaders(r) => ReqRefs(s, r) && s.reqs[r].phase == Decide && HeadersOf(s, r).filled != 0
    case Fill(r, _) =>
      ReqRefs(s, r) && s.reqs[r].phase == Head && LoopGuard(s, r) && !(CurrRef(s, r) && Stalls(s, r))
    case Tee(r, _) => CurrRef(s, r) && s.reqs[r].phase == Ready
    case Splice(r, n) => ReqRefs(s, r) && s.reqs[r].phase == Flush && 0 <= n <= BufOf(s, r).filled
      && n <= |BufOf(s, r).data|
    case Delete(r) => r in s.reqs && s.reqs[r].phase == Head
  }

  // The trylock at cache.c:167 succeeds: nobody is writing the headers, and no earlier use of the
  // pipe as a chunk has left its mutex locked.
  predicate HeadersFree(s: State, r: ReqId)
    requires ReqRefs(s, r)
  {
    FileOf(s, r).writer.None? && FileOf(s, r).headers !in s.locked
  }

  // socket.c:33
  predicate LoopGuard(s: State, r: ReqId)
    requires ReqRefs(s, r)
  {
    s.reqs[r].bytesToSend > 0 && (s.reqs[r].curr.Some? || BufOf(s, r).filled != 0)
  }

  // Every pointer a handler follows is valid.
  predicate Linked(s: State) {
    && (forall t <- s.workers ::
          && (forall p <- s.workers[t].pipePool :: p in s.pipes)
          && (forall r <- s.workers[t].reqPool :: r in s.reqs && s.reqs[r].buf in s.pipes && s.reqs[r].home == t))
    && (forall f <- s.files :: s.files[f].chunks != [] && s.files[f].headers in s.pipes
          && forall p <- s.files[f].chunks :: p in s.pipes)
    && (forall r <- s.reqs :: s.reqs[r].phase != Idle ==> ReqRefs(s, r) && (s.reqs[r].curr.Some? ==> CurrRef(s, r)))
    && (forall e <- s.table :: e.val in s.files)
  }

  lemma LookupIsEntry(table: seq<Entry<FileId>>, key: Uri)
    ensures match Lookup(table, key)
            case Some(f) => Entry(key, f) in table
            case None => forall e <- table :: e.key != key
  {
    if table != [] && table[0].key != key {
      LookupIsEntry(table[1..], key);
      assert forall e <- table :: e == table[0] || e in table[1..];
    }
  }

  function WithReq(s: State, r: ReqId, q: Req): State {
    s.(reqs := s.reqs[r := q])
  }

  // A request object for a client of file `f`, on the thread's list and counted by the file.
  function Admit(s: State, t: Thread, socket: int, f: FileId): (State, ReqId)
    requires Linked(s) && t in s.workers && f in s.files
  {
    var (s1, r) := ReqNew(s, t);
    var q := s1.reqs[r].(socket := socket, file := f, curr := Some(0), bytesOffset := 0,
                         bytesToSend := |s.files[f].content|, phase := Arrived, cached := false, sent := []);
    var w := s1.workers[t];
    (s1.(reqs := s1.reqs[r := q], workers := s1.workers[t := w.(live := w.live + [r])],
         files := s1.files[f := s1.files[f].(pending := s1.files[f].pending + 1)]), r)
  }

  function EarlyFillStep(s: State, r: ReqId, ok: bool): State
    requires CurrRef(s, r)
  {
    WithReq(FillCurr(s, r, ok).0, r, s.reqs[r].(phase := Fresh))
  }

  function WriteHeaders(s: State, r: ReqId, text: seq<byte>): State
    requires ReqRefs(s, r)
  {
    var f, h := FileOf(s, r), HeadersOf(s, r);
    WithReq(s, r, s.reqs[r].(phase := PubSent)).(
      pipes := s.pipes[f.headers := h.(data := h.data + text)],
      files := s.files[s.reqs[r].file := f.(writer := Some(r), published := text)])
  }

  // The header length becomes what the pipe reports to hold.
  function MeasureHeaders(s: State, r: ReqId): State
    requires ReqRefs(s, r)
  {
    WithReq(s, r, s.reqs[r].(phase := PubSized)).(
      files := s.files[s.reqs[r].file := FileOf(s, r).(headerLen := |HeadersOf(s, r).data|)])
  }

  function PublishHeaders(s: State, r: ReqId): State
    requires ReqRefs(s, r)
  {
    WithReq(s, r, s.reqs[r].(phase := PubShown)).(
      pipes := s.pipes[FileOf(s, r).headers := HeadersOf(s, r).(filled := FileOf(s, r).headerLen)])
  }

  // tee of `n` bytes out of `from`
  function Teed(from: Pipe, n: int): seq<byte> {
    if 0 <= n <= |from.data| then from.data[..n] else from.data
  }

  function EmbedFirst(s: State, r: ReqId): State
    requires ReqRefs(s, r) && FileOf(s, r).chunks != []
  {
    var f, h := FileOf(s, r), HeadersOf(s, r);
    var first := s.pipes[f.chunks[0]];
    if PIPE_SIZE - h.filled > first.filled && first.filled != 0 then
      var bytes := Teed(first, first.filled);
      WithReq(s, r, s.reqs[r].(phase := PubTeed(|bytes|))).(
        pipes := s.pipes[f.headers := h.(data := h.data + bytes)])
    else
      WithReq(s, r, s.reqs[r].(phase := Decide)).(files := s.files[s.reqs[r].file := f.(writer := None)])
  }

  function PublishEmbedded(s: State, r: ReqId): State
    requires ReqRefs(s, r) && s.reqs[r].phase.PubTeed?
  {
    var f, h := FileOf(s, r), HeadersOf(s, r);
    WithReq(s, r, s.reqs[r].(phase := Decide)).(
      pipes := s.pipes[f.headers := h.(filled := h.filled + s.reqs[r].phase.ret)],
      files := s.files[s.reqs[r].file := f.(writer := None)])
  }

  function ServeHeaders(s: State, r: ReqId): State
    requires ReqRefs(s, r)
  {
    var q, b := s.reqs[r], BufOf(s, r);
    var bytes := Teed(HeadersOf(s, r), HeadersOf(s, r).filled);
    WithReq(s, r, q.(bytesOffset := q.bytesOffset - FileOf(s, r).headerLen,
                     bytesToSend := q.bytesToSend + FileOf(s, r).headerLen, phase := Head, cached := true)).(
      pipes := s.pipes[q.buf := Pipe(b.data + bytes, b.filled + |bytes|)])
  }

  function FillStep(s: State, r: ReqId, ok: bool): State
    requires ReqRefs(s, r) && (s.reqs[r].curr.Some? ==> CurrRef(s, r))
  {
    if s.reqs[r].curr.None? then WithReq(s, r, s.reqs[r].(phase := Flush))
    else
      var (s1, ret) := FillCurr(s, r, ok);
      WithReq(s1, r, s.reqs[r].(phase := if ret == 0 && s1.pipes[s.reqs[r].buf].filled == 0 then Ready else Flush))
  }

  function TeeStep(s: State, r: ReqId, ok: bool): State
    requires CurrRef(s, r)
  {
    var q, b, c := s.reqs[r], BufOf(s, r), s.pipes[CurrOf(s, r)];
    if !ok then WithReq(s, r, q.(phase := Flush))
    else
      var bytes := Teed(c, c.filled);
      var next := if q.curr.value + 1 == |FileOf(s, r).chunks| then None else Some(q.curr.value + 1);
      WithReq(s, r, q.(phase := Flush, curr := next)).(
        pipes := s.pipes[q.buf := Pipe(b.data + bytes, b.filled + |bytes|)])
  }

  function SpliceStep(s: State, r: ReqId, n: nat): State
    requires ReqRefs(s, r) && n <= |BufOf(s, r).data|
  {
    var q, b := s.reqs[r], BufOf(s, r);
    WithReq(s, r, q.(phase := Head, bytesToSend := q.bytesToSend - n, bytesOffset := q.bytesOffset + n,
                     sent := q.sent + b.data[..n])).(
      pipes := s.pipes[q.buf := Pipe(b.data[n..], b.filled - n)])
  }

  function Touch(s: State, uri: Uri, now: int): State
    requires Linked(s)
  {
    LookupIsEntry(s.table, uri);
    match Lookup(s.table, uri)
    case None => s
    case Some(f) => s.(files := s.files[f := s.files[f].(lastAccessed := now)])
  }

  function FileStep(s: State, e: Event): State
    requires Linked(s) && Enabled(s, e) && (e.Access? || e.Create? || e.Reset? || e.Setup?)
  {
    LookupIsEntry(s.table, e.uri);
    match e
    case Access(uri, now) => Touch(s, uri, now)
    case Create(t, uri, content, evictable, now) => FileNew(s, t, uri, content, evictable, now)
    case Reset(t, uri) => FileReset(s, t, uri)
    case Setup(t, socket, uri) => Admit(s, t, socket, Lookup(s.table, uri).value).0
  }

  // The steps from the publication of the headers to the choice which ones to send.
  predicate InHeaders(e: Event) {
    || e.SkipHeaders? || e.SendHeaders? || e.SizeHeaders? || e.ShowHeaders? || e.EmbedChunk? || e.ShowEmbedded?
    || e.SendOwnHeaders? || e.TakeHeaders?
  }

  function HeaderStep(s: State, e: Event): State
    requires Linked(s) && Enabled(s, e)
    requires InHeaders(e)
  {
    match e
    case SkipHeaders(r) => WithReq(s, r, s.reqs[r].(phase := Decide))
    case SendHeaders(r, text) => WriteHeaders(s, r, text)
    case SizeHeaders(r) => MeasureHeaders(s, r)
    case ShowHeaders(r) => PublishHeaders(s, r)
    case EmbedChunk(r) => EmbedFirst(s, r)
    case ShowEmbedded(r) => PublishEmbedded(s, r)
    case SendOwnHeaders(r) => WithReq(s, r, s.reqs[r].(phase := Head))
    case TakeHeaders(r) => ServeHeaders(s, r)
  }

  function Next(s: State, e: Event): State
    requires Linked(s) && Enabled(s, e)
  {
    if e.Access? || e.Create? || e.Reset? || e.Setup? then FileStep(s, e)
    else if e.EarlyFill? then EarlyFillStep(s, e.r, e.ok)
    else if e.Fill? then FillStep(s, e.r, e.ok)
    else if e.Tee? then TeeStep(s, e.r, e.ok)
    else if e.Splice? then SpliceStep(s, e.r, e.n)
    else if e.Delete? then ReqDel(s, e.r)
    else HeaderStep(s, e)
  }
}
