/**
The state shared by the handlers of the cache plugin: pipes, cached files, request objects,
the file table and the per-thread lists.  C pointers are identifiers into maps, and a pipe is
the byte sequence the kernel holds for it next to the `filled` counter the plugin keeps.
*/
module CacheState {
  import opened Options
  import opened TableLog

  newtype byte = b: int | 0 <= b < 256

  type PipeId = nat
  type FileId = nat
  type ReqId = nat
  type Thread = nat

  const PIPE_SIZE: int := 524288
  const PIPE_BUF_POOL_MAX: int := 16
  const CACHE_REQ_POOL_MAX: int := 32
  const MAX_FILE_IDLE: int := 5000

  // `data` is what the kernel pipe holds, `filled` is the counter in struct pipe_buf_t.
  datatype Pipe = Pipe(data: seq<byte>, filled: int)

  const EMPTY_PIPE := Pipe([], 0)

  // `published` records the header bytes written into the header pipe; `writer` is the request
  // holding that pipe's write_mutex.
  datatype File = File(
    uri: Uri, content: seq<byte>, chunks: seq<PipeId>, headers: PipeId, headerLen: int,
    published: seq<byte>, writer: Option<ReqId>,
    evictable: bool, lastAccessed: int, zombie: bool, pending: int)

  // Where a request stands in its handlers: Arrived when it is linked and counted, Fresh after the
  // early fill, Pub* while it writes the shared headers, Decide before it sends headers,
  // Head/Ready/Flush inside the serve loop (Head is also where it waits between events), Idle in the
  // pool.
  datatype Phase =
    | Idle | Arrived | Fresh | PubSent | PubSized | PubShown | PubTeed(ret: int) | Decide
    | Head | Ready | Flush

  // `home` is the thread whose lists hold the request; `sent` is everything spliced to the
  // socket for it, and `cached` tells whether it took the headers from the shared header pipe.
  datatype Req = Req(
    socket: int, file: FileId, curr: Option<nat>, bytesOffset: int, bytesToSend: int,
    buf: PipeId, home: Thread, phase: Phase, cached: bool, sent: seq<byte>)

  datatype Worker = Worker(live: seq<ReqId>, reqPool: seq<ReqId>, pipePool: seq<PipeId>)

  // `locked` are the pipes whose write_mutex was taken by a vmsplice that did not succeed: it is
  // never given back.
  datatype State = State(
    pipes: map<PipeId, Pipe>, locked: set<PipeId>, files: map<FileId, File>, reqs: map<ReqId, Req>,
    table: seq<Entry<FileId>>, workers: map<Thread, Worker>, memUsed: int,
    nextPipe: PipeId, nextFile: FileId, nextReq: ReqId, freed: seq<FileId>)

  // The capacity of `n` pipes: PIPE_SIZE * n, with the factor spelled out.
  function Span(n: int): int {
    n * 524288
  }

  function Min(a: int, b: int): int {
    if a < b then a else b
  }

  // Number of pipes the chunk-building loop creates for a file of `size` bytes.
  function ChunkCount(size: int): (n: nat)
    ensures 0 < size ==> Span(n - 1) < size <= Span(n)
    ensures size <= 0 ==> n == 0
    decreases if size < 0 then 0 else size
  {
    if size <= 0 then 0 else 1 + ChunkCount(size - PIPE_SIZE)
  }

  // The bytes of the file that belong in its k-th pipe.
  function ChunkBytes(content: seq<byte>, k: nat): (c: seq<byte>)
    requires Span(k) <= |content|
  {
    content[Span(k)..Min(Span(k + 1), |content|)]
  }

  function Remove<T(==)>(s: seq<T>, x: T): seq<T> {
    if s == [] then []
    else if s[0] == x then s[1..]
    else [s[0]] + Remove(s[1..], x)
  }

  // The requests a file must outlive.
  function LiveOn(s: State, f: FileId): set<ReqId> {
    set r | r in s.reqs && s.reqs[r].phase != Idle && s.reqs[r].file == f
  }

  // Only pipe pools may differ between the workers of the two states.
  ghost predicate SameLists(s: State, s': State) {
    && s'.workers.Keys == s.workers.Keys
    && forall u <- s.workers :: s'.workers[u].live == s.workers[u].live && s'.workers[u].reqPool == s.workers[u].reqPool
  }

  // ----- pipe_buf.c ---------------------------------------------------------------------------

  // Splicing `filled` bytes to /dev/null.
  function Flushed(p: Pipe): Pipe {
    var n := if 0 <= p.filled <= |p.data| then p.filled else |p.data|;
    Pipe(p.data[n..], p.filled - n)
  }

  function PipeNew(s: State, t: Thread): (r: (State, PipeId))
    requires t in s.workers
    requires forall p <- s.workers[t].pipePool :: p in s.pipes
    ensures SameLists(s, r.0)
  {
    var w := s.workers[t];
    if w.pipePool != [] then
      var p := w.pipePool[0];
      var q := if s.pipes[p].filled != 0 then Flushed(s.pipes[p]) else s.pipes[p];
      (s.(pipes := s.pipes[p := q], workers := s.workers[t := w.(pipePool := w.pipePool[1..])]), p)
    else
      (s.(pipes := s.pipes[s.nextPipe := EMPTY_PIPE], locked := s.locked - {s.nextPipe},
          nextPipe := s.nextPipe + 1, memUsed := s.memUsed + PIPE_SIZE), s.nextPipe)
  }

  function PipeFree(s: State, t: Thread, p: PipeId): (s': State)
    requires t in s.workers
    ensures SameLists(s, s')
    ensures s' == s.(pipes := s'.pipes, workers := s'.workers, memUsed := s'.memUsed)
  {
    var w := s.workers[t];
    if |w.pipePool| < PIPE_BUF_POOL_MAX then
      s.(workers := s.workers[t := w.(pipePool := w.pipePool + [p])])
    else
      s.(pipes := s.pipes - {p}, memUsed := s.memUsed - PIPE_SIZE)
  }
}
