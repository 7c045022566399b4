/**
The handlers as the plugin runs them: pools, file creation loops, the live-request list and the
serve loop, each proved to be the protocol step it stands for.
*/
module Server {
  import opened CInts
  import opened Options
  import opened TableLog
  import opened CacheState
  import opened Protocol
  import opened Runs
  import opened Steps
  import opened Stability
  import opened Guarantees
  import opened Limits
  import opened Calls
  import opened Answers
  import Creation
  import Headers
  import opened Lifecycle
  import Streams

  class Cache {
    var pipes: map<PipeId, Pipe>
    var locked: set<PipeId>
    var files: map<FileId, File>
    var reqs: map<ReqId, Req>
    var table: seq<Entry<FileId>>
    var workers: map<Thread, Worker>
    var memUsed: int
    var nextPipe: PipeId
    var nextFile: FileId
    var nextReq: ReqId
    var freed: seq<FileId>

    function Now(): State
      reads this
    {
      State(pipes, locked, files, reqs, table, workers, memUsed, nextPipe, nextFile, nextReq, freed)
    }

    ghost predicate Valid()
      reads this
    {
      Inv(Now())
    }

    // ----- pipe_buf.c -------------------------------------------------------------------------

    method PipeBufFlush(p: PipeId)
      requires p in pipes
      modifies `pipes
      ensures pipes == old(pipes)[p := Flushed(old(pipes)[p])]
      ensures old(pipes)[p].filled == |old(pipes)[p].data| ==> pipes[p] == EMPTY_PIPE
    {
      var res := if 0 <= pipes[p].filled <= |pipes[p].data| then pipes[p].filled else |pipes[p].data|;
      pipes := pipes[p := Pipe(pipes[p].data[res..], pipes[p].filled - res)];
    }

    method PipeBufNew(t: Thread) returns (p: PipeId)
      requires t in workers && forall q <- workers[t].pipePool :: q in pipes
      modifies this
      ensures (Now(), p) == PipeNew(old(Now()), t)
    {
      var w := workers[t];
      if w.pipePool != [] {
        p := w.pipePool[0];
        workers := workers[t := w.(pipePool := w.pipePool[1..])];
        if pipes[p].filled != 0 {
          PipeBufFlush(p);
        }
        assert pipes == old(pipes)[p := pipes[p]];
      } else {
        p := nextPipe;
        locked := locked - {p};
        nextPipe := nextPipe + 1;
        pipes := pipes[p := EMPTY_PIPE];
        memUsed := memUsed + PIPE_SIZE;
      }
    }

    method PipeBufFree(t: Thread, p: PipeId)
      requires t in workers
      modifies this
      ensures Now() == PipeFree(old(Now()), t, p)
    {
      var w := workers[t];
      if |w.pipePool| < PIPE_BUF_POOL_MAX {
        workers := workers[t := w.(pipePool := w.pipePool + [p])];
      } else {
        pipes := pipes - {p};
        memUsed := memUsed - PIPE_SIZE;
      }
    }

    // ----- cache_file.c -----------------------------------------------------------------------

    method CacheFileFree(t: Thread, f: FileId)
      requires t in workers && f in files
      modifies this
      ensures Now() == FileFree(old(Now()), t, f)
    {
      var file := files[f];
      files := files - {f};
      freed := freed + [f];
      ghost var start := Now();
      ghost var ps := [file.headers] + file.chunks;
      PipesFreeStep(start, t, ps);
      PipeBufFree(t, file.headers);
      hide PipesFree, PipeFree, FileFree;
      var i := 0;
      assert file.chunks[0..] == file.chunks == ps[1..];
      while i < |file.chunks|
        invariant 0 <= i <= |file.chunks| && t in workers
        invariant PipesFree(Now(), t, file.chunks[i..]) == PipesFree(start, t, ps)
      {
        assert file.chunks[i..][1..] == file.chunks[i + 1..];
        PipesFreeStep(Now(), t, file.chunks[i..]);
        PipeBufFree(t, file.chunks[i]);
        i := i + 1;
      }
      assert file.chunks[i..] == [];
      PipesFreeNone(Now(), t);
      FileFreeIs(old(Now()), t, f);
    }

    method FileTableReset(t: Thread, uri: Uri)
      requires t in workers && (Lookup(table, uri).Some? ==> Lookup(table, uri).value in files)
      modifies this
      ensures Now() == FileReset(old(Now()), t, uri)
    {
      match Lookup(table, uri) {
        case None =>
        case Some(f) =>
          table := Drop(table, uri);
          files := files[f := files[f].(zombie := true)];
          if files[f].pending == 0 {
            CacheFileFree(t, f);
          }
      }
    }

    // The pipes of a new file: one for headers, then one for each PIPE_SIZE of its bytes.
    method BuildPipes(t: Thread, size: int) returns (headers: PipeId, chunks: seq<PipeId>)
      requires t in workers && forall q <- workers[t].pipePool :: q in pipes
      modifies this
      ensures (Now(), [headers] + chunks) == PipesNew(old(Now()), t, 1 + ChunkCount(size))
    {
      ghost var s := Now();
      headers := PipeBufNew(t);
      chunks := [];
      OnePipe(s, t, headers);
      assert [headers] + chunks == [headers];
      var len := size;
      while len > 0
        invariant |chunks| + ChunkCount(len) == ChunkCount(size)
        invariant (Now(), [headers] + chunks) == PipesNew(s, t, 1 + |chunks|)
        invariant t in workers && forall q <- workers[t].pipePool :: q in pipes
        decreases len
      {
        var tmp := PipeBufNew(t);
        OneMorePipe(s, t, 1 + |chunks|);
        assert [headers] + (chunks + [tmp]) == ([headers] + chunks) + [tmp];
        chunks := chunks + [tmp];
        len := len - PIPE_SIZE;
      }
    }

    method BuildFile(t: Thread, uri: Uri, content: seq<byte>, evictable: bool, now: int) returns (f: FileId)
      requires t in workers && forall q <- workers[t].pipePool :: q in pipes
      modifies this
      ensures Now() == FileNew(old(Now()), t, uri, content, evictable, now) && f == old(nextFile)
      ensures f in files && files == old(files)[f := files[f]]
      ensures files[f].uri == uri && files[f].content == content && files[f].evictable == evictable
      ensures files[f].lastAccessed == now && files[f].pending == 0 && !files[f].zombie
    {
      hide PipesNew;
      var headers, chunks := BuildPipes(t, |content|);
      assert ([headers] + chunks)[1..] == chunks;
      f := nextFile;
      files := files[f := File(uri, content, chunks, headers, 0, [], None, evictable, now, false, 0)];
      nextFile := nextFile + 1;
      table := [Entry(uri, f)] + table;
    }

    // A failed stat, a directory or an empty file is not served; neither is a file that cannot be
    // opened or mapped, or whose mapping length does not fit an int.  A new file is evictable, and
    // counts as used now.
    method CacheFileNew(t: Thread, uri: Uri, stat: Option<seq<byte>>, opens: bool, maps: bool, page: nat, now: int)
      returns (f: Option<FileId>)
      requires Valid() && t in workers && page > 0
      modifies this
      ensures Valid() && t in workers
      ensures f == (if stat.None? || stat.value == [] then None
                    else if Lookup(old(table), uri).Some? then Lookup(old(table), uri)
                    else if !opens || !maps || MmapLen(|stat.value|, page) > INT_MAX then None
                    else Some(old(nextFile)))
      ensures Now() == (if f == Some(old(nextFile)) && Lookup(old(table), uri).None?
                        then FileNew(old(Now()), t, uri, stat.value, true, now) else old(Now()))
      ensures f.Some? ==> Lookup(table, uri) == f && f.value in files
      ensures f.Some? && Lookup(old(table), uri).None? ==>
                && f.value !in old(files) && files == old(files)[f.value := files[f.value]]
                && files[f.value].content == stat.value && files[f.value].evictable && files[f.value].lastAccessed == now
      ensures reqs == old(reqs) && workers[t].live == old(workers[t].live) && locked <= old(locked)
    {
      hide Inv, FileNew;
      LinkedPools(Now(), t);
      if stat.None? || stat.value == [] {
        return None;
      }
      f := Lookup(table, uri);
      if f.None? {
        if !opens {
          return None;
        }
        if !maps || MmapLen(|stat.value|, page) > INT_MAX {
          return None;
        }
        MmapCovers(|stat.value|, page);
        ghost var s := Now();
        CreatedListed(s, t, uri, stat.value, true, now);
        var g := BuildFile(t, uri, stat.value, true, now);
        f := Some(g);
      } else {
        ListedIsOld(Now(), uri, f.value);
      }
    }

    method CacheFileReset(t: Thread, uri: Uri)
      requires Valid() && t in workers
      modifies this
      ensures Valid() && Now() == AfterReset(old(Now()), t, uri)
      ensures Lookup(table, uri).None? && t in workers
    {
      hide Inv, FileFree;
      TableIsLive(Now(), uri);
      ResetInv(Now(), t, uri);
      ResetUnlists(Now(), t, uri);
      FileTableReset(t, uri);
    }

    // An upload replaces whatever the table had under the uri, and is never evicted.
    // It needs a temporary file that can be made, written and mapped; without one the old entry is
    // gone all the same.
    method CacheFileTmp(t: Thread, uri: Uri, content: seq<byte>, made: bool, written: bool, maps: bool, page: nat, now: int)
      returns (f: Option<FileId>)
      requires Valid() && t in workers && page > 0 && content != []
      modifies this
      ensures Valid()
      ensures f.Some? <==> made && written && maps && MmapLen(|content|, page) <= INT_MAX
      ensures var s1 := AfterReset(old(Now()), t, uri);
              && t in s1.workers && (forall q <- s1.workers[t].pipePool :: q in s1.pipes) &&
              Now() == if f.Some? then FileNew(s1, t, uri, content, false, now) else s1
      ensures f.Some? ==>
                && Lookup(table, uri) == f && f.value in files
                && files[f.value].content == content && !files[f.value].evictable && files[f.value].lastAccessed == now
    {
      hide Inv, FileNew, AfterReset;
      CacheFileReset(t, uri);
      LinkedPools(Now(), t);
      // The table has no entry left under the uri.
      assert Lookup(table, uri).None?;
      if !made || !written {
        return None;
      }
      if !maps || MmapLen(|content|, page) > INT_MAX {
        return None;
      }
      MmapCovers(|content|, page);
      CreatedListed(Now(), t, uri, content, false, now);
      var g := BuildFile(t, uri, content, false, now);
      f := Some(g);
    }

    // One timer tick: every entry present at its start is visited once, and just the evictable ones
    // that are idle for too long are reset: more than MAX_FILE_IDLE whole milliseconds.  `clock(i)` is
    // the time read at the i-th visit, in microseconds.
    method CacheFileTick(t: Thread, clock: nat -> int)
      requires Valid() && t in workers
      modifies this
      ensures Valid()
      ensures forall e <- table :: e in old(table)
      ensures forall i :: 0 <= i < |old(table)| ==>
                && old(table)[i].val in old(files)
                && (old(table)[i] !in table <==>
                      && old(files)[old(table)[i].val].evictable
                      && clock(i) - old(files)[old(table)[i].val].lastAccessed >= 5001000)
    {
      hide Inv, AfterReset, Expired;
      ghost var was := table;
      ghost var past := files;
      EntriesLive(Now());
      var todo := table;
      var i := 0;
      while i < |todo|
        invariant 0 <= i <= |todo| && todo == was && Valid() && t in workers && UniqueKeys(was)
        invariant forall e <- was :: e.val in past
        invariant forall e <- table :: e in was
        invariant forall j :: i <= j < |was| ==> was[j] in table && was[j].val in files && files[was[j].val] == past[was[j].val]
        invariant forall j :: 0 <= j < i ==> (was[j] in table <==> !Expired(past[was[j].val], clock(j)))
      {
        if Expired(files[todo[i].val], clock(i)) {
          ghost var s := Now();
          forall e | e in s.table && e.key != todo[i].key
            ensures e in AfterReset(s, t, todo[i].key).table
            ensures e.val in s.files && e.val in AfterReset(s, t, todo[i].key).files
            ensures AfterReset(s, t, todo[i].key).files[e.val] == s.files[e.val]
          {
            ResetSpares(s, t, todo[i].key, e);
          }
          ResetShrinks(s, t, todo[i].key);
          CacheFileReset(t, todo[i].key);
          LookupIsEntry(table, todo[i].key);
        }
        i := i + 1;
      }
      AllExpired(was, past, clock);
    }

    // ----- cache_req.c ------------------------------------------------------------------------

    method CacheReqNew(t: Thread) returns (r: ReqId)
      requires t in workers
      requires forall p <- workers[t].pipePool :: p in pipes
      requires forall i <- workers[t].reqPool :: i in reqs && reqs[i].buf in pipes
      modifies this
      ensures (Now(), r) == ReqNew(old(Now()), t)
    {
      var w := workers[t];
      if w.reqPool != [] {
        r := w.reqPool[0];
        workers := workers[t := w.(reqPool := w.reqPool[1..])];
        if pipes[reqs[r].buf].filled != 0 {
          PipeBufFlush(reqs[r].buf);
        }
        assert pipes == old(pipes)[reqs[r].buf := pipes[reqs[r].buf]];
      } else {
        var p := PipeBufNew(t);
        r := nextReq;
        reqs := reqs[r := Req(-1, 0, None, 0, 0, p, t, Idle, false, [])];
        nextReq := nextReq + 1;
      }
    }

    method CacheReqDel(r: ReqId)
      requires r in reqs && reqs[r].home in workers && reqs[r].file in files
      modifies this
      ensures Now() == ReqDel(old(Now()), r)
    {
      hide PipesFree;
      var q := reqs[r];
      var t := q.home;
      workers := workers[t := workers[t].(live := Remove(workers[t].live, r))];
      reqs := reqs[r := q.(phase := Idle)];
      files := files[q.file := files[q.file].(pending := files[q.file].pending - 1)];
      if files[q.file].zombie && files[q.file].pending == 0 {
        CacheFileFree(t, q.file);
      }
      var w := workers[t];
      if |w.reqPool| < CACHE_REQ_POOL_MAX {
        workers := workers[t := w.(reqPool := w.reqPool + [r])];
      } else {
        reqs := reqs - {r};
        PipeBufFree(t, q.buf);
      }
    }

    // ----- curr_reqs.c ------------------------------------------------------------------------

    method CurrReqsGet(t: Thread, socket: int) returns (r: Option<ReqId>)
      requires t in workers && forall i <- workers[t].live :: i in reqs
      ensures r.Some? ==> r.value in workers[t].live && reqs[r.value].socket == socket
      ensures r.None? ==> forall i <- workers[t].live :: reqs[i].socket != socket
    {
      var live := workers[t].live;
      var k := 0;
      while k < |live|
        invariant 0 <= k <= |live|
        invariant forall j :: 0 <= j < k ==> reqs[live[j]].socket != socket
      {
        if reqs[live[k]].socket == socket {
          return Some(live[k]);
        }
        k := k + 1;
      }
      r := None;
    }

    // The request on this socket, if the thread has one, is released.
    method CurrReqsDel(t: Thread, socket: int)
      requires t in workers && Valid()
      requires forall i <- workers[t].live :: i in reqs && (reqs[i].socket == socket ==> reqs[i].phase == Head)
      modifies this
      ensures Valid()
      ensures forall i <- old(workers[t].live) :: old(reqs)[i].socket == socket ==> Now() == ReqDel(old(Now()), i)
      ensures (forall i <- old(workers[t].live) :: old(reqs)[i].socket != socket) ==> Now() == old(Now())
    {
      hide Inv, ReqDel;
      OneOnSocket(Now(), t, socket);
      var live := workers[t].live;
      var k := 0;
      while k < |live|
        invariant 0 <= k <= |live| && Now() == old(Now())
        invariant forall j :: 0 <= j < k ==> reqs[live[j]].socket != socket
      {
        if reqs[live[k]].socket == socket {
          DeleteIsStep(Now(), live[k]);
          CacheReqDel(live[k]);
          return;
        }
        k := k + 1;
      }
    }

    // ----- socket.c ---------------------------------------------------------------------------

    method Perform(e: Event)
      requires Linked(Now()) && Enabled(Now(), e)
      modifies this
      ensures Now() == Next(old(Now()), e)
    {
      hide Next, Enabled, Linked;
      var s := Next(Now(), e);
      pipes, locked, files, reqs, table, workers := s.pipes, s.locked, s.files, s.reqs, s.table, s.workers;
      memUsed, nextPipe, nextFile, nextReq, freed := s.memUsed, s.nextPipe, s.nextFile, s.nextReq, s.freed;
    }

    // What everybody else does between two steps of `r`: any of their steps that are possible.
    method Others(r: ReqId, events: seq<Event>)
      requires Valid() && Active(Now(), r)
      modifies this
      ensures Valid() && r in reqs && reqs[r] == old(reqs[r]) && PipeKept(old(Now()), Now(), old(reqs[r].buf))
      ensures Moves(old(Now()), Now(), r, Quiet(events, UriOf(old(Now()), r)), NoRefusals(events))
      ensures events == [] ==> Now() == old(Now())
    {
      hide Inv, Next, Enabled, Linked, Moves, Quiet, NoRefusals;
      ghost var was := Now();
      MovesHere(was, r, Quiet(events, UriOf(was, r)), NoRefusals(events));
      ActiveIsLinked(was, r);
      var i := 0;
      while i < |events|
        invariant 0 <= i <= |events| && Valid() && Active(Now(), r) && (i == 0 ==> Now() == was)
        invariant reqs[r] == was.reqs[r] && PipeKept(was, Now(), was.reqs[r].buf)
        invariant Moves(was, Now(), r, Quiet(events, UriOf(was, r)), NoRefusals(events))
      {
        InvLinked(Now());
        if Enabled(Now(), events[i]) && !StepOf(events[i], r) {
          ghost var s := Now();
          OthersStep(s, events[i], r);
          Perform(events[i]);
          AfterOne(was, s, Now(), r, events, i);
        }
        i := i + 1;
      }
    }

    // cache_req_fill_curr.  `room` is the answer of vmsplice, false when it blocks or fails: then the
    // chunk's mutex stays locked.  With `stalled` the call waits for such a mutex and never returns.
    method CacheReqFillCurr(r: ReqId, room: bool) returns (ret: int, stalled: bool, ghost asked: Option<bool>)
      requires CurrRef(Now(), r)
      modifies `pipes, `locked
      ensures stalled == Stalls(old(Now()), r)
      ensures if stalled then Now() == old(Now()) else (Now(), ret) == FillCurr(old(Now()), r, room)
      ensures asked == if !stalled && old(pipes[CurrOf(Now(), r)].filled < FillLength(Now(), r)) then Some(room) else None
    {
      var q := reqs[r];
      var file := files[q.file];
      var curr := file.chunks[q.curr.value];
      var off := q.bytesOffset + pipes[q.buf].filled;
      var len := PIPE_SIZE;
      stalled, asked := false, None;
      if off + len > |file.content| {
        len := |file.content| - off;
      }
      if pipes[curr].filled == len {
        return 0, stalled, asked;
      }
      ret := 0;
      if pipes[curr].filled < len {
        if curr in locked {
          stalled := true;
          return;
        }
        asked := Some(room);
        if room {
          var filled := pipes[curr].filled;
          pipes := pipes[curr := Pipe(pipes[curr].data + Mapped(file.content, filled + off, len - filled),
                                      filled + (len - filled))];
        } else {
          locked := locked + {curr};
        }
      }
      ret := len - pipes[curr].filled;
    }

    // The condition of the `if` at socket.c:40.  The chunk is full afterwards, or empty and locked because
    // vmsplice was asked and refused; only then the request goes past the tee with an empty pipe.
    method FillForTee(r: ReqId, room: bool) returns (ready: bool, stalled: bool, ghost asked: Option<bool>)
      requires Valid() && ReqRefs(Now(), r) && reqs[r].phase == Head && LoopGuard(Now(), r)
      modifies this
      ensures Valid()
      ensures stalled ==> Now() == old(Now()) && Waits(Now(), r)
      ensures !stalled ==> Moves(old(Now()), Now(), r, true, room) && ReqRefs(Now(), r)
                           && reqs[r] == old(reqs[r]).(phase := if ready then Ready else Flush)
      ensures !stalled && reqs[r].curr.Some? ==> AtChunk(Now(), r, false) || (asked == Some(false) && AtChunk(Now(), r, true))
      ensures !stalled && !ready && BufOf(Now(), r).filled == 0 ==> asked == Some(false) && AtChunk(Now(), r, true)
      ensures asked.Some? ==> asked.value == room
      ensures room && NoneLocked(old(Now()), r) ==> !stalled
    {
      hide Inv, Moves, NoneLocked, Next, Linked, AtChunk;
      ghost var s := Now();
      ActiveIsLinked(s, r);
      ready, stalled, asked := false, false, None;
      if reqs[r].curr.None? {
        NoFill(s, r, room);
        FillStepSafe(s, r, room);
      } else {
        CurrLinked(s, r);
        WaitsNever(s, r);
        var ret;
        ret, stalled, asked := CacheReqFillCurr(r, room);
        if stalled {
          return;
        }
        FillStepSafe(s, r, room);
        FillRefused(s, r, room);
        FillLeaves(s, r, room);
        ready := ret == 0 && pipes[reqs[r].buf].filled == 0;
      }
      reqs := reqs[r := reqs[r].(phase := if ready then Ready else Flush)];
      assert Now() == FillStep(s, r, room);
    }

    // tee of the chunk into the request's pipe, and on to the next chunk
    method TeeCurr(r: ReqId, answer: Answer)
      requires Valid() && CurrRef(Now(), r) && reqs[r].phase == Ready
      modifies this
      ensures Valid() && Moves(old(Now()), Now(), r, true, true)
      ensures ReqRefs(Now(), r) && reqs[r].phase == Flush && reqs[r].bytesToSend == old(reqs[r].bytesToSend)
      ensures reqs[r].sent == old(reqs[r].sent) && Now() == TeeStep(old(Now()), r, answer == Moved)
      ensures if answer == Moved then TookChunk(old(Now()), Now(), r) && BufOf(Now(), r).filled != 0
              else reqs[r] == old(reqs[r]).(phase := Flush) && BufOf(Now(), r).filled == 0 && AtChunk(Now(), r, false)
    {
      hide Inv, Moves, NoneLocked, Next, Linked, TookChunk, AtChunk;
      ghost var s := Now();
      ActiveIsLinked(s, r);
      TeeStepSafe(s, r, answer == Moved);
      var q := reqs[r];
      var file := files[q.file];
      if answer == Moved {
        var chunk := pipes[file.chunks[q.curr.value]];
        var bytes := Teed(chunk, chunk.filled);
        pipes := pipes[q.buf := Pipe(pipes[q.buf].data + bytes, pipes[q.buf].filled + |bytes|)];
        var next := if q.curr.value + 1 == |file.chunks| then None else Some(q.curr.value + 1);
        reqs := reqs[r := q.(phase := Flush, curr := next)];
      } else {
        reqs := reqs[r := q.(phase := Flush)];
      }
      assert Now() == TeeStep(s, r, answer == Moved);
    }

    // splice from the request's pipe to the socket; with nothing in the pipe the loop is left without
    // asking the kernel
    method SpliceBuf(r: ReqId, kernel: Kernel) returns (answer: Answer, ghost asked: Option<Answer>)
      requires Valid() && ReqRefs(Now(), r) && reqs[r].phase == Flush
      modifies this
      ensures Valid() && Moves(old(Now()), Now(), r, true, true) && ReqRefs(Now(), r) && reqs[r].phase == Head
      ensures asked == if old(BufOf(Now(), r).filled) == 0 then None else Some(kernel.splice)
      ensures answer == if asked.None? then WouldBlock else kernel.splice
      ensures if answer == Moved
              then var b := old(BufOf(Now(), r)); var n := Min(b.filled, kernel.upTo);
                   && 0 < n <= |b.data| && Now() == SpliceStep(old(Now()), r, n)
              else Now() == old(Now()).(reqs := old(reqs)[r := old(reqs[r]).(phase := Head)])
    {
      hide Inv, Moves, Linked;
      ghost var s := Now();
      var q := reqs[r];
      var b := pipes[q.buf];
      SpliceReady(s, r);
      if b.filled == 0 {
        answer, asked := WouldBlock, None;
      } else {
        answer, asked := kernel.splice, Some(kernel.splice);
      }
      var n := if answer == Moved then Min(b.filled, kernel.upTo) else 0;
      SpliceSafe(s, r, n);
      if answer == Moved {
        pipes := pipes[q.buf := Pipe(b.data[n..], b.filled - n)];
        reqs := reqs[r := q.(phase := Head, bytesToSend := q.bytesToSend - n, bytesOffset := q.bytesOffset + n,
                             sent := q.sent + b.data[..n])];
        assert Now() == SpliceStep(s, r, n);
      } else {
        NothingTaken(s, r);
        reqs := reqs[r := q.(phase := Head)];
      }
    }

    // The first half of a turn, lines 38-76: with the pipe empty, fill the chunk and tee it.  The pipe is
    // empty after that only because vmsplice refused, or the tee moved nothing.
    method FillPipe(r: ReqId, others: nat -> seq<Event>, kernel: Kernel, k: nat)
      returns (broken: bool, stuck: bool, ghost room: Option<bool>, ghost teed: Option<Answer>)
      requires Valid() && ReqRefs(Now(), r) && reqs[r].phase == Head && LoopGuard(Now(), r)
      modifies this
      ensures Valid() && ReqRefs(Now(), r) && broken == (teed == Some(Failed))
      ensures Moves(old(Now()), Now(), r, AllQuiet(others, UriOf(old(Now()), r)), kernel.room && AllCalm(others))
      ensures stuck ==> Waits(Now(), r) && reqs[r].phase == Head
      ensures kernel.room && NoneLocked(old(Now()), r) ==> !stuck
      ensures !stuck ==>
                && reqs[r].phase == Flush && reqs[r].bytesToSend == old(reqs[r].bytesToSend)
                && reqs[r].sent == old(reqs[r].sent)
      ensures (room.Some? ==> room.value == kernel.room) && (teed.Some? ==> teed.value == kernel.tee)
      ensures !stuck && teed.Some? && teed.value != Moved ==> BufOf(Now(), r).filled == 0 && AtChunk(Now(), r, false)
      ensures !stuck && BufOf(Now(), r).filled == 0 ==>
                teed == Some(WouldBlock) || teed == Some(Failed) || (room == Some(false) && AtChunk(Now(), r, true))
    {
      hide Inv, Moves, Enabled, Linked, NoneLocked, Waits, LoopGuard, AllQuiet, AllCalm, NoRefusals, Quiet, AtChunk;
      hide TookChunk, TeeStep, PipeKept, BufOf;
      ghost var s := Now();
      ghost var quiet, calm := AllQuiet(others, UriOf(s, r)), kernel.room && AllCalm(others);
      broken, teed := false, None;
      HeadActive(s, r);
      MovesHere(s, r, quiet, calm);
      var ready;
      ready, stuck, room := FillForTee(r, kernel.room);
      if stuck {
        return;
      }
      MovesLess(s, Now(), r, true, kernel.room, quiet, calm);
      ghost var s1 := Now();
      Others(r, others(k));
      AfterOthers(s, s1, Now(), r, others, k, quiet, calm);
      AtChunkStays(s1, Now(), r, Quiet(others(k), UriOf(s1, r)), NoRefusals(others(k)));
      ActiveIsLinked(Now(), r);
      PipeStill(s1, Now(), r);
      if ready {
        CurrStays(Now(), r);
        ghost var s2 := Now();
        TeeCurr(r, kernel.tee);
        broken, teed := kernel.tee == Failed, Some(kernel.tee);
        AfterOwn(s, s2, Now(), r, quiet, calm);
        ghost var s3 := Now();
        Others(r, others(k + 1));
        AfterOthers(s, s3, Now(), r, others, k + 1, quiet, calm);
        AtChunkStays(s3, Now(), r, Quiet(others(k + 1), UriOf(s3, r)), NoRefusals(others(k + 1)));
        ActiveIsLinked(Now(), r);
        PipeStill(s3, Now(), r);
      }
    }

    // One turn of the loop: the pipe is filled if it is empty, and spliced to the socket, with everybody
    // else acting in between.
    method ServeOnce(r: ReqId, others: nat -> seq<Event>, kernel: Kernel, k: nat)
      returns (answer: Answer, stuck: bool, ghost asked: Asked)
      requires Valid() && ReqRefs(Now(), r) && reqs[r].phase == Head && LoopGuard(Now(), r)
      modifies this
      ensures Valid() && ReqRefs(Now(), r) && reqs[r].phase == Head
      ensures Moves(old(Now()), Now(), r, AllQuiet(others, UriOf(old(Now()), r)), kernel.room && AllCalm(others))
      ensures stuck ==> Waits(Now(), r)
      ensures kernel.room && NoneLocked(old(Now()), r) ==> !stuck
      ensures !stuck ==> Said(asked, kernel)
      ensures !stuck && answer == Moved ==>
                && asked.splice == Some(Moved) && asked.tee != Some(Failed)
                && reqs[r].bytesToSend < old(reqs[r].bytesToSend) && |old(reqs[r].sent)| < |reqs[r].sent|
      ensures !stuck && answer == Failed ==> Breaks(asked, Now(), r)
      ensures !stuck && answer == WouldBlock ==> Refuses(asked, Now(), r) && !Breaks(asked, Now(), r)
    {
      hide Inv, Moves, NoneLocked, Waits, LoopGuard, AllQuiet, AllCalm, AtChunk;
      ghost var s := Now();
      ghost var quiet, calm := AllQuiet(others, UriOf(s, r)), kernel.room && AllCalm(others);
      answer, asked := WouldBlock, Asked(None, None, None);
      var broken;
      ghost var room, teed, taken;
      broken, stuck, room, teed := FillPipe(r, others, kernel, k);
      if stuck {
        return;
      }
      ghost var s1 := Now();
      if broken {
        answer, asked := Failed, Asked(room, teed, None);
        LeaveLoop(r);
      } else {
        answer, taken := SpliceBuf(r, kernel);
        asked := Asked(room, teed, taken);
      }
      AfterOwn(s, s1, Now(), r, quiet, calm);
      MovesRefs(s1, Now(), r, true, true);
      if answer != Moved {
        AtChunkStays(s1, Now(), r, true, true);
      }
    }

    // The serve loop, with everybody else free to act between any two of its steps; `kernel(k)` is what
    // the kernel says in turn k.  Either it ends, and returns 0 just when the whole response is on the
    // socket, or it stands for ever at a chunk that is empty and locked.  With room for every fill, its
    // own and those of others, and no such chunk ahead, it ends; if tee and splice move something each
    // time it ends with everything sent.
    method SocketServeReqSplice(r: ReqId, others: nat -> seq<Event>, kernel: nat -> Kernel)
      returns (ret: int, failed: bool, stuck: bool, ghost asked: seq<Asked>)
      requires Valid() && r in reqs && reqs[r].phase == Head
      modifies this
      ensures Valid() && ReqRefs(Now(), r) && reqs[r].phase == Head
      ensures Moves(old(Now()), Now(), r, AllQuiet(others, UriOf(old(Now()), r)), Smooth(others, kernel))
      ensures Heard(asked, kernel, |old(reqs[r].sent)|, failed, stuck, Now(), r)
      ensures stuck ==> Waits(Now(), r)
      ensures !stuck ==> ret == if failed then -1 else ToInt32(reqs[r].bytesToSend)
      ensures !stuck && !failed ==> (ret == 0 <==> reqs[r].sent == Response(Now(), r))
      ensures Smooth(others, kernel) && NoneLocked(old(Now()), r) ==> !stuck
      ensures Smooth(others, kernel) && NoneLocked(old(Now()), r) && Willing(kernel) ==>
                !failed && ret == 0 && reqs[r].sent == Response(Now(), r)
    {
      hide Inv, Moves, Enabled, Linked, NoneLocked, Waits, Smooth, Willing, Response, AllQuiet, AllCalm, Said, Breaks;
      hide Refuses, Heard, SoFar, Progress;
      ghost var was := Now();
      ghost var quiet, calm := AllQuiet(others, UriOf(was, r)), Smooth(others, kernel);
      ghost var from := |was.reqs[r].sent|;
      failed, stuck, ret, asked := false, false, 0, [];
      HeadActive(was, r);
      MovesHere(was, r, quiet, calm);
      NothingAsked(kernel, was, r);
      SmoothAll(others, kernel);
      ghost var blocked := false;
      var k := 0;
      while reqs[r].bytesToSend > 0 && (reqs[r].curr.Some? || pipes[reqs[r].buf].filled != 0)
        invariant Valid() && ReqRefs(Now(), r) && reqs[r].phase == Head && k == |asked|
        invariant Moves(was, Now(), r, quiet, calm) && !stuck && !failed && !blocked
        invariant SoFar(asked, kernel, from, Now(), r)
        decreases reqs[r].bytesToSend
      {
        ghost var s := Now();
        ServingCounts(s, r);
        SmoothAt(others, kernel, k);
        StillClear(was, s, r, quiet, calm);
        // What is sent and what is left make up the file.
        assert reqs[r].bytesOffset + reqs[r].bytesToSend == |files[reqs[r].file].content|;
        var answer;
        ghost var turn;
        answer, stuck, turn := ServeOnce(r, others, kernel(k), 2 * k);
        AfterPart(was, s, Now(), r, others, others, quiet, calm, kernel(k).room && AllCalm(others));
        MovesUri(s, Now(), r, AllQuiet(others, UriOf(s, r)), kernel(k).room && AllCalm(others));
        if stuck {
          HeardWaiting(asked, kernel, from, s, Now(), r);
          return;
        }
        ServingCounts(Now(), r);
        // Never more is sent than there is.
        assert reqs[r].bytesToSend >= 0;
        if answer == Failed {
          HeardLast(asked, turn, kernel, from, true, s, Now(), r);
          ret, failed, asked := -1, true, asked + [turn];
          if calm && Willing(kernel) {
            WillingEnds(asked, others, kernel, from, true, Now(), r);
          }
          return;
        } else if answer == WouldBlock {
          HeardLast(asked, turn, kernel, from, false, s, Now(), r);
          asked, blocked := asked + [turn], true;
          break;
        }
        OneMore(asked, turn, kernel, from, s, Now(), r);
        asked, k := asked + [turn], k + 1;
      }
      ReturnsZeroWhenDone(Now(), r);
      if !blocked {
        AllSent(Now(), r);
        HeardAll(asked, kernel, from, Now(), r);
      }
      if calm && Willing(kernel) {
        WillingEnds(asked, others, kernel, from, false, Now(), r);
      }
      ret := ToInt32(reqs[r].bytesToSend);
    }

    // Leaving the loop after an error, with nothing sent.
    method LeaveLoop(r: ReqId)
      requires Valid() && ReqRefs(Now(), r) && reqs[r].phase == Flush
      modifies this
      ensures Valid() && Moves(old(Now()), Now(), r, true, true)
      ensures Now() == old(Now()).(reqs := old(reqs)[r := old(reqs[r]).(phase := Head)])
    {
      hide Inv, Moves;
      SpliceReady(Now(), r);
      SpliceSafe(Now(), r, 0);
      NothingTaken(Now(), r);
      reqs := reqs[r := reqs[r].(phase := Head)];
    }

    // ----- cache.c ----------------------------------------------------------------------------

    // serve_req and what its callers do with the answer: go on later, or release the request.
    // `served` is the moment of the answer, or of the wait that never ends.
    method ServeReq(t: Thread, r: ReqId, others: nat -> seq<Event>, kernel: nat -> Kernel)
      returns (more: bool, failed: bool, stuck: bool, ghost asked: seq<Asked>, ghost served: State)
      requires Valid() && r in reqs && reqs[r].phase == Head && reqs[r].home == t
      modifies this
      ensures Valid() && Inv(served) && ReqRefs(served, r) && served.reqs[r].phase == Head
      ensures Moves(old(Now()), served, r, AllQuiet(others, UriOf(old(Now()), r)), Smooth(others, kernel))
      ensures Heard(asked, kernel, |old(reqs[r].sent)|, failed, stuck, served, r)
      ensures stuck ==> Now() == served && Waits(served, r)
      ensures !stuck && more ==> Now() == served && !failed && 0 < served.reqs[r].bytesToSend <= INT_MAX
      ensures !stuck && !more ==> Now() == ReqDel(served, r)
      ensures !stuck && !more ==>
                failed || served.reqs[r].sent == Response(served, r) || served.reqs[r].bytesToSend > INT_MAX
      ensures Smooth(others, kernel) && NoneLocked(old(Now()), r) ==> !stuck
      ensures Smooth(others, kernel) && NoneLocked(old(Now()), r) && Willing(kernel) ==>
                !more && !failed && served.reqs[r].sent == Response(served, r)
    {
      hide Inv, Linked, Moves, Waits, Heard, Smooth, Willing, NoneLocked, AllQuiet, ReqDel;
      more := false;
      ghost var was := Now();
      var ret;
      ret, failed, stuck, asked := SocketServeReqSplice(r, others, kernel);
      served := Now();
      if stuck {
        return;
      }
      MovesHome(was, served, r, AllQuiet(others, UriOf(was, r)), Smooth(others, kernel));
      AnswerMeans(served, r);
      if ret <= 0 {
        OnOwnList(served, t, r);
        OneOnSocket(served, t, reqs[r].socket);
        CurrReqsDel(t, reqs[r].socket);
      } else {
        more := true;
      }
    }

    // A writable socket: serve its request, if the thread has one.
    method EventWrite(t: Thread, socket: int, others: nat -> seq<Event>, kernel: nat -> Kernel)
      returns (code: Return, failed: bool, ghost asked: seq<Asked>, ghost served: State)
      requires Valid() && t in workers
      requires forall i <- workers[t].live :: i in reqs && (reqs[i].socket == socket ==> reqs[i].phase == Head)
      modifies this
      ensures Valid()
      ensures code == EventNext <==> forall i <- old(workers[t].live) :: old(reqs)[i].socket != socket
      ensures code == EventNext || code == EventClose ==> Now() == old(Now())
      ensures forall r <- old(workers[t].live) :: old(reqs)[r].socket == socket ==>
                && (code == EventClose <==> old(reqs)[r].bytesToSend <= 0)
                && (code != EventClose ==>
                      && Moves(old(Now()), served, r, AllQuiet(others, UriOf(old(Now()), r)), Smooth(others, kernel))
                      && Heard(asked, kernel, |old(reqs)[r].sent|, failed, code == EventHangs, served, r)
                      && (Smooth(others, kernel) && NoneLocked(old(Now()), r) ==> code != EventHangs)
                      && (Smooth(others, kernel) && NoneLocked(old(Now()), r) && Willing(kernel) ==>
                            code == EventOwned && !failed && served.reqs[r].sent == Response(served, r)))
                && (code == EventContinue ==> Now() == served && !failed && 0 < served.reqs[r].bytesToSend <= INT_MAX)
                && (code == EventHangs ==> Now() == served && Waits(served, r))
                && (code == EventOwned ==>
                      && ReqRefs(served, r) && Now() == ReqDel(served, r)
                      && (failed || served.reqs[r].sent == Response(served, r) || served.reqs[r].bytesToSend > INT_MAX))
    {
      hide Inv, Linked, Moves, ReqDel, Waits, Heard, Smooth, Willing, NoneLocked, AllQuiet, Response;
      failed, asked := false, [];
      served := Now();
      OneOnSocket(Now(), t, socket);
      var found := CurrReqsGet(t, socket);
      if found.None? {
        return EventNext, failed, asked, served;
      }
      var r := found.value;
      OnOwnList(Now(), t, r);
      if reqs[r].bytesToSend <= 0 {
        return EventClose, failed, asked, served;
      }
      var more, stuck;
      more, failed, stuck, asked, served := ServeReq(t, r, others, kernel);
      code := if stuck then EventHangs else if more then EventContinue else EventOwned;
    }

    // A new request for the file: it counts as a reference before anything else happens to it.
    method AdmitRequest(t: Thread, socket: int, f: FileId) returns (r: ReqId)
      requires t in workers && f in files && Linked(Now())
      modifies this
      ensures (Now(), r) == Admit(old(Now()), t, socket, f)
      ensures t in workers && r in reqs && reqs[r].home == t && f in files
    {
      r := CacheReqNew(t);
      workers := workers[t := workers[t].(live := workers[t].live + [r])];
      reqs := reqs[r := reqs[r].(socket := socket, file := f, curr := Some(0), bytesOffset := 0,
                                 bytesToSend := |files[f].content|, phase := Arrived, cached := false, sent := [])];
      files := files[f := files[f].(pending := files[f].pending + 1)];
    }

    // Lines 398-413 of stage 30: a request on the thread's list, counted by its file, and the early
    // fill of its first chunk.  `admitted` is the moment between the two.
    method SetUpRequest(t: Thread, socket: int, uri: Uri, f: FileId, events: seq<Event>, room: bool)
      returns (r: ReqId, stuck: bool, ghost admitted: State)
      requires t in workers && Lookup(table, uri) == Some(f) && f in files && Linked(Now())
      requires forall i <- workers[t].live :: i in reqs && reqs[i].socket != socket
      requires Valid()
      modifies this
      ensures Valid() && (admitted, r) == Admit(old(Now()), t, socket, f) && Joined(old(Now()), admitted, f, r)
      ensures admitted.reqs[r].home == t && admitted.reqs[r].socket == socket
      ensures Moves(admitted, Now(), r, Quiet(events, UriOf(admitted, r)), room && NoRefusals(events))
      ensures old(r in reqs ==> reqs[r].phase == Idle) && r in reqs && reqs[r].home == t && reqs[r].socket == socket
      ensures if stuck then Waits(Now(), r) && reqs[r].phase == Arrived else reqs[r].phase == Fresh
      ensures room && NoRefusals(events) && NoneLocked(admitted, r) ==> !stuck
      ensures !stuck ==> f in files && (!EmptyChunk(Now(), f, 0) || (!room && LockedChunk(Now(), f, 0)))
    {
      hide Inv, Linked, ReqNew, Moves, Waits, NoneLocked, Quiet, NoRefusals, Next, Enabled, Shown, FileSame, LockedChunk;
      ghost var s := Now();
      AdmitSafe(s, t, socket, uri, f);
      r := AdmitRequest(t, socket, f);
      admitted := Now();
      Others(r, events);
      ghost var quiet, calm := Quiet(events, UriOf(admitted, r)), room && NoRefusals(events);
      MovesLess(admitted, Now(), r, quiet, NoRefusals(events), quiet, calm);
      ghost var s1 := Now();
      ArrivedRefs(s1, r);
      StillClear(admitted, s1, r, quiet, calm);
      var ret;
      ghost var asked;
      ret, stuck, asked := CacheReqFillCurr(r, room);
      if !stuck {
        reqs := reqs[r := reqs[r].(phase := Fresh)];
        EarlySafe(s1, r, room);
        EarlyFills(s1, r, room);
        assert Now() == EarlyFillStep(s1, r, room);
        MovesLess(s1, Now(), r, true, room, quiet, calm);
        MovesTwice(admitted, s1, Now(), r, quiet, calm);
      }
      MovesHome(admitted, Now(), r, quiet, calm);
    }

    // The shared writes of fill_cache_headers, one at a time.
    method SendText(r: ReqId, text: seq<byte>)
      requires Valid() && Enabled(Now(), SendHeaders(r, text))
      modifies this
      ensures Valid() && Moves(old(Now()), Now(), r, true, true)
      ensures ReqRefs(Now(), r) && reqs[r].phase == PubSent && FileOf(Now(), r).published == text
    {
      hide Inv, Moves, Enabled, Next, Linked;
      SendSafe(Now(), r, text);
      var f := reqs[r].file;
      var h := files[f].headers;
      pipes := pipes[h := pipes[h].(data := pipes[h].data + text)];
      files := files[f := files[f].(writer := Some(r), published := text)];
      reqs := reqs[r := reqs[r].(phase := PubSent)];
    }

    method MeasureText(r: ReqId)
      requires Valid() && r in reqs && reqs[r].phase == PubSent
      modifies this
      ensures Valid() && r in reqs && reqs[r].phase == PubSized && Moves(old(Now()), Now(), r, true, true)
    {
      hide Inv, Moves, Next, Enabled, Linked;
      PublisherStep(Now(), SizeHeaders(r), r);
      var f := reqs[r].file;
      files := files[f := files[f].(headerLen := |pipes[files[f].headers].data|)];
      reqs := reqs[r := reqs[r].(phase := PubSized)];
    }

    method ShowText(r: ReqId)
      requires Valid() && r in reqs && reqs[r].phase == PubSized
      modifies this
      ensures Valid() && Moves(old(Now()), Now(), r, true, true)
      ensures ReqRefs(Now(), r) && reqs[r].phase == PubShown && HeadersOf(Now(), r).filled != 0
    {
      hide Inv, Moves, Next, Enabled, Linked;
      PublisherStep(Now(), ShowHeaders(r), r);
      var f := reqs[r].file;
      var h := files[f].headers;
      pipes := pipes[h := pipes[h].(filled := files[f].headerLen)];
      reqs := reqs[r := reqs[r].(phase := PubShown)];
      NowShown(Now(), r);
    }

    method EmbedFirstChunk(r: ReqId) returns (teed: bool)
      requires Valid() && r in reqs && reqs[r].phase == PubShown
      modifies this
      ensures Valid() && r in reqs && Moves(old(Now()), Now(), r, true, true)
      ensures if teed then reqs[r].phase.PubTeed? else reqs[r].phase == Decide
    {
      hide Inv, Moves, Next, Enabled, Linked;
      PublisherStep(Now(), EmbedChunk(r), r);
      var f := reqs[r].file;
      var h := files[f].headers;
      var first := pipes[files[f].chunks[0]];
      var leftover := PIPE_SIZE - pipes[h].filled;
      teed := leftover > first.filled && first.filled != 0;
      if teed {
        var bytes := Teed(first, first.filled);
        pipes := pipes[h := pipes[h].(data := pipes[h].data + bytes)];
        reqs := reqs[r := reqs[r].(phase := PubTeed(|bytes|))];
      } else {
        files := files[f := files[f].(writer := None)];
        reqs := reqs[r := reqs[r].(phase := Decide)];
      }
    }

    method ShowChunk(r: ReqId)
      requires Valid() && r in reqs && reqs[r].phase.PubTeed?
      modifies this
      ensures Valid() && r in reqs && reqs[r].phase == Decide && Moves(old(Now()), Now(), r, true, true)
    {
      hide Inv, Moves, Next, Enabled, Linked;
      PublisherStep(Now(), ShowEmbedded(r), r);
      var f := reqs[r].file;
      var h := files[f].headers;
      pipes := pipes[h := pipes[h].(filled := pipes[h].filled + reqs[r].phase.ret)];
      files := files[f := files[f].(writer := None)];
      reqs := reqs[r := reqs[r].(phase := Decide)];
    }

    // The publisher's four writes after the text is in the pipe.
    method PublishText(r: ReqId, others: nat -> seq<Event>)
      requires Valid() && r in reqs && reqs[r].phase == PubSent
      modifies this
      ensures Valid() && r in reqs && reqs[r].phase == Decide && ReqRefs(Now(), r) && HeadersOf(Now(), r).filled != 0
      ensures Moves(old(Now()), Now(), r, AllQuiet(others, UriOf(old(Now()), r)), AllCalm(others))
    {
      hide Inv, Moves, AllQuiet, AllCalm, Quiet, NoRefusals;
      ghost var s := Now();
      ghost var quiet, calm := AllQuiet(others, UriOf(s, r)), AllCalm(others);
      MovesHere(s, r, quiet, calm);
      MeasureText(r);
      AfterOwn(s, s, Now(), r, quiet, calm);
      ghost var s1 := Now();
      Others(r, others(1));
      AfterOthers(s, s1, Now(), r, others, 1, quiet, calm);
      ghost var s2 := Now();
      ShowText(r);
      AfterOwn(s, s2, Now(), r, quiet, calm);
      ghost var shown := Now();
      MovesHere(shown, r, quiet, calm);
      MovesUri(s, shown, r, quiet, calm);
      Others(r, others(2));
      AfterOthers(shown, shown, Now(), r, others, 2, quiet, calm);
      ghost var s3 := Now();
      var teed := EmbedFirstChunk(r);
      AfterOwn(shown, s3, Now(), r, quiet, calm);
      if teed {
        ghost var s4 := Now();
        Others(r, others(3));
        AfterOthers(shown, s4, Now(), r, others, 3, quiet, calm);
        ghost var s5 := Now();
        ShowChunk(r);
        AfterOwn(shown, s5, Now(), r, quiet, calm);
      }
      HeadersLast(shown, Now(), r, quiet, calm);
      MovesTwice(s, shown, Now(), r, quiet, calm);
    }

    // Whoever finds the header pipe empty and free fills it with `text`.
    method FillCacheHeaders(r: ReqId, text: seq<byte>, others: nat -> seq<Event>)
      requires Valid() && ReqRefs(Now(), r) && reqs[r].phase == Fresh && 0 < |text| <= PIPE_SIZE
      modifies this
      ensures Valid() && ReqRefs(Now(), r) && reqs[r].phase == Decide
      ensures Moves(old(Now()), Now(), r, AllQuiet(others, UriOf(old(Now()), r)), AllCalm(others))
      ensures old(HeadersOf(Now(), r).filled == 0 && HeadersFree(Now(), r)) ==>
                FileOf(Now(), r).published == text && HeadersOf(Now(), r).filled != 0
    {
      hide Inv, Moves, AllQuiet, AllCalm, Quiet, NoRefusals, Enabled, Next, Linked;
      ghost var s := Now();
      ghost var quiet, calm := AllQuiet(others, UriOf(s, r)), AllCalm(others);
      MovesHere(s, r, quiet, calm);
      FreshChoice(s, r, text);
      var h := files[reqs[r].file].headers;
      if pipes[h].filled != 0 || files[reqs[r].file].writer.Some? || h in locked {
        reqs := reqs[r := reqs[r].(phase := Decide)];
        AfterOwn(s, s, Now(), r, quiet, calm);
      } else {
        SendText(r, text);
        AfterOwn(s, s, Now(), r, quiet, calm);
        ghost var sent := Now();
        MovesHere(sent, r, quiet, calm);
        MovesUri(s, sent, r, quiet, calm);
        Others(r, others(0));
        AfterOthers(sent, sent, Now(), r, others, 0, quiet, calm);
        ghost var s1 := Now();
        PublishText(r, others);
        ActiveIsLinked(Now(), r);
        AfterPart(sent, s1, Now(), r, others, others, quiet, calm, AllCalm(others));
        HeadersLast(sent, Now(), r, quiet, calm);
        MovesTwice(s, sent, Now(), r, quiet, calm);
      }
    }

    // serve_cache_headers: tee the shared headers and count them as part of the file.
    method ServeCacheHeaders(r: ReqId)
      requires Valid() && Enabled(Now(), TakeHeaders(r))
      modifies this
      ensures Valid() && r in reqs && reqs[r].phase == Head && reqs[r].cached && Moves(old(Now()), Now(), r, true, true)
    {
      hide Inv, Moves, Enabled, Next, Linked;
      TakeSafe(Now(), r);
      var q := reqs[r];
      var file := files[q.file];
      var bytes := Teed(pipes[file.headers], pipes[file.headers].filled);
      // The tee took at least the headers.
      TakesHeaders(Now(), r);
      assert |bytes| >= file.headerLen;
      pipes := pipes[q.buf := Pipe(pipes[q.buf].data + bytes, pipes[q.buf].filled + |bytes|)];
      reqs := reqs[r := q.(bytesOffset := q.bytesOffset - file.headerLen, bytesToSend := q.bytesToSend + file.headerLen,
                           phase := Head, cached := true)];
    }

    // The choice between Monkey's own headers and the shared ones; `chosen` is the state it is made in.
    method SendHead(r: ReqId, text: seq<byte>, last: bool, others: nat -> seq<Event>) returns (ghost chosen: State)
      requires Valid() && ReqRefs(Now(), r) && reqs[r].phase == Fresh && 0 < |text| <= PIPE_SIZE
      modifies this
      ensures Valid() && r in reqs && reqs[r].phase == Head
      ensures Moves(old(Now()), chosen, r, AllQuiet(others, UriOf(old(Now()), r)), AllCalm(others))
      ensures Moves(chosen, Now(), r, true, true)
      ensures ReqRefs(chosen, r) && chosen.reqs[r].phase == Decide
      ensures reqs[r].cached <==> !last && HeadersOf(chosen, r).filled != 0
      ensures old(HeadersOf(Now(), r).filled != 0) ==> HeadersOf(chosen, r).filled != 0
      ensures old(HeadersOf(Now(), r).filled == 0 && HeadersFree(Now(), r)) ==>
                FileOf(chosen, r).published == text && HeadersOf(chosen, r).filled != 0
    {
      hide Inv, Moves, Linked, AllQuiet, AllCalm, Quiet, NoRefusals, HeadersFree, Enabled, Next;
      ghost var s := Now();
      ghost var quiet, calm := AllQuiet(others, UriOf(s, r)), AllCalm(others);
      ActiveIsLinked(s, r);
      FillCacheHeaders(r, text, others);
      ghost var filled := Now();
      ActiveIsLinked(filled, r);
      Others(r, others(4));
      chosen := Now();
      AfterOthers(s, filled, chosen, r, others, 4, quiet, calm);
      HeadersLast(filled, chosen, r, Quiet(others(4), UriOf(filled, r)), NoRefusals(others(4)));
      HeadersLast(s, chosen, r, quiet, calm);
      StillPlain(chosen, r);
      HeadChoice(chosen, r);
      if last || pipes[files[reqs[r].file].headers].filled == 0 {
        reqs := reqs[r := reqs[r].(phase := Head)];
      } else {
        ServeCacheHeaders(r);
      }
    }

    // Headers, own or shared, and then the first serve call.  A request that may keep the connection
    // gets the shared headers if they are there, or if it can write them.
    method Respond(t: Thread, r: ReqId, text: seq<byte>, last: bool, others: nat -> seq<Event>, kernel: nat -> Kernel)
      returns (more: bool, failed: bool, stuck: bool, ghost asked: seq<Asked>, ghost chosen: State, ghost served: State)
      requires Valid() && ReqRefs(Now(), r) && reqs[r].phase == Fresh && reqs[r].home == t && 0 < |text| <= PIPE_SIZE
      modifies this
      ensures Valid() && Inv(served) && ReqRefs(served, r) && served.reqs[r].phase == Head
      ensures Moves(old(Now()), served, r, AllQuiet(others, UriOf(old(Now()), r)), Smooth(others, kernel))
      ensures Progress(old(Now()), chosen, r) && Progress(chosen, served, r) && chosen.reqs[r].phase == Decide
      ensures served.reqs[r].cached <==> !last && HeadersOf(chosen, r).filled != 0
      ensures !served.reqs[r].cached ==> Response(served, r) == old(FileOf(Now(), r).content)
      ensures !last && old(HeadersOf(Now(), r).filled != 0) ==>
                served.reqs[r].cached && Response(served, r) == old(FileOf(Now(), r).published + FileOf(Now(), r).content)
      ensures !last && old(HeadersOf(Now(), r).filled == 0 && HeadersFree(Now(), r)) ==>
                served.reqs[r].cached && Response(served, r) == text + old(FileOf(Now(), r).content)
      ensures Heard(asked, kernel, 0, failed, stuck, served, r)
      ensures stuck ==> Now() == served && Waits(served, r)
      ensures !stuck && more ==> Now() == served && !failed && 0 < served.reqs[r].bytesToSend <= INT_MAX
      ensures !stuck && !more ==> Now() == ReqDel(served, r)
      ensures !stuck && !more ==>
                failed || served.reqs[r].sent == Response(served, r) || served.reqs[r].bytesToSend > INT_MAX
      ensures Smooth(others, kernel) && NoneLocked(old(Now()), r) ==> !stuck
      ensures Smooth(others, kernel) && NoneLocked(old(Now()), r) && Willing(kernel) ==>
                !more && !failed && served.reqs[r].sent == Response(served, r)
    {
      hide Inv, Moves, ReqDel, Linked, Waits, Smooth, AllQuiet, AllCalm, Quiet, NoRefusals, Willing, NoneLocked, Heard;
      hide HeadersFree, Progress, Response, ReqRefs, FileOf, HeadersOf, UriOf;
      ghost var s0 := Now();
      ghost var quiet, calm := AllQuiet(others, UriOf(s0, r)), Smooth(others, kernel);
      SmoothAll(others, kernel);
      chosen := SendHead(r, text, last, others);
      ghost var s := Now();
      MovesLess(s0, chosen, r, quiet, AllCalm(others), quiet, calm);
      AfterOwn(s0, chosen, s, r, quiet, calm);
      HeadIsActive(s, r);
      Others(r, others(5));
      ghost var s1 := Now();
      AfterOthers(s0, s, s1, r, others, 5, quiet, calm);
      MovesHome(s0, s1, r, quiet, calm);
      StillClear(s0, s1, r, quiet, calm);
      var later := From(others, 6);
      FromOn(others, 6, kernel, UriOf(s0, r));
      more, failed, stuck, asked, served := ServeReq(t, r, later, kernel);
      AfterPart(s0, s1, served, r, others, later, quiet, calm, Smooth(later, kernel));
      HeardFrom(asked, kernel, |s1.reqs[r].sent|, failed, stuck, served, r);
      MovesUri(s0, chosen, r, quiet, AllCalm(others));
      Stretch(chosen, s, s1, served, r, Quiet(others(5), UriOf(s, r)), NoRefusals(others(5)),
              AllQuiet(later, UriOf(s1, r)), Smooth(later, kernel));
      Chosen(s0, chosen, served, r, text, last);
    }

    // Headers and the first serve call, for a request that joined those on file `f` in state `joined`;
    // `s` is the state before that.
    method FirstServe(t: Thread, socket: int, f: FileId, r: ReqId, text: seq<byte>, last: bool, others: nat -> seq<Event>,
                      kernel: nat -> Kernel, ghost s: State, ghost joined: State, ghost quiet: bool, ghost calm: bool)
      returns (code: StageReturn, failed: bool, ghost asked: seq<Asked>, ghost served: State)
      requires Valid() && ReqRefs(Now(), r) && reqs[r].phase == Fresh && reqs[r].home == t && 0 < |text| <= PIPE_SIZE
      requires Joined(s, joined, f, r) && Moves(joined, Now(), r, quiet, calm)
      requires joined.reqs[r].home == t && joined.reqs[r].socket == socket
      requires (quiet ==> AllQuiet(others, UriOf(joined, r))) && (calm ==> Smooth(others, kernel))
      modifies this
      ensures Valid() && Answered(s, served, f, r, last) && served.reqs[r].phase == Head
      ensures quiet ==> served.files[f].lastAccessed == s.files[f].lastAccessed
      ensures Heard(asked, kernel, 0, failed, code == StageHangs, served, r)
      ensures code == StageContinue || code == StageHangs || code == StageEnd
      ensures code == StageContinue ==> Now() == served && Kept(served, t, socket, r)
      ensures code == StageHangs ==> Now() == served && Waits(served, r)
      ensures code == StageEnd ==> Now() == ReqDel(served, r)
      ensures code == StageEnd ==>
                failed || served.reqs[r].sent == Response(served, r) || served.reqs[r].bytesToSend > INT_MAX
      ensures calm && NoneLocked(joined, r) ==>
                code != StageHangs && (Willing(kernel) ==> code == StageEnd && !failed && served.reqs[r].sent == Response(served, r))
    {
      hide Inv, Moves, ReqDel, Waits, Kept, Linked, Smooth, AllQuiet, Willing, NoneLocked, Heard, HeadersFree, Progress, Response;
      hide Answered, Joined, UriOf, HeadersOf, FileOf, ReqRefs;
      ghost var s0 := Now();
      StillClear(joined, s0, r, quiet, calm);
      MovesUri(joined, s0, r, quiet, calm);
      var more, stuck;
      ghost var chosen;
      more, failed, stuck, asked, chosen, served := Respond(t, r, text, last, others, kernel);
      AfterPart(joined, s0, served, r, others, others, quiet, calm, Smooth(others, kernel));
      AnsweredFull(s, joined, s0, served, f, r, last, quiet, calm);
      if stuck {
        code := StageHangs;
      } else if more {
        MovesHome(joined, served, r, quiet, calm);
        KeptFor(served, t, socket, r);
        code := StageContinue;
      } else {
        code := StageEnd;
      }
    }

    // Stage 30 once it has the file: set-up, headers and the first serve call.  `room` is the answer of
    // vmsplice to the early fill.
    method AnswerFrom(t: Thread, socket: int, uri: Uri, f: FileId, text: seq<byte>, last: bool,
                      others: nat -> seq<Event>, room: bool, kernel: nat -> Kernel)
      returns (code: StageReturn, failed: bool, ghost asked: seq<Asked>, ghost r: ReqId, ghost served: State)
      requires Valid() && t in workers && 0 < |text| <= PIPE_SIZE && Lookup(table, uri) == Some(f) && f in files
      requires forall i <- workers[t].live :: i in reqs && reqs[i].socket != socket
      modifies this
      ensures Valid() && code != StageNotMe
      ensures Answered(old(Now()), served, f, r, last)
      ensures AllQuiet(others, uri) ==> served.files[f].lastAccessed == old(files)[f].lastAccessed
      ensures served.reqs[r].phase == Head ==> Heard(asked, kernel, 0, failed, code == StageHangs, served, r)
      ensures code == StageContinue ==> Now() == served && Kept(served, t, socket, r)
      ensures code == StageHangs ==> Now() == served && Waits(served, r)
      ensures code == StageEnd ==> served.reqs[r].phase == Head && Now() == ReqDel(served, r)
      ensures code == StageEnd ==>
                failed || served.reqs[r].sent == Response(served, r) || served.reqs[r].bytesToSend > INT_MAX
      ensures room && Smooth(others, kernel) && (forall k: nat :: !LockedChunk(old(Now()), f, k)) ==>
                code != StageHangs && (Willing(kernel) ==> code == StageEnd && !failed && served.reqs[r].sent == Response(served, r))
    {
      hide Inv, Moves, ReqDel, Waits, Kept, Linked, Admit, Smooth, AllQuiet, AllCalm, Quiet, NoRefusals, Willing, NoneLocked;
      hide Heard, HeadersFree, Progress, Response, LockedChunk, Answered, Joined, UriOf, HeadersOf, FileOf, ReqRefs, From;
      failed, asked := false, [];
      ghost var s := Now();
      InvLinked(s);
      ListedFile(s, uri, f);
      ghost var calm := room && Smooth(others, kernel);
      SmoothAt(others, kernel, 0);
      var req, stuck;
      ghost var joined;
      req, stuck, joined := SetUpRequest(t, socket, uri, f, others(0), room);
      r, served := req, Now();
      JoinedAs(s, joined, f, r);
      ghost var quiet := AllQuiet(others, UriOf(joined, r));
      QuietAt(others, UriOf(joined, r), 0);
      MovesLess(joined, served, r, Quiet(others(0), UriOf(joined, r)), room && NoRefusals(others(0)), quiet, calm);
      if stuck {
        StillClear(joined, served, r, quiet, calm);
        AnsweredEarly(s, joined, served, f, r, last, quiet, calm);
        return StageHangs, failed, asked, r, served;
      }
      ActiveIsLinked(served, r);
      var later := From(others, 1);
      FromOn(others, 1, kernel, UriOf(joined, r));
      code, failed, asked, served := FirstServe(t, socket, f, req, text, last, later, kernel, s, joined, quiet, calm);
    }

    method CacheFileGet(uri: Uri, now: int) returns (f: Option<FileId>)
      requires Valid()
      modifies `files
      ensures Valid() && f == Lookup(table, uri) && (f.Some? ==> f.value in old(files))
      ensures files == if f.None? then old(files) else old(files)[f.value := old(files)[f.value].(lastAccessed := now)]
    {
      hide Inv;
      f := Lookup(table, uri);
      TableIsLive(Now(), uri);
      InvLinked(Now());
      StepInv(Now(), Access(uri, now));
      if f.Some? {
        files := files[f.value := files[f.value].(lastAccessed := now)];
      }
    }

    // The file for a request: the listed one for a GET, or the one on disk.  A GET counts as a use of
    // the file, and so does its creation.
    method FindFile(t: Thread, uri: Uri, get: bool, stat: Option<seq<byte>>, opens: bool, maps: bool, page: nat, now: int)
      returns (file: Option<FileId>)
      requires Valid() && t in workers && page > 0
      modifies this
      ensures Valid() && t in workers && reqs == old(reqs) && workers[t].live == old(workers[t].live)
      ensures file.None? <==>
                && !(get && Lookup(old(table), uri).Some?)
                && (stat.None? || stat.value == []
                    || (Lookup(old(table), uri).None? && (!opens || !maps || MmapLen(|stat.value|, page) > INT_MAX)))
      ensures file.None? ==> Now() == old(Now())
      ensures file.Some? ==>
                && Lookup(table, uri) == file && file.value in files
                && if Lookup(old(table), uri).Some? then
                     && file == Lookup(old(table), uri) && file.value in old(files)
                     && pipes == old(pipes) && locked == old(locked) && table == old(table)
                     && files == old(files)[file.value := if get then old(files)[file.value].(lastAccessed := now)
                                                          else old(files)[file.value]]
                   else
                     && file.value !in old(files) && files == old(files)[file.value := files[file.value]]
                     && files[file.value].content == stat.value && files[file.value].evictable
                     && files[file.value].lastAccessed == now && locked <= old(locked)
    {
      hide Inv, FileNew;
      file := None;
      if get {
        file := CacheFileGet(uri, now);
      }
      if file.None? {
        file := CacheFileNew(t, uri, stat, opens, maps, page, now);
      }
    }

    // Stage 30 without its dispatch on the uri.  `get` tells a GET request, `stat` what is on disk and
    // `opens`, `maps` whether it can be read, `text` the headers Monkey would write, `last` that the
    // connection may not be kept alive, `room` the answer of vmsplice to the early fill.  `found` is the
    // state once the file is found.
    method Stage30(t: Thread, socket: int, uri: Uri, get: bool, stat: Option<seq<byte>>, opens: bool, maps: bool,
                   page: nat, now: int, text: seq<byte>, last: bool, others: nat -> seq<Event>, room: bool,
                   kernel: nat -> Kernel)
      returns (code: StageReturn, failed: bool, ghost asked: seq<Asked>, ghost r: ReqId, ghost file: Option<FileId>,
               ghost found: State, ghost served: State)
      requires Valid() && t in workers && page > 0 && 0 < |text| <= PIPE_SIZE
      requires forall i <- workers[t].live :: i in reqs
      modifies this
      ensures Valid()
      // a socket that is being served already
      ensures (exists i :: i in old(workers[t].live) && old(reqs)[i].socket == socket) ==>
                code == StageContinue && file.None? && Now() == old(Now())
      // no file to serve
      ensures (forall i <- old(workers[t].live) :: old(reqs)[i].socket != socket) ==>
                && (code == StageNotMe <==> file.None?)
                && (code == StageNotMe <==>
                      && !(get && Lookup(old(table), uri).Some?)
                      && (stat.None? || stat.value == []
                          || (Lookup(old(table), uri).None? && (!opens || !maps || MmapLen(|stat.value|, page) > INT_MAX))))
      ensures code == StageNotMe ==> Now() == old(Now())
      // the file and the headers that are served, and its stamp
      ensures file.Some? ==> Lookup(found.table, uri) == file && Answered(found, served, file.value, r, last)
      ensures file.Some? && Lookup(old(table), uri).Some? ==>
                && Lookup(old(table), uri) == file && file.value in old(files)
                && found.pipes == old(pipes) && found.locked == old(locked)
                && FileFixed(old(files)[file.value], found.files[file.value])
      ensures file.Some? && Lookup(old(table), uri).None? ==>
                stat.Some? && found.files[file.value].content == stat.value && found.locked <= old(locked)
      ensures file.Some? && (get || Lookup(old(table), uri).None?) && AllQuiet(others, uri) ==>
                served.files[file.value].lastAccessed == now
      // what the first serve call comes to
      ensures file.Some? && served.reqs[r].phase == Head ==> Heard(asked, kernel, 0, failed, code == StageHangs, served, r)
      ensures file.Some? && room && Smooth(others, kernel) && (forall k: nat :: !LockedChunk(found, file.value, k)) ==>
                && code != StageHangs
                && (Willing(kernel) ==> code == StageEnd && !failed && served.reqs[r].sent == Response(served, r))
      ensures code == StageContinue && file.Some? ==> Now() == served && Kept(served, t, socket, r)
      ensures code == StageHangs ==> file.Some? && Now() == served && Waits(served, r)
      ensures code == StageEnd ==>
                && file.Some? && Now() == ReqDel(served, r)
                && (failed || served.reqs[r].sent == Response(served, r) || served.reqs[r].bytesToSend > INT_MAX)
    {
      hide Inv, ReqDel, Waits, Kept, Linked, Answered, Heard, AllQuiet, Smooth, Willing, LockedChunk, Response;
      r, file, found, served, failed, asked := 0, None, Now(), Now(), false, [];
      var first := CurrReqsGet(t, socket);
      if first.Some? {
        return StageContinue, failed, asked, r, file, found, served;
      }
      var f := FindFile(t, uri, get, stat, opens, maps, page, now);
      if f.None? {
        return StageNotMe, failed, asked, r, file, found, served;
      }
      file, found := f, Now();
      SocketStaysFree(old(Now()), t, socket, found);
      code, failed, asked, r, served := AnswerFrom(t, socket, uri, f.value, text, last, others, room, kernel);
      AnsweredRefs(found, served, f.value, r, last);
    }

    // A file that a GET found, or that was just created, is not evicted by a tick whose clock is within
    // the idle time, whatever happens in between that does not take the uri out of the table.
    method UsedFileStays(t: Thread, uri: Uri, get: bool, stat: Option<seq<byte>>, opens: bool, maps: bool, page: nat,
                         now: int, events: seq<Event>, clock: nat -> int)
      returns (file: Option<FileId>)
      requires Valid() && t in workers && page > 0
      requires forall e <- events :: !AsksFor(e, uri) && !(e.Reset? && e.uri == uri)
      requires forall i :: clock(i) - now < 5001000
      modifies this
      ensures Valid()
      ensures file.Some? && (get || Lookup(old(table), uri).None?) ==> Lookup(table, uri) == file
    {
      hide Inv, Linked, Enabled, Next, AsksFor, Lookup;
      file := FindFile(t, uri, get, stat, opens, maps, page, now);
      ghost var used := file.Some? && (get || Lookup(old(table), uri).None?);
      if file.Some? {
        ListedFile(Now(), uri, file.value);
      }
      var i := 0;
      while i < |events|
        invariant 0 <= i <= |events| && Valid() && t in workers
        invariant used ==> Lookup(table, uri) == file && file.value in files && files[file.value].lastAccessed == now
      {
        InvLinked(Now());
        if Enabled(Now(), events[i]) {
          if used {
            ListedStays(Now(), events[i], uri, file.value);
          }
          StepInv(Now(), events[i]);
          TableStep(Now(), events[i]);
          Perform(events[i]);
        }
        i := i + 1;
      }
      ghost var s := Now();
      CacheFileTick(t, clock);
      if used {
        EntriesLive(s);
        LookupIsEntry(s.table, uri);
        var j :| 0 <= j < |s.table| && s.table[j] == Entry(uri, file.value);
        StillListed(s.table, table, uri, file.value);
      }
    }
  }

  // With StageHangs and EventHangs the handler never gets to an answer.
  datatype StageReturn = StageContinue | StageNotMe | StageEnd | StageHangs

  datatype Return = EventNext | EventClose | EventOwned | EventContinue | EventHangs

  // The request waits on its thread's list for the next write event, with bytes left to send.
  ghost predicate Kept(s: State, t: Thread, socket: int, r: ReqId) {
    && Inv(s) && ReqRefs(s, r) && t in s.workers && r in s.workers[t].live
    && s.reqs[r].socket == socket && s.reqs[r].home == t && s.reqs[r].phase == Head
    && s.reqs[r].sent != Response(s, r) && 0 < s.reqs[r].bytesToSend <= INT_MAX
  }

  lemma {:induction false} KeptFor(s: State, t: Thread, socket: int, r: ReqId)
    requires Inv(s) && ReqRefs(s, r) && s.reqs[r].phase == Head && 0 < s.reqs[r].bytesToSend <= INT_MAX
    requires s.reqs[r].home == t && s.reqs[r].socket == socket
    ensures Kept(s, t, socket, r)
  {
    hide Inv;
    OnOwnList(s, t, r);
    ServingFacts(s, r);
  }

  // The request's pipe, empty before, holds the chunk it stood at, and curr is at the next one.
  ghost predicate TookChunk(s: State, s': State, r: ReqId) {
    && CurrRef(s, r) && ReqRefs(s', r) && BufOf(s, r) == EMPTY_PIPE
    && var k := s.reqs[r].curr.value;
       && ChunkRange(FileOf(s, r).content, k)
       && var chunk := ChunkBytes(FileOf(s, r).content, k);
       && BufOf(s', r) == Pipe(chunk, |chunk|)
       && s'.reqs[r].curr == if k + 1 == |FileOf(s, r).chunks| then None else Some(k + 1)
  }

  lemma {:induction false} TeeTakes(s: State, r: ReqId)
    requires CurrRef(s, r) && s.reqs[r].phase == Ready
    requires Inv(s)
    ensures TookChunk(s, TeeStep(s, r, true), r) && BufOf(TeeStep(s, r, true), r).filled != 0
  {
    hide Owned, PipesOk, ListsOk, FilesOk, ContentOk;
    ActiveRefs(s, r);
    Creation.ChunkIsPlain(s, r);
    Streams.BufferApart(s, r);
    TeeBuffer(s, r, TeeStep(s, r, true));
    ChunkSize(FileOf(s, r).content, s.reqs[r].curr.value);
  }

  lemma {:induction false} TeeLeaves(s: State, r: ReqId)
    requires CurrRef(s, r) && s.reqs[r].phase == Ready
    requires Inv(s)
    ensures BufOf(s, r).filled == 0 && AtChunk(TeeStep(s, r, false), r, false)
  {
    hide Owned, PipesOk, ListsOk, FilesOk, ContentOk;
    ActiveRefs(s, r);
    ChunkSize(FileOf(s, r).content, s.reqs[r].curr.value);
  }

  lemma {:induction false} TeeStepSafe(s: State, r: ReqId, ok: bool)
    requires Linked(s) && CurrRef(s, r) && s.reqs[r].phase == Ready
    requires Inv(s)
    ensures var s' := TeeStep(s, r, ok);
            && Inv(s') && Moves(s, s', r, true, true) && ReqRefs(s', r)
            && if ok then TookChunk(s, s', r) && BufOf(s', r).filled != 0
               else BufOf(s, r).filled == 0 && AtChunk(s', r, false)
  {
    hide Inv, Moves, Linked, Enabled, Next, TeeStep, TookChunk, CurrRef, AtChunk, Refused, AsksFor;
    TeePossible(s, r, ok);
    StepMoves(s, Tee(r, ok), r);
    MovesRefs(s, TeeStep(s, r, ok), r, true, true);
    if ok {
      TeeTakes(s, r);
    } else {
      TeeLeaves(s, r);
    }
  }

  lemma {:induction false} TeePossible(s: State, r: ReqId, ok: bool)
    requires Linked(s) && CurrRef(s, r) && s.reqs[r].phase == Ready
    ensures Enabled(s, Tee(r, ok)) && Next(s, Tee(r, ok)) == TeeStep(s, r, ok) && Active(s, r)
    ensures !Refused(Tee(r, ok)) && !AsksFor(Tee(r, ok), UriOf(s, r))
  {
    hide TeeStep;
  }

  lemma {:induction false} NoFill(s: State, r: ReqId, ok: bool)
    requires ReqRefs(s, r) && s.reqs[r].curr.None?
    ensures !Waits(s, r) && FillStep(s, r, ok) == WithReq(s, r, s.reqs[r].(phase := Flush))
  {
  }

  lemma {:induction false} FillStepSafe(s: State, r: ReqId, ok: bool)
    requires Linked(s) && ReqRefs(s, r) && s.reqs[r].phase == Head && LoopGuard(s, r) && !Waits(s, r)
    requires s.reqs[r].curr.Some? ==> CurrRef(s, r)
    requires Inv(s)
    ensures var s' := FillStep(s, r, ok);
            Inv(s') && Moves(s, s', r, true, ok) && ReqRefs(s', r)
  {
    hide Inv, Moves, Linked, Enabled, Next, FillStep, Waits, CurrRef, Refused, AsksFor;
    FillTaken(s, r, ok);
    StepMoves(s, Fill(r, ok), r);
    MovesRefs(s, FillStep(s, r, ok), r, true, ok);
  }

  lemma {:induction false} MovesRefs(s: State, s': State, r: ReqId, quiet: bool, calm: bool)
    requires Moves(s, s', r, quiet, calm)
    ensures Active(s, r) && Active(s', r) && ReqRefs(s, r) && ReqRefs(s', r) && s'.reqs[r].file == s.reqs[r].file
    ensures s.reqs[r].cached ==> s'.reqs[r].cached
    ensures Serving(s.reqs[r].phase) ==> Serving(s'.reqs[r].phase) && s'.reqs[r].cached == s.reqs[r].cached
  {
    hide NoneLocked, SameView, LocksStay;
  }

  lemma {:induction false} FillTaken(s: State, r: ReqId, ok: bool)
    requires Linked(s) && ReqRefs(s, r) && s.reqs[r].phase == Head && LoopGuard(s, r) && !Waits(s, r)
    ensures Enabled(s, Fill(r, ok)) && Next(s, Fill(r, ok)) == FillStep(s, r, ok) && Active(s, r)
    ensures Refused(Fill(r, ok)) == !ok && !AsksFor(Fill(r, ok), UriOf(s, r))
  {
    hide FillStep;
  }

  // With the request's pipe empty only a refusal keeps it from the tee, and that leaves the chunk locked.
  lemma {:induction false} FillRefused(s: State, r: ReqId, ok: bool)
    requires CurrRef(s, r) && s.reqs[r].phase == Head && LoopGuard(s, r) && !Stalls(s, r) && ReqRefs(FillStep(s, r, ok), r)
    requires Inv(s)
    ensures var s' := FillStep(s, r, ok);
            BufOf(s', r).filled == 0 && s'.reqs[r].phase != Ready ==>
              !ok && s.pipes[CurrOf(s, r)].filled < FillLength(s, r) && AtChunk(s', r, true)
  {
    hide Inv, LoopGuard, FillLength, Stalls, AtChunk;
    CurrIsApart(s, r);
    FillAnswer(s, r);
    NeedsFill(s, r);
    if s.pipes[CurrOf(s, r)].filled < FillLength(s, r) {
      if !ok {
        BlockedIs(s, r);
        BlockedAt(s, r);
      }
    } else {
      NothingToFill(s, r, ok);
    }
  }

  // Whatever the pipe holds, the fill leaves the chunk full, or empty and locked.
  lemma {:induction false} FillLeaves(s: State, r: ReqId, ok: bool)
    requires CurrRef(s, r) && s.reqs[r].phase == Head && LoopGuard(s, r) && !Stalls(s, r)
    requires Inv(s)
    ensures var s' := FillStep(s, r, ok);
            AtChunk(s', r, false)
            || (!ok && s.pipes[CurrOf(s, r)].filled < FillLength(s, r) && AtChunk(s', r, true))
  {
    hide Inv, LoopGuard, FillLength, Stalls, AtChunk, FillCurr;
    NeedsFill(s, r);
    FillKeepsCurr(s, r, ok);
    if s.pipes[CurrOf(s, r)].filled < FillLength(s, r) {
      if ok {
        FillOutcome(s, r);
        FullAt(FillStep(s, r, ok), r);
      } else {
        BlockedIs(s, r);
        BlockedAt(s, r);
      }
    } else {
      NothingToFill(s, r, ok);
      StillFull(s, FillStep(s, r, ok), r);
    }
  }

  lemma {:induction false} FillKeepsCurr(s: State, r: ReqId, ok: bool)
    requires CurrRef(s, r)
    ensures var s' := FillStep(s, r, ok);
            && CurrRef(s', r) && s'.reqs[r].file == s.reqs[r].file && s'.reqs[r].curr == s.reqs[r].curr
            && s'.files == s.files && (FillCurr(s, r, ok).0 == s ==> s'.pipes == s.pipes)
  {
  }

  lemma {:induction false} FullAt(s: State, r: ReqId)
    requires CurrRef(s, r) && !EmptyChunk(s, s.reqs[r].file, s.reqs[r].curr.value)
    ensures AtChunk(s, r, false)
  {
    hide CurrRef, EmptyChunk;
  }

  lemma {:induction false} StillFull(s: State, s': State, r: ReqId)
    requires CurrRef(s, r) && CurrRef(s', r) && s'.reqs[r].file == s.reqs[r].file && s'.reqs[r].curr == s.reqs[r].curr
    requires s'.files == s.files && s'.pipes == s.pipes && s.pipes[CurrOf(s, r)].data != []
    ensures AtChunk(s', r, false)
  {
  }

  lemma {:induction false} NothingToFill(s: State, r: ReqId, ok: bool)
    requires CurrRef(s, r) && s.pipes[CurrOf(s, r)].filled >= FillLength(s, r)
    ensures FillCurr(s, r, ok) == FillCurr(s, r, true) && FillCurr(s, r, ok).0 == s
  {
  }

  lemma {:induction false} BlockedAt(s: State, r: ReqId)
    requires CurrRef(s, r) && s.pipes[CurrOf(s, r)].data == []
    ensures AtChunk(s.(locked := s.locked + {CurrOf(s, r)}, reqs := s.reqs[r := s.reqs[r].(phase := Flush)]), r, true)
  {
  }

  // Where a request stands it stays while others act, and so does what is there.
  lemma {:induction false} AtChunkStays(s: State, s': State, r: ReqId, quiet: bool, calm: bool)
    requires Moves(s, s', r, quiet, calm) && s'.reqs[r].curr == s.reqs[r].curr
    ensures AtChunk(s, r, true) ==> AtChunk(s', r, true)
    ensures AtChunk(s, r, false) ==> AtChunk(s', r, false)
  {
    hide NoneLocked, LockedChunk, EmptyChunk;
  }

  // With no locked chunk ahead the fill does not wait.
  lemma {:induction false} WaitsNever(s: State, r: ReqId)
    requires Inv(s) && ReqRefs(s, r) && s.reqs[r].phase == Head && LoopGuard(s, r) && CurrRef(s, r)
    ensures Waits(s, r) <==> Stalls(s, r)
    ensures NoneLocked(s, r) ==> !Stalls(s, r)
  {
    hide Inv, NoneLocked, Stalls;
    if NoneLocked(s, r) {
      NotWaiting(s, r);
    }
  }

  lemma {:induction false} PipeStill(s: State, s': State, r: ReqId)
    requires ReqRefs(s, r) && ReqRefs(s', r) && s'.reqs[r].buf == s.reqs[r].buf && PipeKept(s, s', s.reqs[r].buf)
    ensures BufOf(s', r) == BufOf(s, r)
  {
    hide CurrRef;
  }

  lemma {:induction false} NothingAsked(kernel: nat -> Kernel, s: State, r: ReqId)
    requires ReqRefs(s, r)
    ensures SoFar([], kernel, |s.reqs[r].sent|, s, r)
  {
    hide ReqRefs;
  }

  lemma {:induction false} StillClear(s: State, s': State, r: ReqId, quiet: bool, calm: bool)
    requires Moves(s, s', r, quiet, calm)
    ensures calm && NoneLocked(s, r) ==> NoneLocked(s', r)
  {
    hide NoneLocked, Progress, SameView, LocksStay;
  }

  lemma {:induction false} SmoothAll(others: nat -> seq<Event>, kernel: nat -> Kernel)
    ensures Smooth(others, kernel) ==> AllCalm(others)
  {
    hide NoRefusals;
  }

  // A splice of nothing changes no more than the program counter.
  lemma {:induction false} NothingTaken(s: State, r: ReqId)
    requires ReqRefs(s, r)
    ensures SpliceStep(s, r, 0) == s.(reqs := s.reqs[r := s.reqs[r].(phase := Head)])
  {
    var q, b := s.reqs[r], BufOf(s, r);
    assert b.data[0..] == b.data && b.data[..0] == [] && q.sent + [] == q.sent;
    assert s.pipes[q.buf := Pipe(b.data[0..], b.filled - 0)] == s.pipes;
  }

  lemma {:induction false} ServingCounts(s: State, r: ReqId)
    requires Inv(s) && r in s.reqs && Serving(s.reqs[r].phase)
    ensures ReqRefs(s, r) && s.reqs[r].bytesToSend >= 0
    ensures s.reqs[r].bytesOffset + s.reqs[r].bytesToSend == |FileOf(s, r).content|
  {
    hide Inv;
    ServingFacts(s, r);
  }

  // The loop is left by its guard with everything sent.
  lemma {:induction false} AllSent(s: State, r: ReqId)
    requires Inv(s) && ReqRefs(s, r) && s.reqs[r].phase == Head && !LoopGuard(s, r)
    ensures s.reqs[r].sent == Response(s, r)
  {
    hide Inv;
    GuardMeansUnsent(s, r);
  }

  lemma {:induction false} HeadActive(s: State, r: ReqId)
    requires Inv(s) && r in s.reqs && s.reqs[r].phase == Head
    ensures Active(s, r) && ReqRefs(s, r)
  {
    hide Inv;
    ActiveInv(s, r);
  }

  // A request has joined those on file `f`, which is otherwise as it was.
  ghost predicate Joined(s: State, s': State, f: FileId, r: ReqId) {
    && f in s.files && Active(s', r) && ReqRefs(s', r) && s'.reqs[r].file == f
    && FileSame(s.files[f], FileOf(s', r)) && (Shown(s, f) ==> Shown(s', f) && s.files[f].published != [])
    && ((forall k: nat :: !LockedChunk(s, f, k)) ==> NoneLocked(s', r))
  }

  lemma {:induction false} JoinedAs(s: State, s': State, f: FileId, r: ReqId)
    requires Joined(s, s', f, r)
    ensures f in s.files && UriOf(s', r) == s.files[f].uri && s'.reqs[r].file == f
    ensures (forall k: nat :: !LockedChunk(s, f, k)) ==> NoneLocked(s', r)
  {
    hide LockedChunk, NoneLocked, Shown;
  }

  // The headers of the file can be taken.
  ghost predicate Shown(s: State, f: FileId) {
    f in s.files && s.files[f].headers in s.pipes && s.pipes[s.files[f].headers].filled != 0
  }

  lemma {:induction false} AdmitSafe(s: State, t: Thread, socket: int, uri: Uri, f: FileId)
    requires Linked(s) && t in s.workers && f in s.files && Lookup(s.table, uri) == Some(f)
    requires forall i <- s.workers[t].live :: i in s.reqs && s.reqs[i].socket != socket
    requires Inv(s)
    ensures var (s', r) := Admit(s, t, socket, f);
            && Inv(s') && Active(s', r) && s'.reqs[r].phase == Arrived && s'.reqs[r].home == t && s'.reqs[r].socket == socket
            && (r in s.reqs ==> s.reqs[r].phase == Idle) && Joined(s, s', f, r)
  {
    hide Inv, Linked, Admit, Joined;
    var (s', r) := Admit(s, t, socket, f);
    Creation.AdmitKeeps(s, t, socket, f, r, s');
    AdmittedIs(s, t, socket, f, r, s');
    AdmitIsStep(s, t, socket, uri, f);
    AdmitJoins(s, Setup(t, socket, uri), f, r, s');
  }

  lemma {:induction false} AdmitIsStep(s: State, t: Thread, socket: int, uri: Uri, f: FileId)
    requires Linked(s) && t in s.workers && f in s.files && Lookup(s.table, uri) == Some(f)
    requires forall i <- s.workers[t].live :: i in s.reqs && s.reqs[i].socket != socket
    ensures Enabled(s, Setup(t, socket, uri)) && Next(s, Setup(t, socket, uri)) == Admit(s, t, socket, f).0
  {
    hide Linked, Admit;
  }

  lemma {:induction false} AdmitJoins(s: State, e: Event, f: FileId, r: ReqId, s': State)
    requires Linked(s) && Enabled(s, e) && e.Setup? && s' == Next(s, e) && Inv(s')
    requires Creation.Admitted(s, e.t, e.socket, f, r, s') && Active(s', r)
    requires Inv(s)
    ensures Joined(s, s', f, r)
  {
    hide Inv, Linked, Enabled, Next, Creation.Admitted, FileSame, LockedChunk, Shown, NoneLocked;
    AdmittedFile(s, e.t, e.socket, f, r, s');
    ActiveIsLinked(s', r);
    AdmitShown(s, e, f);
    if forall k: nat :: !LockedChunk(s, f, k) {
      AdmitClear(s, e, f, r);
    }
  }

  lemma {:induction false} AdmitShown(s: State, e: Event, f: FileId)
    requires Linked(s) && Enabled(s, e) && f in s.files && f in Next(s, e).files
    requires Inv(s)
    ensures Shown(s, f) ==> Shown(Next(s, e), f) && s.files[f].published != []
  {
    hide Inv, Linked, Enabled, Next;
    if Shown(s, f) {
      VisibleStay(s, e, f);
      ShownHas(s, f);
    }
  }

  lemma {:induction false} AdmitClear(s: State, e: Event, f: FileId, r: ReqId)
    requires Linked(s) && Enabled(s, e) && e.Setup? && f in s.files && f in Next(s, e).files
    requires Active(Next(s, e), r) && Next(s, e).reqs[r].file == f && FileSame(s.files[f], Next(s, e).files[f])
    requires forall k: nat :: !LockedChunk(s, f, k)
    requires Inv(s)
    ensures NoneLocked(Next(s, e), r)
  {
    hide Inv, Linked, Enabled, Next, LockedAhead, LockedChunk;
    SetupShrinks(s, e);
    ChunksHere(s, f);
    forall k: nat ensures !LockedAhead(Next(s, e), r, k) {
      AheadIsLocked(Next(s, e), r, k);
      if LockedChunk(Next(s, e), f, k) {
        LockedBefore(s, e, f, k);
      }
    }
  }

  lemma {:induction false} AheadIsLocked(s: State, r: ReqId, k: nat)
    requires r in s.reqs
    ensures LockedAhead(s, r, k) ==> LockedChunk(s, s.reqs[r].file, k)
  {
  }

  lemma {:induction false} LockedBefore(s: State, e: Event, f: FileId, k: nat)
    requires Linked(s) && Enabled(s, e) && e.Setup? && f in s.files && LockedChunk(Next(s, e), f, k)
    requires f in Next(s, e).files && Next(s, e).files[f].chunks == s.files[f].chunks && Next(s, e).locked <= s.locked
    requires forall j :: 0 <= j < |s.files[f].chunks| ==> s.files[f].chunks[j] in s.pipes
    requires Inv(s)
    ensures LockedChunk(s, f, k)
  {
    hide Inv, Linked, Enabled, Next;
    PoolStepChunk(s, e, f, k);
  }

  lemma {:induction false} AdmittedFile(s: State, t: Thread, socket: int, f: FileId, r: ReqId, s': State)
    requires Creation.Admitted(s, t, socket, f, r, s')
    ensures f in s.files && f in s'.files && r in s'.reqs && s'.reqs[r].file == f && FileSame(s.files[f], s'.files[f])
  {
  }

  lemma {:induction false} AdmittedIs(s: State, t: Thread, socket: int, f: FileId, r: ReqId, s': State)
    requires Creation.Admitted(s, t, socket, f, r, s')
    requires Inv(s)
    ensures r in s'.reqs && s'.reqs[r].phase == Arrived && s'.reqs[r].home == t && s'.reqs[r].socket == socket
    ensures r in s.reqs ==> s.reqs[r].phase == Idle
  {
    hide Owned, PipesOk, FilesOk, ContentOk;
    Creation.PooledIdle(s, t, r);
  }

  lemma {:induction false} ArrivedRefs(s: State, r: ReqId)
    requires Inv(s) && Active(s, r) && s.reqs[r].phase == Arrived
    ensures CurrRef(s, r) && (Stalls(s, r) <==> Waits(s, r)) && (NoneLocked(s, r) ==> !Stalls(s, r))
  {
    ArrivedAt(s, r);
    hide Inv, NoneLocked, Stalls;
    if NoneLocked(s, r) {
      NotWaiting(s, r);
    }
  }

  lemma {:induction false} ArrivedAt(s: State, r: ReqId)
    requires Inv(s) && Active(s, r) && s.reqs[r].phase == Arrived
    ensures CurrRef(s, r) && (Stalls(s, r) <==> Waits(s, r))
  {
    hide Owned, PipesOk, ListsOk, FilesOk, ContentOk, Stalls;
    ActiveRefs(s, r);
  }

  lemma {:induction false} EarlySafe(s: State, r: ReqId, ok: bool)
    requires CurrRef(s, r) && s.reqs[r].phase == Arrived && !Stalls(s, r)
    requires Inv(s)
    ensures var s' := EarlyFillStep(s, r, ok); Inv(s') && Moves(s, s', r, true, ok)
  {
    hide Inv, Linked, Enabled, Next, Moves, EarlyFillStep, CurrRef, Refused, AsksFor, Stalls;
    InvLinked(s);
    EarlyPossible(s, r, ok);
    StepMoves(s, EarlyFill(r, ok), r);
  }

  // The early fill leaves the first chunk full, or empty and locked for a vmsplice that refused.
  lemma {:induction false} EarlyFills(s: State, r: ReqId, ok: bool)
    requires CurrRef(s, r) && s.reqs[r].phase == Arrived && !Stalls(s, r)
    requires Inv(s)
    ensures var s' := EarlyFillStep(s, r, ok);
            var f := s.reqs[r].file;
            f in s'.files && (!EmptyChunk(s', f, 0) || (!ok && LockedChunk(s', f, 0)))
  {
    AtFirst(s, r);
    NeedsFill(s, r);
    CurrIs(s, r);
    hide Inv, FillLength, FillOffset, Stalls, FillCurr;
    EarlyState(s, r, ok);
    if s.pipes[CurrOf(s, r)].data != [] {
      NothingToFill(s, r, ok);
    } else if ok {
      FilledFirst(s, r);
    } else {
      RefusedAtFirst(s, r);
    }
  }

  lemma {:induction false} AtFirst(s: State, r: ReqId)
    requires Inv(s) && r in s.reqs && s.reqs[r].phase == Arrived
    ensures s.reqs[r].curr == Some(0)
  {
    hide Owned, PipesOk, ListsOk, FilesOk, ContentOk;
    ActiveRefs(s, r);
  }

  lemma {:induction false} EarlyState(s: State, r: ReqId, ok: bool)
    requires CurrRef(s, r)
    ensures var s', s1 := EarlyFillStep(s, r, ok), FillCurr(s, r, ok).0;
            s'.pipes == s1.pipes && s'.files == s1.files == s.files && s'.locked == s1.locked
  {
  }

  lemma {:induction false} FilledFirst(s: State, r: ReqId)
    requires CurrRef(s, r) && s.reqs[r].phase == Arrived && s.pipes[CurrOf(s, r)].filled < FillLength(s, r)
    requires Inv(s)
    ensures CurrOf(s, r) in FillCurr(s, r, true).0.pipes && FillCurr(s, r, true).0.pipes[CurrOf(s, r)].data != []
  {
    hide Inv, StreamOk, CursorOk, ChunksOk, ChunkBytes, FillSafe, FillLength, FillOffset, FillCurr, Complete;
    CurrFacts(s, r);
    ChunkSize(FileOf(s, r).content, s.reqs[r].curr.value);
    NeedsFill(s, r);
    FillCases(s, r, true);
    ReturnsZero(s, r);
    CompleteIs(s, s.reqs[r].file, s.reqs[r].curr.value);
  }

  lemma {:induction false} ReturnsZero(s: State, r: ReqId)
    requires CurrRef(s, r) && s.pipes[CurrOf(s, r)].filled < FillLength(s, r)
    ensures FillCurr(s, r, true).1 == 0
  {
    hide Mapped;
  }

  lemma {:induction false} CompleteIs(s: State, f: FileId, k: nat)
    requires f in s.files && k < |s.files[f].chunks| && ChunkRange(s.files[f].content, k)
    ensures Complete(s, f, k) ==>
              s.files[f].chunks[k] in s.pipes && s.pipes[s.files[f].chunks[k]].data == ChunkBytes(s.files[f].content, k)
  {
  }

  lemma {:induction false} RefusedAtFirst(s: State, r: ReqId)
    requires CurrRef(s, r) && s.pipes[CurrOf(s, r)].filled < FillLength(s, r)
    ensures FillCurr(s, r, false).0 == s.(locked := s.locked + {CurrOf(s, r)})
  {
  }

  lemma {:induction false} EarlyPossible(s: State, r: ReqId, ok: bool)
    requires Linked(s) && CurrRef(s, r) && s.reqs[r].phase == Arrived && !Stalls(s, r)
    ensures Enabled(s, EarlyFill(r, ok)) && Next(s, EarlyFill(r, ok)) == EarlyFillStep(s, r, ok) && Active(s, r)
    ensures Refused(EarlyFill(r, ok)) == !ok && !AsksFor(EarlyFill(r, ok), UriOf(s, r))
  {
    hide EarlyFillStep;
  }

  lemma {:induction false} ProgressTrans(s: State, s1: State, s2: State, r: ReqId)
    requires Progress(s, s1, r) && Progress(s1, s2, r)
    ensures Progress(s, s2, r)
  {
  }

  // From the choice of the headers to the end of the call.
  lemma {:induction false} Stretch(chosen: State, s: State, s1: State, served: State, r: ReqId, q: bool, c: bool, q1: bool, c1: bool)
    requires Moves(chosen, s, r, true, true) && Moves(s, s1, r, q, c) && Moves(s1, served, r, q1, c1)
    requires s.reqs[r].phase == Head
    ensures Progress(chosen, served, r) && served.reqs[r].cached == s.reqs[r].cached
  {
    hide Moves, Progress;
    MovesRefs(chosen, s, r, true, true);
    MovesRefs(s, s1, r, q, c);
    MovesRefs(s1, served, r, q1, c1);
    MovesUri(chosen, s, r, true, true);
    MovesUri(s, s1, r, q, c);
    MovesUri(s1, served, r, q1, c1);
    ProgressTrans(chosen, s, s1, r);
    ProgressTrans(chosen, s1, served, r);
  }

  // Headers that are there stay there.
  lemma {:induction false} HeadersLast(s: State, s': State, r: ReqId, quiet: bool, calm: bool)
    requires Moves(s, s', r, quiet, calm)
    ensures ReqRefs(s, r) && ReqRefs(s', r) && FileOf(s', r).content == FileOf(s, r).content
    ensures HeadersOf(s, r).filled != 0 ==> HeadersOf(s', r).filled != 0
    ensures FileOf(s, r).published != [] ==> FileOf(s', r).published == FileOf(s, r).published
  {
    hide NoneLocked, SameView, LocksStay;
  }

  lemma {:induction false} VisibleHas(s: State, r: ReqId)
    requires Inv(s) && ReqRefs(s, r)
    ensures HeadersOf(s, r).filled != 0 ==> FileOf(s, r).published != []
  {
    hide Inv;
    ShownHas(s, s.reqs[r].file);
  }

  // What the request owes once the choice is made.
  lemma {:induction false} Chosen(s: State, chosen: State, served: State, r: ReqId, text: seq<byte>, last: bool)
    requires Inv(s) && Progress(s, chosen, r) && Progress(chosen, served, r) && text != []
    requires served.reqs[r].cached <==> !last && HeadersOf(chosen, r).filled != 0
    requires HeadersOf(s, r).filled == 0 && HeadersFree(s, r) ==>
               FileOf(chosen, r).published == text && HeadersOf(chosen, r).filled != 0
    ensures ReqRefs(served, r)
    ensures !served.reqs[r].cached ==> Response(served, r) == FileOf(s, r).content
    ensures !last && HeadersOf(s, r).filled != 0 ==>
              served.reqs[r].cached && Response(served, r) == FileOf(s, r).published + FileOf(s, r).content
    ensures !last && HeadersOf(s, r).filled == 0 && HeadersFree(s, r) ==>
              served.reqs[r].cached && Response(served, r) == text + FileOf(s, r).content
  {
    hide Inv, HeadersFree;
    ActiveInv(s, r);
    VisibleHas(s, r);
  }

  // A request as stage 30 leaves it: with its headers chosen as they should be, unless it waits before
  // that for ever.
  ghost predicate Answered(s: State, s': State, f: FileId, r: ReqId, last: bool) {
    && f in s.files && Inv(s') && ReqRefs(s', r) && s'.reqs[r].file == f
    && (s'.reqs[r].phase == Head || s'.reqs[r].phase == Arrived)
    && (s'.reqs[r].phase == Head ==>
          && (last ==> !s'.reqs[r].cached)
          && (!s'.reqs[r].cached ==> Response(s', r) == s.files[f].content)
          && (!last && Shown(s, f) ==> s'.reqs[r].cached && Response(s', r) == s.files[f].published + s.files[f].content))
  }

  lemma {:induction false} AnsweredRefs(s: State, s': State, f: FileId, r: ReqId, last: bool)
    requires Answered(s, s', f, r, last)
    ensures Inv(s') && ReqRefs(s', r) && s'.reqs[r].file == f
  {
    hide Inv, ReqRefs, Response;
  }

  lemma {:induction false} AnsweredEarly(s: State, admitted: State, served: State, f: FileId, r: ReqId, last: bool,
                                         quiet: bool, calm: bool)
    requires Joined(s, admitted, f, r) && Moves(admitted, served, r, quiet, calm) && Inv(served)
    requires served.reqs[r].phase == Arrived
    ensures Answered(s, served, f, r, last) && f in s.files && f in served.files
    ensures quiet ==> served.files[f].lastAccessed == s.files[f].lastAccessed
  {
    hide Inv, NoneLocked, SameView, LocksStay, Shown, Response;
  }

  lemma {:induction false} AnsweredFull(s: State, admitted: State, s0: State, served: State, f: FileId, r: ReqId, last: bool,
                                        quiet: bool, calm: bool)
    requires Joined(s, admitted, f, r) && Moves(admitted, s0, r, quiet, calm) && Moves(admitted, served, r, quiet, calm)
    requires Inv(served) && ReqRefs(served, r) && ReqRefs(s0, r) && served.reqs[r].phase == Head
    requires last ==> !served.reqs[r].cached
    requires !served.reqs[r].cached ==> Response(served, r) == FileOf(s0, r).content
    requires !last && HeadersOf(s0, r).filled != 0 ==>
               served.reqs[r].cached && Response(served, r) == FileOf(s0, r).published + FileOf(s0, r).content
    ensures Answered(s, served, f, r, last) && f in s.files && f in served.files
    ensures quiet ==> served.files[f].lastAccessed == s.files[f].lastAccessed
  {
    hide Inv, NoneLocked, SameView, LocksStay, Response;
    HeadersLast(admitted, s0, r, quiet, calm);
  }

  lemma {:induction false} QuietAt(others: nat -> seq<Event>, uri: Uri, k: nat)
    ensures AllQuiet(others, uri) ==> Quiet(others(k), uri)
  {
    hide Quiet;
  }

  lemma {:induction false} MyStep(s: State, e: Event, r: ReqId)
    requires Enabled(s, e) && StepOf(e, r) && e != Delete(r) && !Refused(e) && Active(s, r)
    requires Inv(s)
    ensures ReqRefs(s, r) && FileOf(s, r).chunks != [] && Linked(s)
    ensures Inv(Next(s, e)) && Moves(s, Next(s, e), r, true, true) && ReqRefs(Next(s, e), r)
  {
    hide Owned, PipesOk, ListsOk, FilesOk, ContentOk, Moves;
    ActiveRefs(s, r);
    InvLinked(s);
    hide Inv, Linked, Enabled, Next, Refused;
    StepMoves(s, e, r);
    MovesRefs(s, Next(s, e), r, true, true);
  }

  // Event `e` is what a publisher does next.
  ghost predicate PublishesNext(s: State, e: Event, r: ReqId) {
    && r in s.reqs
    && (|| (e == SizeHeaders(r) && s.reqs[r].phase == PubSent) || (e == ShowHeaders(r) && s.reqs[r].phase == PubSized)
        || (e == EmbedChunk(r) && s.reqs[r].phase == PubShown) || (e == ShowEmbedded(r) && s.reqs[r].phase.PubTeed?))
  }

  // The publisher's steps after the first, without their dispatch.
  lemma {:induction false} PublisherStep(s: State, e: Event, r: ReqId)
    requires Inv(s) && PublishesNext(s, e, r)
    ensures ReqRefs(s, r) && FileOf(s, r).chunks != [] && Linked(s) && Enabled(s, e) && Next(s, e) == HeaderStep(s, e)
    ensures Inv(Next(s, e)) && Moves(s, Next(s, e), r, true, true) && ReqRefs(Next(s, e), r)
  {
    PublisherCan(s, e, r);
    hide Inv, Linked, Enabled, Next, Moves, HeaderStep, Refused;
    MyStep(s, e, r);
    HeaderRefs(s, e);
  }

  lemma {:induction false} PublisherCan(s: State, e: Event, r: ReqId)
    requires PublishesNext(s, e, r)
    ensures Enabled(s, e) && StepOf(e, r) && e != Delete(r) && !Refused(e) && Active(s, r) && InHeaders(e)
  {
  }

  lemma {:induction false} TakeSafe(s: State, r: ReqId)
    requires Inv(s) && Enabled(s, TakeHeaders(r))
    ensures ReqRefs(s, r) && s.reqs[r].phase == Decide && HeadersOf(s, r).filled != 0
    ensures Inv(ServeHeaders(s, r)) && Moves(s, ServeHeaders(s, r), r, true, true)
  {
    hide Inv, Moves;
    MyStep(s, TakeHeaders(r), r);
    hide Linked, ServeHeaders;
  }

  lemma {:induction false} SendSafe(s: State, r: ReqId, text: seq<byte>)
    requires Inv(s) && Enabled(s, SendHeaders(r, text))
    ensures ReqRefs(s, r) && Inv(WriteHeaders(s, r, text)) && Moves(s, WriteHeaders(s, r, text), r, true, true)
    ensures ReqRefs(WriteHeaders(s, r, text), r)
  {
    hide Inv, Moves;
    MyStep(s, SendHeaders(r, text), r);
    hide Linked, WriteHeaders;
  }

  // The trylock of the publisher fails, or finds headers, and nothing happens; or it can write.
  lemma {:induction false} FreshChoice(s: State, r: ReqId, text: seq<byte>)
    requires Inv(s) && ReqRefs(s, r) && s.reqs[r].phase == Fresh && 0 < |text| <= PIPE_SIZE
    ensures var s' := WithReq(s, r, s.reqs[r].(phase := Decide));
            HeadersOf(s, r).filled != 0 || !HeadersFree(s, r) ==> Inv(s') && Moves(s, s', r, true, true) && ReqRefs(s', r)
    ensures HeadersOf(s, r).filled == 0 && HeadersFree(s, r) ==> Enabled(s, SendHeaders(r, text))
  {
    hide Inv, Moves, Linked;
    if HeadersOf(s, r).filled != 0 || !HeadersFree(s, r) {
      MyStep(s, SkipHeaders(r), r);
    }
  }

  lemma {:induction false} HeadChoice(s: State, r: ReqId)
    requires Inv(s) && ReqRefs(s, r) && s.reqs[r].phase == Decide
    ensures var s' := WithReq(s, r, s.reqs[r].(phase := Head)); Inv(s') && Moves(s, s', r, true, true)
    ensures HeadersOf(s, r).filled != 0 ==> Enabled(s, TakeHeaders(r))
  {
    hide Inv, Moves, Linked;
    MyStep(s, SendOwnHeaders(r), r);
  }

  lemma {:induction false} NowShown(s: State, r: ReqId)
    requires Inv(s) && r in s.reqs && s.reqs[r].phase == PubShown
    ensures ReqRefs(s, r) && HeadersOf(s, r).filled != 0
  {
    hide Owned, PipesOk, ListsOk, FilesOk, ContentOk;
    ActiveRefs(s, r);
    assert StartOk(s, r);
  }

  lemma {:induction false} TakesHeaders(s: State, r: ReqId)
    requires Inv(s) && ReqRefs(s, r) && s.reqs[r].phase == Decide && HeadersOf(s, r).filled != 0
    ensures |Teed(HeadersOf(s, r), HeadersOf(s, r).filled)| >= FileOf(s, r).headerLen
  {
    hide Owned, PipesOk, ListsOk, FilesOk, ContentOk;
    ActiveRefs(s, r);
    Headers.HeadersTaken(s, r);
  }

  // Looking up or creating a file admits nobody.
  lemma {:induction false} SocketStaysFree(s: State, t: Thread, socket: int, s': State)
    requires Inv(s) && t in s.workers && t in s'.workers && s'.reqs == s.reqs
    requires s'.workers[t].live == s.workers[t].live
    requires forall i <- s.workers[t].live :: i in s.reqs ==> s.reqs[i].socket != socket
    ensures forall i <- s'.workers[t].live :: i in s'.reqs && s'.reqs[i].socket != socket
  {
    OnOwnList(s, t, 0);
  }

  lemma {:induction false} StillPlain(s: State, r: ReqId)
    requires Inv(s) && r in s.reqs && s.reqs[r].phase == Decide
    ensures ReqRefs(s, r) && !s.reqs[r].cached
  {
    hide Owned, PipesOk, ListsOk, FilesOk, ContentOk;
    ActiveRefs(s, r);
  }

  lemma {:induction false} PipesFreeStep(s: State, t: Thread, ps: seq<PipeId>)
    requires t in s.workers && ps != []
    ensures PipesFree(s, t, ps) == PipesFree(PipeFree(s, t, ps[0]), t, ps[1..]) && t in PipeFree(s, t, ps[0]).workers
  {
  }

  lemma {:induction false} PipesFreeNone(s: State, t: Thread)
    requires t in s.workers
    ensures PipesFree(s, t, []) == s
  {
  }

  lemma {:induction false} FileFreeIs(s: State, t: Thread, f: FileId)
    requires t in s.workers && f in s.files
    ensures FileFree(s, t, f)
            == PipesFree(s.(files := s.files - {f}, freed := s.freed + [f]), t, [s.files[f].headers] + s.files[f].chunks)
  {
  }

  lemma {:induction false} MovesHome(s: State, s': State, r: ReqId, quiet: bool, calm: bool)
    requires Moves(s, s', r, quiet, calm)
    ensures r in s.reqs && r in s'.reqs && s'.reqs[r].home == s.reqs[r].home && s'.reqs[r].socket == s.reqs[r].socket
  {
    hide NoneLocked, SameView, LocksStay;
  }

  lemma {:induction false} OnOwnList(s: State, t: Thread, r: ReqId)
    requires Inv(s)
    ensures Active(s, r) && s.reqs[r].home == t ==> t in s.workers && r in s.workers[t].live
    ensures t in s.workers ==> forall i <- s.workers[t].live :: Active(s, i) && s.reqs[i].home == t
  {
    hide Owned, PipesOk, FilesOk, ContentOk;
    if Active(s, r) {
      assert Listed(s, r);
    }
    if t in s.workers {
      assert WorkerOk(s, t);
      assert forall i :: OnList(s, t, i, false) ==> Active(s, i) && s.reqs[i].home == t;
    }
  }

  // What a non-positive answer tells the callers about the bytes that are left.
  lemma {:induction false} AnswerMeans(s: State, r: ReqId)
    requires Inv(s) && r in s.reqs && Serving(s.reqs[r].phase)
    ensures ReqRefs(s, r)
    ensures var left := s.reqs[r].bytesToSend;
            ToInt32(left) <= 0 <==> s.reqs[r].sent == Response(s, r) || left > INT_MAX
    ensures ToInt32(s.reqs[r].bytesToSend) > 0 ==> 0 < s.reqs[r].bytesToSend <= INT_MAX
  {
    hide Inv;
    ServingFacts(s, r);
    SizeFits(s, r);
    assert 0 <= s.reqs[r].bytesToSend < 0x1_0000_0000;
  }

  lemma {:induction false} SpliceReady(s: State, r: ReqId)
    requires Inv(s) && ReqRefs(s, r) && s.reqs[r].phase == Flush
    ensures 0 <= BufOf(s, r).filled == |BufOf(s, r).data|
  {
    hide Inv;
    ServingFacts(s, r);
  }

  lemma {:induction false} SpliceSafe(s: State, r: ReqId, n: nat)
    requires ReqRefs(s, r) && s.reqs[r].phase == Flush && n <= BufOf(s, r).filled == |BufOf(s, r).data|
    requires Inv(s)
    ensures var s' := SpliceStep(s, r, n); Inv(s') && Moves(s, s', r, true, true) && ReqRefs(s', r)
  {
    hide Inv, Moves, Linked, Enabled, Next, SpliceStep;
    InvLinked(s);
    SpliceIs(s, r, n);
    StepMoves(s, Splice(r, n), r);
    MovesRefs(s, SpliceStep(s, r, n), r, true, true);
  }

  // bytes_to_send never wraps to 0: what can be left is below 2^32.
  lemma {:induction false} ReturnsZeroWhenDone(s: State, r: ReqId)
    requires Inv(s) && r in s.reqs && Serving(s.reqs[r].phase)
    ensures ReqRefs(s, r) && (ToInt32(s.reqs[r].bytesToSend) == 0 <==> s.reqs[r].sent == Response(s, r))
  {
    hide Inv;
    ServingFacts(s, r);
    SizeFits(s, r);
    assert 0 <= s.reqs[r].bytesToSend < 0x1_0000_0000;
  }

  lemma {:induction false} CurrStays(s: State, r: ReqId)
    requires Inv(s) && r in s.reqs && s.reqs[r].phase == Ready
    ensures CurrRef(s, r)
  {
    hide Owned, PipesOk, ListsOk, FilesOk, ContentOk;
    ActiveRefs(s, r);
  }

  lemma {:induction false} SizeFits(s: State, r: ReqId)
    requires Inv(s) && r in s.reqs && Serving(s.reqs[r].phase)
    ensures ReqRefs(s, r) && |FileOf(s, r).content| <= INT_MAX
  {
    hide Owned, PipesOk, ListsOk, FilesOk, ContentOk;
    ActiveRefs(s, r);
  }

  // get_time_diff_ms, truncating towards zero
  function IdleMs(from: int, to: int): int {
    if from <= to then (to - from) / 1000 else -((from - to) / 1000)
  }

  predicate Expired(file: File, now: int) {
    IdleMs(file.lastAccessed, now) > MAX_FILE_IDLE && file.evictable
  }

  lemma {:induction false} ExpiredIs(file: File, now: int)
    ensures Expired(file, now) <==> file.evictable && now - file.lastAccessed >= 5001000
  {
  }

  lemma {:induction false} AllExpired(table: seq<Entry<FileId>>, files: map<FileId, File>, clock: nat -> int)
    requires forall e <- table :: e.val in files
    ensures forall j :: 0 <= j < |table| ==>
              (Expired(files[table[j].val], clock(j)) <==>
                 files[table[j].val].evictable && clock(j) - files[table[j].val].lastAccessed >= 5001000)
  {
    hide Expired;
    forall j | 0 <= j < |table|
      ensures Expired(files[table[j].val], clock(j)) <==>
                files[table[j].val].evictable && clock(j) - files[table[j].val].lastAccessed >= 5001000
    {
      ExpiredIs(files[table[j].val], clock(j));
    }
  }

  // An entry that the tick left alone is still what a lookup finds.
  lemma {:induction false} StillListed(table: seq<Entry<FileId>>, later: seq<Entry<FileId>>, uri: Uri, f: FileId)
    requires UniqueKeys(table) && Lookup(table, uri) == Some(f) && (forall e <- later :: e in table)
    requires Entry(uri, f) in later
    ensures Lookup(later, uri) == Some(f)
  {
    LookupIsEntry(table, uri);
    LookupIsEntry(later, uri);
  }

  lemma {:induction false} EntriesLive(s: State)
    requires Inv(s)
    ensures UniqueKeys(s.table) && forall e <- s.table :: e.val in s.files
  {
    hide Owned, PipesOk, ListsOk, ContentOk;
  }

  lemma {:induction false} ResetSpares(s: State, t: Thread, uri: Uri, e: Entry<FileId>)
    requires t in s.workers && e in s.table && e.key != uri
    requires Inv(s)
    ensures var s' := AfterReset(s, t, uri);
            e in s'.table && e.val in s.files && e.val in s'.files && s'.files[e.val] == s.files[e.val]
  {
    hide Inv, PipesFree, Drop, Lookup;
    ListedUnder(s);
    Lifecycle.TableAfterDrop(s.table, uri);
    LookupIsEntry(s.table, uri);
  }

  lemma {:induction false} ListedUnder(s: State)
    requires Inv(s)
    ensures UniqueKeys(s.table) && forall e <- s.table :: e.val in s.files && s.files[e.val].uri == e.key
  {
    hide Owned, PipesOk, ListsOk, ContentOk;
  }

  lemma {:induction false} ResetShrinks(s: State, t: Thread, uri: Uri)
    requires t in s.workers
    requires Inv(s)
    ensures forall e <- AfterReset(s, t, uri).table :: e in s.table
  {
    hide Owned, PipesOk, ListsOk, ContentOk, PipesFree;
    Lifecycle.TableAfterDrop(s.table, uri);
  }

  lemma {:induction false} OneOnSocket(s: State, t: Thread, socket: int)
    requires Inv(s) && t in s.workers
    ensures forall i, j | i in s.workers[t].live && j in s.workers[t].live ::
              i in s.reqs && j in s.reqs && (s.reqs[i].socket == socket == s.reqs[j].socket ==> i == j)
  {
    hide Owned, PipesOk, FilesOk, ContentOk;
    assert WorkerOk(s, t);
    forall i, j | i in s.workers[t].live && j in s.workers[t].live
      ensures i in s.reqs && j in s.reqs && (s.reqs[i].socket == socket == s.reqs[j].socket ==> i == j)
    {
      assert OnList(s, t, i, false) && OnList(s, t, j, false);
      if i != j {
        assert SocketsApart(s.reqs[i], s.reqs[j]);
      }
    }
  }

  lemma {:induction false} ActiveIsLinked(s: State, r: ReqId)
    requires Inv(s) && r in s.reqs && s.reqs[r].phase != Idle
    ensures ReqRefs(s, r) && Linked(s)
  {
    InvLinked(s);
    hide Owned, PipesOk, ListsOk, FilesOk, ContentOk;
    ActiveRefs(s, r);
  }

  lemma {:induction false} DeleteIsStep(s: State, r: ReqId)
    requires r in s.reqs && s.reqs[r].phase == Head
    requires Inv(s)
    ensures s.reqs[r].home in s.workers && s.reqs[r].file in s.files && Inv(ReqDel(s, r))
  {
    hide Inv, Linked;
    ActiveIsLinked(s, r);
    StepInv(s, Delete(r));
  }

  lemma {:induction false} LinkedPools(s: State, t: Thread)
    requires Inv(s) && t in s.workers
    ensures Linked(s) && forall q <- s.workers[t].pipePool :: q in s.pipes
  {
    InvLinked(s);
    hide Inv;
  }

  lemma {:induction false} ListedIsOld(s: State, uri: Uri, f: FileId)
    requires Inv(s) && Lookup(s.table, uri) == Some(f)
    ensures f < s.nextFile && f in s.files
  {
    hide Owned, PipesOk, ListsOk, ContentOk;
    LookupIsEntry(s.table, uri);
    assert FileCounted(s, f);
  }

  // The state after file_table_reset.
  function AfterReset(s: State, t: Thread, uri: Uri): State
    requires t in s.workers
  {
    if Lookup(s.table, uri).Some? && Lookup(s.table, uri).value in s.files then FileReset(s, t, uri) else s
  }

  lemma {:induction false} CreatedListed(s: State, t: Thread, uri: Uri, content: seq<byte>, evictable: bool, now: int)
    requires Inv(s) && Linked(s) && t in s.workers && (forall q <- s.workers[t].pipePool :: q in s.pipes)
    requires Lookup(s.table, uri).None? && 0 < |content| <= INT_MAX
    ensures var s' := FileNew(s, t, uri, content, evictable, now);
            && Inv(s') && Lookup(s'.table, uri) == Some(s.nextFile) && t in s'.workers
            && s'.reqs == s.reqs && s'.workers[t].live == s.workers[t].live
            && s.nextFile !in s.files && s'.locked <= s.locked
  {
    hide Inv, Linked, PipesNew;
    StepInv(s, Create(t, uri, content, evictable, now));
    NewFileId(s);
    PipesNewShrinks(s, t, 1 + ChunkCount(|content|));
  }

  lemma {:induction false} DroppedLookup(table: seq<Entry<FileId>>, uri: Uri)
    requires UniqueKeys(table)
    ensures Lookup(Drop(table, uri), uri).None?
  {
    Lifecycle.TableAfterDrop(table, uri);
    LookupIsEntry(Drop(table, uri), uri);
  }

  lemma {:induction false} TableIsLive(s: State, uri: Uri)
    requires Inv(s)
    ensures Lookup(s.table, uri).Some? ==> Lookup(s.table, uri).value in s.files
  {
    hide Owned, PipesOk, ListsOk, ContentOk;
    LookupIsEntry(s.table, uri);
  }

  lemma {:induction false} ResetInv(s: State, t: Thread, uri: Uri)
    requires t in s.workers && (Lookup(s.table, uri).Some? ==> Lookup(s.table, uri).value in s.files)
    requires Inv(s)
    ensures Inv(AfterReset(s, t, uri))
  {
    hide Inv, FileReset;
    InvLinked(s);
    StepInv(s, Reset(t, uri));
  }

  lemma {:induction false} ResetUnlists(s: State, t: Thread, uri: Uri)
    requires t in s.workers
    requires Inv(s)
    ensures var s' := AfterReset(s, t, uri); Lookup(s'.table, uri).None? && t in s'.workers
  {
    hide Owned, PipesOk, ListsOk, ContentOk, PipesFree;
    TableIsLive(s, uri);
    DroppedLookup(s.table, uri);
  }

  lemma {:induction false} OnePipe(s: State, t: Thread, p: PipeId)
    requires t in s.workers && (forall q <- s.workers[t].pipePool :: q in s.pipes) && p == PipeNew(s, t).1
    ensures PipesNew(s, t, 1) == (PipeNew(s, t).0, [p])
    ensures forall q <- PipeNew(s, t).0.workers[t].pipePool :: q in PipeNew(s, t).0.pipes
  {
    assert PipesNew(s, t, 0) == (s, []);
    assert [] + [p] == [p];
  }

  lemma {:induction false} OneMorePipe(s: State, t: Thread, n: nat)
    requires t in s.workers && forall q <- s.workers[t].pipePool :: q in s.pipes
    ensures var (s1, ps) := PipesNew(s, t, n);
            PipesNew(s, t, n + 1) == (PipeNew(s1, t).0, ps + [PipeNew(s1, t).1])
    ensures var s2 := PipeNew(PipesNew(s, t, n).0, t).0;
            t in s2.workers && forall q <- s2.workers[t].pipePool :: q in s2.pipes
  {
    assert PipesNew(s, t, n + 1).0 == PipeNew(PipesNew(s, t, n).0, t).0;
  }
}
