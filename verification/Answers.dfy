/**
What the serve loop hears from the kernel, and what a handler may rely on while others act between
its steps.
*/
module Answers {
  import opened Options
  import opened TableLog
  import opened CacheState
  import opened Protocol
  import opened Lifecycle
  import opened Runs
  import opened Stability
  import opened Calls

  // ----- the kernel ---------------------------------------------------------------------------

  type pos = n: int | 0 < n witness 1

  // The answer to tee or splice.
  datatype Answer = Moved | WouldBlock | Failed

  // What the kernel has to say in one turn of the loop: whether vmsplice finds room, and what tee and
  // splice answer.  A splice that moves takes `upTo` bytes, or all there are.
  datatype Kernel = Kernel(room: bool, tee: Answer, splice: Answer, upTo: pos)

  // What it was asked in a turn, and said.
  datatype Asked = Asked(room: Option<bool>, tee: Option<Answer>, splice: Option<Answer>)

  predicate Said(a: Asked, kernel: Kernel) {
    && (a.room.Some? ==> a.room.value == kernel.room) && (a.tee.Some? ==> a.tee.value == kernel.tee)
    && (a.splice.Some? ==> a.splice.value == kernel.splice)
  }

  // The turn failed: the error was that of the splice, with bytes waiting for the socket, or that of the
  // tee, with none waiting and the chunk full.
  ghost predicate Breaks(a: Asked, s: State, r: ReqId)
    requires ReqRefs(s, r)
  {
    if BufOf(s, r).filled != 0 then a.splice == Some(Failed) else a.tee == Some(Failed) && AtChunk(s, r, false)
  }

  // Something was refused: the bytes waiting for the socket, or, with none waiting, the bytes of the
  // chunk to the tee, or the room to fill it.
  ghost predicate Refuses(a: Asked, s: State, r: ReqId)
    requires ReqRefs(s, r)
  {
    if BufOf(s, r).filled != 0 then a.splice == Some(WouldBlock)
    else (a.tee == Some(WouldBlock) && AtChunk(s, r, false)) || (a.room == Some(false) && AtChunk(s, r, true))
  }

  // `r` stands at a chunk that is full, or at one that is empty and locked.
  ghost predicate AtChunk(s: State, r: ReqId, locked: bool) {
    && CurrRef(s, r)
    && var f, k := s.reqs[r].file, s.reqs[r].curr.value;
       if locked then LockedChunk(s, f, k) else !EmptyChunk(s, f, k)
  }

  // What a call heard, turn by turn, and how it ended for that.  Each turn that was not the last put
  // bytes on the socket; a call fails exactly when the last turn did, and leaves bytes unsent only
  // if something was refused there.  `from` is how many bytes were sent before.
  ghost predicate Heard(asked: seq<Asked>, kernel: nat -> Kernel, from: nat, failed: bool, stuck: bool, s: State, r: ReqId) {
    && ReqRefs(s, r)
    && (forall j :: 0 <= j < |asked| ==> Said(asked[j], kernel(j)))
    && (forall j :: 0 <= j < |asked| && (stuck || j < |asked| - 1) ==> asked[j].splice == Some(Moved))
    && from + |asked| <= |s.reqs[r].sent| + 1
    && (!stuck ==>
          && (failed <==> asked != [] && Breaks(asked[|asked| - 1], s, r))
          && (failed || s.reqs[r].sent == Response(s, r) || (asked != [] && Refuses(asked[|asked| - 1], s, r))))
  }

  // tee and splice always move something.
  ghost predicate Willing(kernel: nat -> Kernel) {
    forall k :: kernel(k).tee == Moved && kernel(k).splice == Moved
  }

  predicate NoRefusals(events: seq<Event>) {
    forall e <- events :: !Refused(e)
  }

  // vmsplice finds room each time, for the request and for everybody else.
  ghost predicate Smooth(others: nat -> seq<Event>, kernel: nat -> Kernel) {
    forall k :: kernel(k).room && NoRefusals(others(k))
  }

  lemma {:induction false} SmoothAt(others: nat -> seq<Event>, kernel: nat -> Kernel, k: nat)
    ensures Smooth(others, kernel) ==> kernel(k).room && NoRefusals(others(k)) && NoRefusals(others(k + 1))
  {
    hide NoRefusals;
  }

  // With a kernel that refuses nothing a call that returns has sent everything.
  lemma {:induction false} WillingEnds(asked: seq<Asked>, others: nat -> seq<Event>, kernel: nat -> Kernel, from: nat,
                                       failed: bool, s: State, r: ReqId)
    requires Heard(asked, kernel, from, failed, false, s, r) && Smooth(others, kernel) && Willing(kernel)
    ensures !failed && s.reqs[r].sent == Response(s, r)
  {
    hide ReqRefs, Response, CurrRef, EmptyChunk, LockedChunk;
    if asked != [] {
      SmoothAt(others, kernel, |asked| - 1);
      assert Said(asked[|asked| - 1], kernel(|asked| - 1));
    }
  }

  // ----- while others act ---------------------------------------------------------------------

  // The uri of the file of `r`.
  ghost function UriOf(s: State, r: ReqId): Uri {
    if ReqRefs(s, r) then FileOf(s, r).uri else []
  }

  predicate Quiet(events: seq<Event>, uri: Uri) {
    forall e <- events :: !AsksFor(e, uri)
  }

  ghost predicate AllQuiet(others: nat -> seq<Event>, uri: Uri) {
    forall k :: Quiet(others(k), uri)
  }

  ghost predicate AllCalm(others: nat -> seq<Event>) {
    forall k :: NoRefusals(others(k))
  }

  // What happens to `r` from one moment of its service to a later one.  If nobody asked for its file
  // (`quiet`) that keeps its stamp; if no fill was refused (`calm`) no chunk ahead gets locked.
  ghost predicate Moves(s: State, s': State, r: ReqId, quiet: bool, calm: bool) {
    && Progress(s, s', r) && SameView(s, s', r) && LocksStay(s, s', r)
    && (quiet ==> FileOf(s', r).lastAccessed == FileOf(s, r).lastAccessed)
    && (calm && NoneLocked(s, r) ==> NoneLocked(s', r))
  }

  ghost predicate LocksStay(s: State, s': State, r: ReqId) {
    r in s.reqs && forall k: nat :: LockedChunk(s, s.reqs[r].file, k) ==> LockedChunk(s', s.reqs[r].file, k)
  }

  lemma {:induction false} MovesHere(s: State, r: ReqId, quiet: bool, calm: bool)
    requires Inv(s) && Active(s, r)
    ensures Moves(s, s, r, quiet, calm)
  {
    hide Inv, NoneLocked;
    ActiveInv(s, r);
  }

  lemma {:induction false} MovesTwice(s: State, s1: State, s2: State, r: ReqId, quiet: bool, calm: bool)
    requires Moves(s, s1, r, quiet, calm) && Moves(s1, s2, r, quiet, calm)
    ensures Moves(s, s2, r, quiet, calm) && UriOf(s1, r) == UriOf(s, r)
  {
    hide NoneLocked, LockedChunk, SameView;
    SameViewTwice(s, s1, s2, r);
  }

  lemma {:induction false} MovesLess(s: State, s': State, r: ReqId, quiet: bool, calm: bool, q: bool, c: bool)
    requires Moves(s, s', r, quiet, calm) && (q ==> quiet) && (c ==> calm)
    ensures Moves(s, s', r, q, c)
  {
    hide Progress, NoneLocked, SameView, LocksStay;
  }

  lemma {:induction false} MovesUri(s: State, s': State, r: ReqId, quiet: bool, calm: bool)
    requires Moves(s, s', r, quiet, calm)
    ensures Progress(s, s', r) && UriOf(s', r) == UriOf(s, r)
  {
    hide NoneLocked, SameView, LocksStay;
  }

  // ... a step of the handler itself
  lemma {:induction false} AfterOwn(s: State, s1: State, s2: State, r: ReqId, quiet: bool, calm: bool)
    requires Moves(s, s1, r, quiet, calm) && Moves(s1, s2, r, true, true)
    ensures Moves(s, s2, r, quiet, calm)
  {
    hide Moves;
    MovesLess(s1, s2, r, true, true, quiet, calm);
    MovesTwice(s, s1, s2, r, quiet, calm);
  }

  // ... steps of others
  lemma {:induction false} AfterOthers(s: State, s1: State, s2: State, r: ReqId, others: nat -> seq<Event>, k: nat,
                                       quiet: bool, calm: bool)
    requires Moves(s, s1, r, quiet, calm) && Moves(s1, s2, r, Quiet(others(k), UriOf(s1, r)), NoRefusals(others(k)))
    requires (quiet ==> AllQuiet(others, UriOf(s, r))) && (calm ==> AllCalm(others))
    ensures Moves(s, s2, r, quiet, calm)
  {
    hide Moves, Quiet, NoRefusals;
    MovesUri(s, s1, r, quiet, calm);
    MovesLess(s1, s2, r, Quiet(others(k), UriOf(s1, r)), NoRefusals(others(k)), quiet, calm);
    MovesTwice(s, s1, s2, r, quiet, calm);
  }

  // ... and a part of the handler with some of the others in between
  lemma {:induction false} AfterPart(s: State, s1: State, s2: State, r: ReqId, others: nat -> seq<Event>,
                                     later: nat -> seq<Event>, quiet: bool, calm: bool, done: bool)
    requires Moves(s, s1, r, quiet, calm) && Moves(s1, s2, r, AllQuiet(later, UriOf(s1, r)), done)
    requires AllQuiet(others, UriOf(s, r)) ==> AllQuiet(later, UriOf(s, r))
    requires (quiet ==> AllQuiet(others, UriOf(s, r))) && (calm ==> done)
    ensures Moves(s, s2, r, quiet, calm)
  {
    hide Moves, AllQuiet;
    MovesUri(s, s1, r, quiet, calm);
    MovesLess(s1, s2, r, AllQuiet(later, UriOf(s1, r)), done, quiet, calm);
    MovesTwice(s, s1, s2, r, quiet, calm);
  }

  // The others from `n` on.
  function From(others: nat -> seq<Event>, n: nat): nat -> seq<Event> {
    (i: nat) => others(i + n)
  }

  lemma {:induction false} FromOn(others: nat -> seq<Event>, n: nat, kernel: nat -> Kernel, uri: Uri)
    ensures Smooth(others, kernel) ==> Smooth(From(others, n), kernel) && AllCalm(others)
    ensures AllQuiet(others, uri) ==> AllQuiet(From(others, n), uri)
  {
    hide NoRefusals, Quiet;
  }

  lemma {:induction false} StepMoves(s: State, e: Event, r: ReqId)
    requires Linked(s) && Enabled(s, e) && Active(s, r) && e != Delete(r)
    requires Inv(s)
    ensures Inv(Next(s, e)) && Moves(s, Next(s, e), r, !AsksFor(e, UriOf(s, r)), !Refused(e))
  {
    hide Inv, Linked, Enabled, Next, Progress, NoneLocked, Refused, AsksFor, SameView, LockedChunk;
    KeepsView(s, e, r);
    StepProgress(s, e, r);
    StaysOn(s, Next(s, e), r);
    FilesFixed(s, e, s.reqs[r].file);
    forall k: nat | LockedChunk(s, s.reqs[r].file, k) ensures LockedChunk(Next(s, e), s.reqs[r].file, k) {
      LockedChunkStays(s, e, s.reqs[r].file, k);
    }
    if !Refused(e) && NoneLocked(s, r) {
      UnlockedStays(s, e, r);
    }
  }

  lemma {:induction false} StaysOn(s: State, s': State, r: ReqId)
    requires Progress(s, s', r)
    ensures ReqRefs(s, r) && ReqRefs(s', r) && s'.reqs[r].file == s.reqs[r].file
  {
  }

  // One of the steps of others.
  lemma {:induction false} AfterOne(s: State, s1: State, s2: State, r: ReqId, events: seq<Event>, i: nat)
    requires i < |events| && Moves(s, s1, r, Quiet(events, UriOf(s, r)), NoRefusals(events))
    requires Moves(s1, s2, r, !AsksFor(events[i], UriOf(s1, r)), !Refused(events[i]))
    ensures Moves(s, s2, r, Quiet(events, UriOf(s, r)), NoRefusals(events))
  {
    hide Moves, Refused, AsksFor;
    var q, c := Quiet(events, UriOf(s, r)), NoRefusals(events);
    MovesUri(s, s1, r, q, c);
    MovesLess(s1, s2, r, !AsksFor(events[i], UriOf(s1, r)), !Refused(events[i]), q, c);
    MovesTwice(s, s1, s2, r, q, c);
  }

  // A step of somebody else.
  lemma {:induction false} OthersStep(s: State, e: Event, r: ReqId)
    requires Linked(s) && Enabled(s, e) && Active(s, r) && !StepOf(e, r)
    requires Inv(s)
    ensures var s' := Next(s, e);
            && Inv(s') && Active(s', r) && s'.reqs[r] == s.reqs[r] && PipeKept(s, s', s.reqs[r].buf)
            && Moves(s, s', r, !AsksFor(e, UriOf(s, r)), !Refused(e))
  {
    hide Inv, Linked, Enabled, Next, Moves, Refused, AsksFor;
    NotDeleted(e, r);
    StepMoves(s, e, r);
    OthersUndisturbed(s, e, r);
    BufferStays(s, e, r);
  }

  // ----- what a call heard --------------------------------------------------------------------

  // Turns that put bytes on the socket.
  ghost predicate SoFar(asked: seq<Asked>, kernel: nat -> Kernel, from: nat, s: State, r: ReqId) {
    && ReqRefs(s, r) && from + |asked| <= |s.reqs[r].sent|
    && forall j :: 0 <= j < |asked| ==>
         Said(asked[j], kernel(j)) && asked[j].splice == Some(Moved) && asked[j].tee != Some(Failed)
  }

  lemma {:induction false} OneMore(asked: seq<Asked>, a: Asked, kernel: nat -> Kernel, from: nat, s: State, s': State, r: ReqId)
    requires SoFar(asked, kernel, from, s, r) && ReqRefs(s', r) && |s.reqs[r].sent| < |s'.reqs[r].sent|
    requires Said(a, kernel(|asked|)) && a.splice == Some(Moved) && a.tee != Some(Failed)
    ensures SoFar(asked + [a], kernel, from, s', r)
  {
    hide ReqRefs;
  }

  lemma {:induction false} HeardAll(asked: seq<Asked>, kernel: nat -> Kernel, from: nat, s: State, r: ReqId)
    requires SoFar(asked, kernel, from, s, r) && s.reqs[r].sent == Response(s, r)
    ensures Heard(asked, kernel, from, false, false, s, r)
  {
    hide ReqRefs, Response, AtChunk;
  }

  lemma {:induction false} HeardWaiting(asked: seq<Asked>, kernel: nat -> Kernel, from: nat, s: State, s': State, r: ReqId)
    requires SoFar(asked, kernel, from, s, r) && Progress(s, s', r)
    ensures Heard(asked, kernel, from, false, true, s', r)
  {
    hide ReqRefs, Response, AtChunk;
  }

  lemma {:induction false} HeardLast(asked: seq<Asked>, a: Asked, kernel: nat -> Kernel, from: nat, failed: bool,
                                     s: State, s': State, r: ReqId)
    requires SoFar(asked, kernel, from, s, r) && Progress(s, s', r) && Said(a, kernel(|asked|))
    requires if failed then Breaks(a, s', r) else Refuses(a, s', r) && !Breaks(a, s', r)
    ensures Heard(asked + [a], kernel, from, failed, false, s', r)
  {
    hide ReqRefs, Response, Breaks, Refuses;
    assert (asked + [a])[|asked|] == a;
  }

  lemma {:induction false} HeardFrom(asked: seq<Asked>, kernel: nat -> Kernel, from: nat, failed: bool, stuck: bool, s: State, r: ReqId)
    requires Heard(asked, kernel, from, failed, stuck, s, r)
    ensures Heard(asked, kernel, 0, failed, stuck, s, r)
  {
    hide ReqRefs, Response, Breaks, Refuses;
  }
}
