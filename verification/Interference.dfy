/**
Serve calls while others act.  Between two steps of a call the handlers of other requests run; here
is exactly when a call can come to wait for a lock that is never given back, and what a call returns
that leaves bytes unsent.
*/
module Interference {
  import opened CInts
  import opened Options
  import opened TableLog
  import opened CacheState
  import opened Protocol
  import opened Ownership
  import opened Streams
  import opened Steps
  import opened Lifecycle
  import opened Creation
  import opened Runs
  import opened Guarantees
  import opened Stability
  import opened Limits
  import opened Calls

  // ----- calls with steps of others in between ------------------------------------------------

  // A step of somebody else, on one of the threads `ts`.  A thread serves one call at a time, so
  // these are the other threads; with `ts` empty the call is left alone.
  predicate Aside(s: State, e: Event, r: ReqId, ts: set<Thread>) {
    match e
    case Access(_, _) => true
    case Create(t, _, _, _, _) => t in ts
    case Reset(t, _) => t in ts
    case Setup(t, _, _) => t in ts
    case _ => e.r != r && e.r in s.reqs && s.reqs[e.r].home in ts
  }

  // A step while the call of `r` goes on; with `busy` unset vmsplice is refused to nobody.
  predicate During(s: State, e: Event, r: ReqId, ts: set<Thread>, busy: bool) {
    (Turn(e, r, true) || Aside(s, e, r, ts)) && (busy || !Refused(e))
  }

  ghost predicate CallOf(s: State, r: ReqId, ts: set<Thread>, busy: bool, es: seq<Event>)
    requires Path(s, es)
    decreases |es|
  {
    es == [] || (During(s, es[0], r, ts, busy) && CallOf(Next(s, es[0]), r, ts, busy, es[1..]))
  }

  // The steps `es` of the call and of others lead `r` to a lock it waits on for ever.
  ghost predicate HangsBy(s: State, r: ReqId, ts: set<Thread>, busy: bool, es: seq<Event>) {
    Path(s, es) && CallOf(s, r, ts, busy, es) && Waits(After(s, es), r)
  }

  ghost predicate CanHang(s: State, r: ReqId, ts: set<Thread>, busy: bool) {
    exists es :: HangsBy(s, r, ts, busy, es)
  }

  lemma {:induction false} DuringIs(s: State, e: Event, r: ReqId, ts: set<Thread>, busy: bool)
    requires During(s, e, r, ts, busy)
    ensures (Turn(e, r, true) || (!StepOf(e, r) && Aside(s, e, r, ts))) && (busy || !Refused(e)) && e != Delete(r)
  {
  }

  lemma {:induction false} TurnIsDuring(s: State, e: Event, r: ReqId, ts: set<Thread>, busy: bool)
    requires Turn(e, r, busy)
    ensures During(s, e, r, ts, busy)
  {
  }

  lemma {:induction false} AloneIsCall(s: State, r: ReqId, ts: set<Thread>, busy: bool, es: seq<Event>)
    requires Path(s, es) && Turns(es, r, busy)
    ensures CallOf(s, r, ts, busy, es)
    decreases |es|
  {
    hide Linked, Enabled, Next, Turn, During;
    if es != [] {
      TurnIsDuring(s, es[0], r, ts, busy);
      AloneIsCall(Next(s, es[0]), r, ts, busy, es[1..]);
    }
  }

  lemma {:induction false} HangsAloneToo(s: State, r: ReqId, ts: set<Thread>, busy: bool, es: seq<Event>)
    requires HangsAlone(s, r, busy, es)
    ensures HangsBy(s, r, ts, busy, es)
  {
    hide Path, After, CallOf, Waits, Turns;
    AloneIsCall(s, r, ts, busy, es);
  }

  // ----- nobody is refused --------------------------------------------------------------------

  lemma {:induction false} NoHang(s: State, r: ReqId, ts: set<Thread>, es: seq<Event>)
    requires Inv(s) && NoneLocked(s, r) && Path(s, es) && CallOf(s, r, ts, false, es)
    ensures !Waits(After(s, es), r)
    decreases |es|
  {
    hide Inv, Linked, Enabled, Next, Turn, During, Aside, NoneLocked, StepOf, Waits, Refused;
    if es == [] {
      NotWaiting(s, r);
    } else {
      DuringIs(s, es[0], r, ts, false);
      UnlockedStays(s, es[0], r);
      StepInv(s, es[0]);
      NoHang(Next(s, es[0]), r, ts, es[1..]);
    }
  }

  // While vmsplice finds room for everybody, a call can come to wait exactly when a chunk it has still
  // to take is empty and locked when it starts, whoever acts while it goes on.
  lemma {:induction false} CallHangs(s: State, r: ReqId, ts: set<Thread>)
    requires Inv(s) && r in s.reqs && s.reqs[r].phase == Head
    ensures CanHang(s, r, ts, false) <==> exists k: nat :: LockedAhead(s, r, k)
  {
    hide Inv, Linked, HangsBy, HangsAlone, LockedAhead;
    InvLinked(s);
    if k: nat :| LockedAhead(s, r, k) {
      var es := HangPath(s, r, k);
      HangsAloneToo(s, r, ts, false, es);
    }
    if es :| HangsBy(s, r, ts, false, es) {
      HangIs(s, r, ts, false, es);
      if forall k: nat :: !LockedAhead(s, r, k) {
        HeadIsActive(s, r);
        NoHang(s, r, ts, es);
      }
    }
  }

  lemma {:induction false} HangIs(s: State, r: ReqId, ts: set<Thread>, busy: bool, es: seq<Event>)
    requires HangsBy(s, r, ts, busy, es)
    ensures Path(s, es) && CallOf(s, r, ts, busy, es) && Waits(After(s, es), r)
  {
  }

  // ----- chunks behind a request --------------------------------------------------------------

  // The chunks `r` has taken are full.
  ghost predicate Trail(s: State, r: ReqId) {
    r in s.reqs && s.reqs[r].curr.Some? ==> forall k: nat :: k < s.reqs[r].curr.value ==> !EmptyChunk(s, s.reqs[r].file, k)
  }

  lemma {:induction false} TrailFrame(s: State, s': State, r: ReqId)
    requires Trail(s, r) && SameView(s, s', r) && CurrMoves(s, s', r)
    requires s.reqs[r].phase == Ready ==> s.reqs[r].curr.Some? && !EmptyChunk(s, s.reqs[r].file, s.reqs[r].curr.value)
    ensures Trail(s', r)
  {
  }

  lemma {:induction false} TrailStays(s: State, e: Event, r: ReqId)
    requires Linked(s) && Enabled(s, e) && Active(s, r) && e != Delete(r) && Trail(s, r)
    requires Inv(s)
    ensures Trail(Next(s, e), r)
  {
    hide Inv, Linked, Enabled, Next, CurrMoves, Trail, SameView, CurrRef;
    AnyMoves(s, e, r);
    KeepsView(s, e, r);
    if s.reqs[r].phase == Ready {
      ReadyIsFull(s, r);
      CurrIs(s, r);
    }
    TrailFrame(s, Next(s, e), r);
  }

  // ----- who becomes active -------------------------------------------------------------------

  // A request that was not active before has just arrived.
  lemma {:induction false} Awakes(s: State, e: Event, i: ReqId)
    requires Linked(s) && Enabled(s, e) && Active(Next(s, e), i) && !Active(s, i)
    requires Inv(s)
    ensures e.Setup? && Lookup(s.table, e.uri) == Some(Next(s, e).reqs[i].file)
    ensures Next(s, e).reqs[i].curr == Some(0) && Next(s, e).reqs[i].home == e.t && e.t in s.workers
  {
    hide Inv, Linked, Enabled, Next;
    if e.Setup? {
      var f, j := SetupShape(s, e);
    } else if e.Access? || e.Create? || e.Reset? {
      TableKeepsReqs(s, e);
      assert false;
    } else if e.Delete? {
      DeletedReqs(s, e.r);
      assert false;
    } else {
      HandlerShape(s, e);
      assert false;
    }
  }

  // In every run.
  lemma {:induction false} RunTrail(ss: seq<State>, es: seq<Event>, i: nat, r: ReqId)
    requires Run(ss, es) && i < |ss| && Active(ss[i], r)
    ensures Trail(ss[i], r)
  {
    hide Inv, Linked, Init, Enabled, Next, Trail;
    if i == 0 {
      NobodyYet(ss[0], r);
    } else {
      RunInv(ss, es, i - 1);
      assert Step(ss[i - 1], es[i - 1], ss[i]);
      if Active(ss[i - 1], r) {
        NotDeletedYet(ss[i - 1], es[i - 1], r);
        RunTrail(ss, es, i - 1, r);
        TrailStays(ss[i - 1], es[i - 1], r);
      } else {
        Awakes(ss[i - 1], es[i - 1], r);
        NewTrail(ss[i], r);
      }
    }
  }

  lemma {:induction false} NobodyYet(s: State, r: ReqId)
    requires Init(s)
    ensures !Active(s, r)
  {
  }

  lemma {:induction false} NewTrail(s: State, r: ReqId)
    requires r in s.reqs && s.reqs[r].curr == Some(0)
    ensures Trail(s, r)
  {
  }

  lemma {:induction false} NotDeletedYet(s: State, e: Event, r: ReqId)
    requires Linked(s) && Enabled(s, e) && Active(Next(s, e), r)
    ensures e != Delete(r)
  {
    hide Linked, Enabled, Next;
    if e == Delete(r) {
      DeletedReqs(s, r);
      assert false;
    }
  }

  // ----- when a call is safe from everybody ---------------------------------------------------

  // Another request, on one of the threads `ts`, that has still to take chunk `k` of the file of `r`.
  ghost predicate Rival(s: State, r: ReqId, ts: set<Thread>, i: ReqId, k: nat) {
    && i != r && Active(s, i) && r in s.reqs && s.reqs[i].home in ts && s.reqs[i].file == s.reqs[r].file
    && s.reqs[i].curr.Some? && s.reqs[i].curr.value <= k
  }

  // The file of `r` is in the table, and one of the threads `ts` can take a request for it.
  ghost predicate Joinable(s: State, r: ReqId, ts: set<Thread>) {
    && r in s.reqs && s.reqs[r].file in s.files
    && Lookup(s.table, s.files[s.reqs[r].file].uri) == Some(s.reqs[r].file)
    && exists t <- s.workers :: t in ts
  }

  // Chunk `k` still has to go to the client of `r`, and somebody's fill of it can be refused before
  // `r` has it: it is locked already, lies behind the current chunk, or is the current one while the
  // pipe of `r` still holds bytes; or another request has still to take it, or may come to.
  ghost predicate Exposed(s: State, r: ReqId, ts: set<Thread>, k: nat) {
    Risky(s, r, k) || (EmptyAhead(s, r, k) && (Joinable(s, r, ts) || exists i :: Rival(s, r, ts, i, k)))
  }

  // Nobody can get a refusal at a chunk that `r` has still to take.
  ghost predicate Unrivalled(s: State, r: ReqId, ts: set<Thread>) {
    forall k: nat :: EmptyAhead(s, r, k) ==> !Joinable(s, r, ts) && forall i :: !Rival(s, r, ts, i, k)
  }

  lemma {:induction false} AheadBefore(s: State, s': State, r: ReqId, k: nat)
    requires EmptyAhead(s', r, k) && SameView(s, s', r) && CurrMoves(s, s', r)
    ensures EmptyAhead(s, r, k)
  {
  }

  // Whoever may get in the way of `r` after a step could do so before it, or had still to arrive.
  lemma {:induction false} RivalBefore(s: State, e: Event, r: ReqId, ts: set<Thread>, i: ReqId, k: nat)
    requires Linked(s) && Enabled(s, e) && Active(s, r) && SameView(s, Next(s, e), r) && Rival(Next(s, e), r, ts, i, k)
    requires Inv(s)
    ensures Rival(s, r, ts, i, k) || Joinable(s, r, ts)
  {
    hide Inv, Linked, Enabled, Next, SameView, Lookup;
    NotDeletedYet(s, e, i);
    ViewFile(s, Next(s, e), r);
    if Active(s, i) {
      AnyMoves(s, e, i);
      StepProgress(s, e, i);
    } else {
      Awakes(s, e, i);
      ListedFile(s, e.uri, s.reqs[r].file);
    }
  }

  lemma {:induction false} ViewFile(s: State, s': State, r: ReqId)
    requires SameView(s, s', r)
    ensures r in s.reqs && r in s'.reqs && s'.reqs[r].file == s.reqs[r].file
    ensures s.reqs[r].file in s.files && s.reqs[r].file in s'.files
  {
  }

  lemma {:induction false} JoinableBefore(s: State, e: Event, r: ReqId, ts: set<Thread>)
    requires Linked(s) && Enabled(s, e) && SameView(s, Next(s, e), r) && Joinable(Next(s, e), r, ts)
    requires Inv(s)
    ensures Joinable(s, r, ts)
  {
    hide Inv, Linked, Enabled, Next, SameView, Lookup;
    ViewFile(s, Next(s, e), r);
    FilesFixed(s, e, s.reqs[r].file);
    ListedBefore(s, e, s.files[s.reqs[r].file].uri, s.reqs[r].file);
  }

  lemma {:induction false} UnrivalledStays(s: State, e: Event, r: ReqId, ts: set<Thread>)
    requires Linked(s) && Enabled(s, e) && Active(s, r) && e != Delete(r) && Unrivalled(s, r, ts)
    requires Inv(s)
    ensures Unrivalled(Next(s, e), r, ts)
  {
    hide Inv, Linked, Enabled, Next, SameView, CurrMoves, EmptyAhead, Rival, Joinable;
    KeepsView(s, e, r);
    AnyMoves(s, e, r);
    forall k: nat | EmptyAhead(Next(s, e), r, k)
      ensures !Joinable(Next(s, e), r, ts) && forall i :: !Rival(Next(s, e), r, ts, i, k)
    {
      AheadBefore(s, Next(s, e), r, k);
      if Joinable(Next(s, e), r, ts) {
        JoinableBefore(s, e, r, ts);
      }
      if i :| Rival(Next(s, e), r, ts, i, k) {
        RivalBefore(s, e, r, ts, i, k);
      }
    }
  }

  // The pipe of the request holds as much as before while its current chunk is empty.
  lemma {:induction false} SameFill(s: State, s': State, r: ReqId)
    requires Inv(s) && Inv(s') && CurrRef(s, r) && CurrRef(s', r) && s'.reqs[r] == s.reqs[r] && Serving(s.reqs[r].phase)
    requires s.pipes[CurrOf(s, r)].data == [] && s'.pipes[CurrOf(s', r)].data == []
    ensures BufOf(s', r).filled == BufOf(s, r).filled
  {
    hide Inv, Stalls, LockedChunk, FillLength;
    StallsAtLocked(s, r);
    StallsAtLocked(s', r);
  }

  lemma {:induction false} EmptyAt(s: State, r: ReqId)
    requires r in s.reqs && s.reqs[r].curr.Some? && EmptyAhead(s, r, s.reqs[r].curr.value)
    ensures CurrRef(s, r) && s.pipes[CurrOf(s, r)].data == [] && s.reqs[r].curr.value < |FileOf(s, r).chunks|
    ensures CurrOf(s, r) == FileOf(s, r).chunks[s.reqs[r].curr.value]
  {
  }

  lemma {:induction false} CurrsApart(s: State, r: ReqId, i: ReqId)
    requires CurrRef(s, r) && CurrRef(s, i)
    requires s.reqs[i].file != s.reqs[r].file || s.reqs[i].curr != s.reqs[r].curr
    requires Inv(s)
    ensures CurrOf(s, i) != CurrOf(s, r)
  {
    hide Inv, Owned, CurrRef;
    OwnedHere(s);
    CurrIs(s, r);
    CurrIs(s, i);
    ChunkApart(s, s.reqs[r].file, s.reqs[r].curr.value);
  }

  lemma {:induction false} AsideRival(s: State, e: Event, r: ReqId, ts: set<Thread>)
    requires Aside(s, e, r, ts) && Refused(e) && r in s.reqs && s.reqs[r].curr.Some? && Active(s, e.r)
    requires s.reqs[e.r].file == s.reqs[r].file && s.reqs[e.r].curr == s.reqs[r].curr
    ensures Rival(s, r, ts, e.r, s.reqs[r].curr.value)
  {
  }

  // A fill by somebody who is no rival locks another chunk.
  lemma {:induction false} OtherLock(s: State, e: Event, r: ReqId, ts: set<Thread>)
    requires Enabled(s, e) && Aside(s, e, r, ts) && Refused(e) && CurrRef(s, r) && CurrRef(s, e.r)
    requires forall i :: !Rival(s, r, ts, i, s.reqs[r].curr.value)
    requires Inv(s)
    ensures CurrOf(s, e.r) != CurrOf(s, r)
  {
    hide Inv, Enabled, Aside, Rival;
    FillerActive(s, e);
    if s.reqs[e.r].file == s.reqs[r].file && s.reqs[e.r].curr == s.reqs[r].curr {
      AsideRival(s, e, r, ts);
    }
    CurrsApart(s, r, e.r);
  }

  lemma {:induction false} FillerActive(s: State, e: Event)
    requires Enabled(s, e) && Refused(e)
    ensures Active(s, e.r)
  {
  }

  lemma {:induction false} UnlockedAside(s: State, e: Event, r: ReqId, ts: set<Thread>)
    requires Linked(s) && Enabled(s, e) && Aside(s, e, r, ts) && CurrRef(s, r) && CurrOf(s, r) !in s.locked
    requires forall i :: !Rival(s, r, ts, i, s.reqs[r].curr.value)
    requires Inv(s)
    ensures CurrOf(s, r) !in Next(s, e).locked
  {
    hide Inv, Linked, Enabled, Next, Aside, Rival, CurrRef;
    LocksShrink(s, e);
    if Refused(e) && s.reqs[e.r].curr.Some? {
      OtherLock(s, e, r, ts);
    }
  }

  lemma {:induction false} CalmIs(s: State, r: ReqId, k: nat)
    requires Calm(s, r)
    ensures Active(s, r) && Serving(s.reqs[r].phase) && ReqRefs(s, r)
    ensures EmptyAhead(s, r, k) ==>
              && s.reqs[r].curr.Some? && k == s.reqs[r].curr.value && BufOf(s, r).filled == 0
              && k < |FileOf(s, r).chunks|
              && (s.reqs[r].phase == Flush || (s.reqs[r].phase == Head && FileOf(s, r).chunks[k] !in s.locked))
  {
  }

  lemma {:induction false} CalmAside(s: State, e: Event, r: ReqId, ts: set<Thread>)
    requires Linked(s) && Enabled(s, e) && Aside(s, e, r, ts) && !StepOf(e, r) && Calm(s, r) && Unrivalled(s, r, ts)
    requires Inv(s)
    ensures Calm(Next(s, e), r)
  {
    hide Inv, Linked, Enabled, Next, Aside, StepOf, SameView, CurrMoves, EmptyAhead, Rival, Joinable, CurrRef;
    CalmIs(s, r, 0);
    NotDeleted(e, r);
    OthersUndisturbed(s, e, r);
    KeepsView(s, e, r);
    CurrStill(s, Next(s, e), r);
    var s' := Next(s, e);
    ViewRefs(s, s', r);
    forall k: nat | EmptyAhead(s', r, k)
      ensures s'.reqs[r].curr.Some? && k == s'.reqs[r].curr.value && k < |FileOf(s', r).chunks| && BufOf(s', r).filled == 0
      ensures s'.reqs[r].phase == Flush || (s'.reqs[r].phase == Head && FileOf(s', r).chunks[k] !in s'.locked)
    {
      AheadBefore(s, s', r, k);
      CalmIs(s, r, k);
      EmptyAt(s, r);
      EmptyAt(s', r);
      SameFill(s, s', r);
      if s.reqs[r].phase == Head {
        UnlockedAside(s, e, r, ts);
      }
    }
    MakeCalm(s', r);
  }

  lemma {:induction false} ViewRefs(s: State, s': State, r: ReqId)
    requires SameView(s, s', r)
    ensures ReqRefs(s, r) && ReqRefs(s', r) && s'.reqs[r].file == s.reqs[r].file
    ensures FileOf(s', r).chunks == FileOf(s, r).chunks && s.reqs[r].file in s.files
  {
  }

  lemma {:induction false} MakeCalm(s: State, r: ReqId)
    requires Active(s, r) && Serving(s.reqs[r].phase) && ReqRefs(s, r)
    requires forall k: nat :: EmptyAhead(s, r, k) ==>
               && s.reqs[r].curr.Some? && k == s.reqs[r].curr.value && k < |FileOf(s, r).chunks| && BufOf(s, r).filled == 0
               && (s.reqs[r].phase == Flush || (s.reqs[r].phase == Head && FileOf(s, r).chunks[k] !in s.locked))
    ensures Calm(s, r)
  {
  }

  lemma {:induction false} CalmTurn(s: State, e: Event, r: ReqId)
    requires Linked(s) && Enabled(s, e) && Turn(e, r, true) && Calm(s, r)
    requires Inv(s)
    ensures Calm(Next(s, e), r)
  {
    hide Inv, Linked, Enabled, Next, Calm;
    TurnKinds(e, r);
    if e.Fill? {
      CalmFill(s, e, r);
    } else {
      CalmMove(s, e, r);
    }
  }

  lemma {:induction false} StaysSafe(s: State, r: ReqId, ts: set<Thread>, es: seq<Event>)
    requires Inv(s) && Calm(s, r) && Unrivalled(s, r, ts) && Path(s, es) && CallOf(s, r, ts, true, es)
    ensures !Waits(After(s, es), r)
    decreases |es|
  {
    hide Inv, Linked, Enabled, Next, Turn, Aside, StepOf, Calm, Unrivalled, Waits, During, Refused;
    if es == [] {
      CalmNotWaiting(s, r);
    } else {
      DuringIs(s, es[0], r, ts, true);
      CalmIs(s, r, 0);
      UnrivalledStays(s, es[0], r, ts);
      if Turn(es[0], r, true) {
        CalmTurn(s, es[0], r);
      } else {
        CalmAside(s, es[0], r, ts);
      }
      StepInv(s, es[0]);
      StaysSafe(Next(s, es[0]), r, ts, es[1..]);
    }
  }

  // ----- a rival on its way -------------------------------------------------------------------

  // The publisher's next step, until the choice which headers to send.
  function PublishStep(s: State, r: ReqId): Event
    requires r in s.reqs
  {
    match s.reqs[r].phase
    case PubSent => SizeHeaders(r)
    case PubSized => ShowHeaders(r)
    case PubShown => EmbedChunk(r)
    case _ => ShowEmbedded(r)
  }

  function PhasesLeft(phase: Phase): nat {
    match phase
    case PubSent => 4
    case PubSized => 3
    case PubShown => 2
    case PubTeed(_) => 1
    case _ => 0
  }

  lemma {:induction false} PublishPossible(s: State, r: ReqId)
    requires Active(s, r) && Publishing(s.reqs[r].phase)
    ensures Enabled(s, PublishStep(s, r)) && InHeaders(PublishStep(s, r)) && PublishStep(s, r).r == r
  {
  }

  lemma {:induction false} PublishMoves(s: State, r: ReqId)
    requires Linked(s) && Active(s, r) && Publishing(s.reqs[r].phase)
    ensures var e := PublishStep(s, r);
            && Enabled(s, e) && Active(Next(s, e), r) && InHeaders(e)
            && Next(s, e).reqs[r] == s.reqs[r].(phase := Next(s, e).reqs[r].phase)
            && PhasesLeft(Next(s, e).reqs[r].phase) < PhasesLeft(s.reqs[r].phase)
            && s.reqs[r].file in Next(s, e).files
            && (Publishing(Next(s, e).reqs[r].phase)
                || (Next(s, e).reqs[r].phase == Decide && Next(s, e).files[s.reqs[r].file].writer.None?))
  {
    hide Linked, Enabled, Next;
    PublishPossible(s, r);
    HeaderRefs(s, PublishStep(s, r));
  }

  // `r` is about to fill chunk `k`, which is empty and not locked.
  ghost predicate Target(s: State, r: ReqId, k: nat) {
    && Inv(s) && Linked(s) && Trail(s, r) && r in s.reqs && s.reqs[r].phase == Head && s.reqs[r].curr == Some(k)
    && EmptyAhead(s, r, k) && s.files[s.reqs[r].file].chunks[k] !in s.locked
  }

  // How far a request is from filling its current chunk.
  function Rank(s: State, i: ReqId): nat
    requires ReqRefs(s, i)
  {
    match s.reqs[i].phase
    case Arrived => 12
    case Fresh => 11
    case PubSent => 10
    case PubSized => 9
    case PubShown => 8
    case PubTeed(_) => 7
    case Decide => 6
    case Head => if BufOf(s, i).filled != 0 then 5 else 3
    case Flush => 4
    case Ready => 2
    case Idle => 0
  }

  // `i` has made a step towards chunk `k`, which is as it was.
  ghost predicate Closer(s: State, s': State, r: ReqId, i: ReqId, k: nat) {
    && ReqRefs(s, i) && ReqRefs(s', i) && Active(s', i) && s'.locked == s.locked
    && r in s.reqs && ChunkStays(s, s', s.reqs[r].file, k)
    && s.reqs[i].curr.Some? && s'.reqs[i].curr.Some? && s'.reqs[i].curr.value <= k
    && (s'.reqs[i].curr == s.reqs[i].curr ==> Rank(s', i) < Rank(s, i))
    && s'.reqs[i].curr.value >= s.reqs[i].curr.value
  }

  lemma {:induction false} MakeCloser(s: State, s': State, r: ReqId, i: ReqId, k: nat)
    requires ReqRefs(s, i) && ReqRefs(s', i) && Active(s', i) && s'.locked == s.locked
    requires r in s.reqs && ChunkStays(s, s', s.reqs[r].file, k)
    requires s.reqs[i].curr.Some? && s'.reqs[i].curr.Some?
    requires s.reqs[i].curr.value <= s'.reqs[i].curr.value <= k
    requires s.reqs[i].curr.value == s'.reqs[i].curr.value ==> Rank(s', i) < Rank(s, i)
    ensures Closer(s, s', r, i, k)
  {
    hide Rank, ReqRefs, ChunkStays;
  }

  lemma {:induction false} LoopRank(s: State, s': State, i: ReqId)
    requires ReqRefs(s, i) && ReqRefs(s', i)
    ensures s.reqs[i].phase == Arrived && s'.reqs[i].phase == Fresh ==> Rank(s', i) < Rank(s, i)
    ensures s.reqs[i].phase == Head && s'.reqs[i].phase == Ready ==> Rank(s', i) < Rank(s, i)
    ensures s.reqs[i].phase == Head && BufOf(s, i).filled != 0 && s'.reqs[i].phase == Flush ==> Rank(s', i) < Rank(s, i)
    ensures s.reqs[i].phase == Flush && s'.reqs[i].phase == Head && BufOf(s', i).filled == 0 ==> Rank(s', i) < Rank(s, i)
  {
  }

  lemma {:induction false} TargetStays(s: State, e: Event, r: ReqId, k: nat)
    requires Linked(s) && Enabled(s, e) && Target(s, r, k) && !StepOf(e, r)
    requires ChunkStays(s, Next(s, e), s.reqs[r].file, k) && Next(s, e).locked <= s.locked
    ensures Target(Next(s, e), r, k)
  {
    TargetIs(s, r, k);
    hide Inv, Linked, Enabled, Next, StepOf, SameView, Trail, Target;
    NotDeleted(e, r);
    StepInv(s, e);
    OthersUndisturbed(s, e, r);
    KeepsView(s, e, r);
    TrailStays(s, e, r);
    StillTarget(s, Next(s, e), r, k);
  }

  lemma {:induction false} TargetIs(s: State, r: ReqId, k: nat)
    requires Target(s, r, k)
    ensures Inv(s) && Linked(s) && Trail(s, r) && Active(s, r) && s.reqs[r].phase == Head && s.reqs[r].curr == Some(k)
    ensures EmptyAhead(s, r, k) && ReqRefs(s, r) && k < |FileOf(s, r).chunks| && FileOf(s, r).chunks[k] in s.pipes
    ensures FileOf(s, r).chunks[k] !in s.locked && s.pipes[FileOf(s, r).chunks[k]].data == []
  {
    hide Inv, Linked, Trail;
  }

  lemma {:induction false} StillTarget(s: State, s': State, r: ReqId, k: nat)
    requires Target(s, r, k) && Inv(s') && Linked(s') && Trail(s', r) && SameView(s, s', r)
    requires r in s.reqs && r in s'.reqs && s'.reqs[r] == s.reqs[r] && s'.locked <= s.locked
    requires ChunkStays(s, s', s.reqs[r].file, k)
    ensures Target(s', r, k)
  {
    hide Inv, Linked, Trail;
  }

  // What a rival finds: its current chunk is chunk `k`, or one that is full.
  lemma {:induction false} RivalIs(s: State, r: ReqId, ts: set<Thread>, i: ReqId, k: nat)
    requires Target(s, r, k) && Rival(s, r, ts, i, k)
    ensures i != r && CurrRef(s, i) && EmptyAhead(s, i, k) && Active(s, i) && s.reqs[i].file == s.reqs[r].file
    ensures s.reqs[i].curr.value <= k
    ensures s.reqs[i].curr.value < k ==> s.pipes[CurrOf(s, i)].data != []
    ensures s.reqs[i].curr.value == k ==> CurrOf(s, i) == FileOf(s, r).chunks[k]
  {
    TargetIs(s, r, k);
    hide Inv, Linked, Target;
    RefsAre(s, i);
    CurrIs(s, i);
    if s.reqs[i].curr.value < k {
      assert !EmptyChunk(s, s.reqs[r].file, s.reqs[i].curr.value);
    }
  }

  // The publication of the headers, up to the choice: one's own.
  function HeaderEvent(s: State, i: ReqId): Event
    requires ReqRefs(s, i)
  {
    if s.reqs[i].phase == Fresh then
      if HeadersOf(s, i).filled == 0 && HeadersFree(s, i) then SendHeaders(i, [0]) else SkipHeaders(i)
    else if s.reqs[i].phase == Decide then SendOwnHeaders(i)
    else PublishStep(s, i)
  }

  ghost predicate BeforeHead(phase: Phase) {
    phase == Fresh || phase == Decide || Publishing(phase)
  }

  lemma {:induction false} HeaderPossible(s: State, i: ReqId)
    requires ReqRefs(s, i) && BeforeHead(s.reqs[i].phase)
    ensures var e := HeaderEvent(s, i); Enabled(s, e) && InHeaders(e) && e.r == i
  {
  }

  lemma {:induction false} HeaderCloser(s: State, i: ReqId)
    requires Linked(s) && ReqRefs(s, i) && BeforeHead(s.reqs[i].phase)
    ensures var e := HeaderEvent(s, i);
            && Enabled(s, e) && InHeaders(e) && e.r == i && Active(Next(s, e), i) && Next(s, e).locked == s.locked
            && Next(s, e).reqs[i].curr == s.reqs[i].curr && Next(s, e).reqs[i].phase != Idle
            && (ReqRefs(Next(s, e), i) ==> Rank(Next(s, e), i) < Rank(s, i))
  {
    hide Linked, Enabled, Next;
    HeaderPossible(s, i);
    HeaderRefs(s, HeaderEvent(s, i));
  }

  lemma {:induction false} ActiveHere(s: State, i: ReqId)
    requires Inv(s) && Active(s, i)
    ensures ReqRefs(s, i)
  {
    hide Inv;
    ActiveInv(s, i);
  }

  lemma {:induction false} HeaderOwn(e: Event)
    requires InHeaders(e)
    ensures StepOf(e, e.r) && e != Delete(e.r)
  {
  }

  lemma {:induction false} LoopOwn(e: Event)
    requires e.EarlyFill? || e.Fill? || e.Tee? || e.Splice?
    ensures StepOf(e, e.r) && e != Delete(e.r) && (e.Tee? || e.Splice? ==> !InHeaders(e))
  {
  }

  lemma {:induction false} ActiveIs(s: State, i: ReqId)
    ensures Active(s, i) <==> i in s.reqs && s.reqs[i].phase != Idle
  {
  }

  lemma {:induction false} HeadServes(s: State, i: ReqId)
    requires i in s.reqs && s.reqs[i].phase == Head
    ensures Serving(s.reqs[i].phase)
  {
  }

  lemma {:induction false} FlushServes(s: State, i: ReqId)
    requires i in s.reqs && s.reqs[i].phase == Flush
    ensures Serving(s.reqs[i].phase)
  {
  }

  lemma {:induction false} FilledIs(s: State, s': State, i: ReqId)
    requires Filled(s, s', i) && ReqRefs(s, i)
    ensures i in s'.reqs && Active(s', i) && s'.reqs[i].curr == s.reqs[i].curr
    ensures s'.reqs[i].phase == if BufOf(s, i).filled == 0 then Ready else Flush
  {
  }

  lemma {:induction false} MovedIs(s: State, s': State, i: ReqId)
    requires TeeMoved(s, s', i)
    ensures CurrRef(s, i) && i in s'.reqs && Active(s', i)
    ensures s'.reqs[i].curr == if s.reqs[i].curr.value + 1 == |FileOf(s, i).chunks| then None else Some(s.reqs[i].curr.value + 1)
  {
  }

  // A full chunk is another one.
  lemma {:induction false} NotTheChunk(s: State, r: ReqId, i: ReqId, k: nat)
    requires EmptyAhead(s, r, k) && CurrRef(s, i) && s.reqs[i].file == s.reqs[r].file && s.reqs[i].curr.value <= k
    requires !EmptyChunk(s, s.reqs[i].file, s.reqs[i].curr.value)
    ensures s.reqs[i].curr.value + 1 <= k < |FileOf(s, i).chunks|
  {
  }

  lemma {:induction false} SpliceOut(s: State, i: ReqId)
    requires ReqRefs(s, i) && 0 <= BufOf(s, i).filled == |BufOf(s, i).data|
    ensures var s' := SpliceStep(s, i, BufOf(s, i).filled);
            && i in s'.reqs && Active(s', i) && s'.reqs[i].phase == Head && s'.reqs[i].curr == s.reqs[i].curr
            && s'.locked == s.locked && (ReqRefs(s', i) ==> BufOf(s', i).filled == 0)
  {
  }

  // A step on the way to the serve loop.
  lemma {:induction false} RivalHeads(s: State, r: ReqId, ts: set<Thread>, i: ReqId, k: nat) returns (e: Event)
    requires Target(s, r, k) && Rival(s, r, ts, i, k) && BeforeHead(s.reqs[i].phase)
    ensures Linked(s) && Enabled(s, e) && StepOf(e, i) && e != Delete(i) && Closer(s, Next(s, e), r, i, k)
  {
    hide Inv, Linked, Trail, Enabled, Next, Target, Rival, ChunkStays, Owned, StepOf, Closer, InHeaders, Turn, HeaderEvent, Rank, HeadersOf, BeforeHead;
    TargetIs(s, r, k);
    RivalIs(s, r, ts, i, k);
    e := HeaderEvent(s, i);
    HeaderCloser(s, i);
    HeaderOwn(e);
    StepInv(s, e);
    ActiveHere(Next(s, e), i);
    OwnedHere(s);
    ChunkOfFile(s, s.reqs[r].file, k);
    OtherStepChunk(s, e, s.reqs[r].file, k);
    MakeCloser(s, Next(s, e), r, i, k);
  }

  lemma {:induction false} EarlyIs(s: State, i: ReqId, ok: bool)
    requires Linked(s) && CurrRef(s, i) && s.reqs[i].phase == Arrived && !Stalls(s, i)
    ensures Enabled(s, EarlyFill(i, ok)) && Next(s, EarlyFill(i, ok)) == EarlyFillStep(s, i, ok)
  {
    hide EarlyFillStep;
  }

  lemma {:induction false} EarlyChunk(s: State, i: ReqId, ok: bool, f: FileId, k: nat)
    requires CurrRef(s, i) && ChunkStays(s, FillCurr(s, i, ok).0, f, k)
    ensures ChunkStays(s, EarlyFillStep(s, i, ok), f, k)
    ensures EarlyFillStep(s, i, ok).reqs == s.reqs[i := s.reqs[i].(phase := Fresh)]
  {
    FillCurrShape(s, i, ok);
    hide FillCurr;
  }

  lemma {:induction false} FillChunk(s: State, i: ReqId, ok: bool, f: FileId, k: nat)
    requires CurrRef(s, i) && ChunkStays(s, FillCurr(s, i, ok).0, f, k)
    ensures ChunkStays(s, FillStep(s, i, ok), f, k)
  {
    FillWrote(s, i, ok);
    hide FillCurr, FillStep;
  }

  // A fill of another chunk of the same file.
  lemma {:induction false} ElsewhereFill(s: State, r: ReqId, ts: set<Thread>, i: ReqId, k: nat)
    requires Target(s, r, k) && Rival(s, r, ts, i, k) && s.reqs[i].curr.value < k
    ensures CurrRef(s, i) && ReqRefs(s, r) && ChunkStays(s, FillCurr(s, i, true).0, s.reqs[r].file, k)
    ensures s.reqs[i].phase == Arrived || Serving(s.reqs[i].phase) ==> !Stalls(s, i)
  {
    TargetIs(s, r, k);
    RivalIs(s, r, ts, i, k);
    hide Inv, Linked, Target, Owned, ChunkStays, Stalls, FillCurr;
    CurrIs(s, i);
    OwnedHere(s);
    ChunkApart(s, s.reqs[r].file, k);
    FillTouches(s, i, true, s.reqs[r].file, k);
    if s.reqs[i].phase == Arrived || Serving(s.reqs[i].phase) {
      StallsAtLocked(s, i);
    }
  }

  lemma {:induction false} RivalArrives(s: State, r: ReqId, ts: set<Thread>, i: ReqId, k: nat) returns (e: Event)
    requires Target(s, r, k) && Rival(s, r, ts, i, k) && s.reqs[i].phase == Arrived && s.reqs[i].curr.value < k
    ensures Linked(s) && Enabled(s, e) && StepOf(e, i) && e != Delete(i) && Closer(s, Next(s, e), r, i, k)
  {
    hide Inv, Linked, Trail, Enabled, Next, Target, Rival, ChunkStays, Owned, StepOf, Closer, InHeaders, Turn, Stalls, FillCurr, EarlyFillStep, Rank, EmptyAhead;
    TargetIs(s, r, k);
    RivalIs(s, r, ts, i, k);
    ElsewhereFill(s, r, ts, i, k);
    e := EarlyFill(i, true);
    EarlyIs(s, i, true);
    EarlyChunk(s, i, true, s.reqs[r].file, k);
    FillLocks(s, e);
    StepInv(s, e);
    LoopOwn(e);
    ActiveIs(Next(s, e), i);
    ActiveHere(Next(s, e), i);
    LoopRank(s, Next(s, e), i);
    MakeCloser(s, Next(s, e), r, i, k);
  }

  lemma {:induction false} RivalFills(s: State, r: ReqId, ts: set<Thread>, i: ReqId, k: nat) returns (e: Event)
    requires Target(s, r, k) && Rival(s, r, ts, i, k) && s.reqs[i].phase == Head && s.reqs[i].curr.value < k
    ensures Linked(s) && Enabled(s, e) && StepOf(e, i) && e != Delete(i) && Closer(s, Next(s, e), r, i, k)
  {
    hide Inv, Linked, Trail, Enabled, Next, Target, Rival, ChunkStays, Owned, StepOf, Closer, InHeaders, Turn, Stalls, FillCurr, FillStep, LoopGuard, SameView, Untouched, EmptyAhead, Rank, Filled, EmptyChunk;
    TargetIs(s, r, k);
    RivalIs(s, r, ts, i, k);
    ElsewhereFill(s, r, ts, i, k);
    e := Fill(i, true);
    HeadServes(s, i);
    GuardAhead(s, i, k);
    FillTurn(s, i, FillStep(s, i, true));
    FilledIs(s, Next(s, e), i);
    FillChunk(s, i, true, s.reqs[r].file, k);
    LoopOwn(e);
    ActiveHere(Next(s, e), i);
    LoopRank(s, Next(s, e), i);
    MakeCloser(s, Next(s, e), r, i, k);
  }

  lemma {:induction false} RivalTees(s: State, r: ReqId, ts: set<Thread>, i: ReqId, k: nat) returns (e: Event)
    requires Target(s, r, k) && Rival(s, r, ts, i, k) && s.reqs[i].phase == Ready
    ensures Linked(s) && Enabled(s, e) && StepOf(e, i) && e != Delete(i) && Closer(s, Next(s, e), r, i, k)
  {
    hide Inv, Linked, Trail, Enabled, Next, Target, Rival, ChunkStays, Owned, StepOf, Closer, InHeaders, Turn, TeeStep, SameView, Untouched, EmptyAhead, Rank, TeeMoved, EmptyChunk;
    TargetIs(s, r, k);
    RivalIs(s, r, ts, i, k);
    e := Tee(i, true);
    ReadyIsFull(s, i);
    CurrIs(s, i);
    NotTheChunk(s, r, i, k);
    TeeTurn(s, i, TeeStep(s, i, true));
    MovedIs(s, Next(s, e), i);
    LoopOwn(e);
    OwnedHere(s);
    ChunkOfFile(s, s.reqs[r].file, k);
    OtherStepChunk(s, e, s.reqs[r].file, k);
    ActiveHere(Next(s, e), i);
    MakeCloser(s, Next(s, e), r, i, k);
  }

  lemma {:induction false} RivalSplices(s: State, r: ReqId, ts: set<Thread>, i: ReqId, k: nat) returns (e: Event)
    requires Target(s, r, k) && Rival(s, r, ts, i, k) && s.reqs[i].phase == Flush
    ensures Linked(s) && Enabled(s, e) && StepOf(e, i) && e != Delete(i) && Closer(s, Next(s, e), r, i, k)
  {
    hide Inv, Linked, Trail, Enabled, Next, Target, Rival, ChunkStays, Owned, StepOf, Closer, InHeaders, Turn, SpliceStep, EmptyAhead, Rank;
    TargetIs(s, r, k);
    RivalIs(s, r, ts, i, k);
    FlushServes(s, i);
    PipeIsPlain(s, i);
    e := Splice(i, BufOf(s, i).filled);
    SpliceIs(s, i, BufOf(s, i).filled);
    SpliceOut(s, i);
    LoopOwn(e);
    StepInv(s, e);
    OwnedHere(s);
    ChunkOfFile(s, s.reqs[r].file, k);
    OtherStepChunk(s, e, s.reqs[r].file, k);
    ActiveHere(Next(s, e), i);
    LoopRank(s, Next(s, e), i);
    MakeCloser(s, Next(s, e), r, i, k);
  }

  lemma {:induction false} RivalStays(s: State, e: Event, r: ReqId, ts: set<Thread>, i: ReqId, k: nat)
    requires Linked(s) && Enabled(s, e) && Target(s, r, k) && Rival(s, r, ts, i, k)
    requires StepOf(e, i) && e != Delete(i) && Closer(s, Next(s, e), r, i, k)
    ensures Target(Next(s, e), r, k) && Rival(Next(s, e), r, ts, i, k) && !StepOf(e, r) && Aside(s, e, r, ts)
  {
    hide Inv, Linked, Trail, Enabled, Next, Target, ChunkStays, SameView;
    TargetIs(s, r, k);
    TargetStays(s, e, r, k);
    TargetIs(Next(s, e), r, k);
    OthersUndisturbed(s, e, r);
    StepProgress(s, e, i);
  }

  // The refusal: the chunk is as empty as before, and locked.
  ghost predicate LeftLocked(s: State, s': State, r: ReqId, k: nat) {
    && ReqRefs(s, r) && k < |FileOf(s, r).chunks| && FileOf(s, r).chunks[k] in s.pipes
    && s'.pipes == s.pipes && s'.files == s.files && FileOf(s, r).chunks[k] in s'.locked
  }

  lemma {:induction false} RefusedFill(s: State, i: ReqId)
    requires CurrRef(s, i) && s.pipes[CurrOf(s, i)].filled < FillLength(s, i)
    ensures var s1 := FillCurr(s, i, false).0; s1.pipes == s.pipes && s1.files == s.files && CurrOf(s, i) in s1.locked
    ensures EarlyFillStep(s, i, false).pipes == s.pipes && EarlyFillStep(s, i, false).files == s.files
    ensures CurrOf(s, i) in EarlyFillStep(s, i, false).locked
    ensures FillStep(s, i, false).pipes == s.pipes && FillStep(s, i, false).files == s.files
    ensures CurrOf(s, i) in FillStep(s, i, false).locked
  {
  }

  // The rival stands at the chunk, and its fill is refused.
  lemma {:induction false} RivalLocks(s: State, r: ReqId, ts: set<Thread>, i: ReqId, k: nat) returns (e: Event)
    requires Target(s, r, k) && Rival(s, r, ts, i, k) && s.reqs[i].curr == Some(k)
    requires s.reqs[i].phase == Arrived || s.reqs[i].phase == Head
    ensures Linked(s) && Enabled(s, e) && StepOf(e, i) && e != Delete(i) && LeftLocked(s, Next(s, e), r, k)
  {
    hide Inv, Linked, Trail, Enabled, Next, Target, Rival, Stalls, FillCurr, FillStep, EarlyFillStep, LoopGuard, EmptyAhead,
         FillLength, FillOffset;
    TargetIs(s, r, k);
    RivalIs(s, r, ts, i, k);
    StallsAtLocked(s, i);
    RefusedFill(s, i);
    if s.reqs[i].phase == Arrived {
      e := EarlyFill(i, false);
      EarlyIs(s, i, false);
    } else {
      e := Fill(i, false);
      GuardAhead(s, i, k);
      FillIs(s, i, false);
    }
  }

  lemma {:induction false} Trapped(s: State, e: Event, r: ReqId, k: nat)
    requires Linked(s) && Enabled(s, e) && Target(s, r, k) && !StepOf(e, r) && LeftLocked(s, Next(s, e), r, k)
    ensures Waits(Next(s, e), r)
  {
    hide Inv, Linked, Trail, Enabled, Next, Target, StepOf, Waits, Stalls;
    TargetIs(s, r, k);
    OthersUndisturbed(s, e, r);
    StepInv(s, e);
    ActiveHere(Next(s, e), r);
    assert EmptyAhead(Next(s, e), r, k);
    WaitsHere(Next(s, e), r);
  }

  // One step of the rival on its way to the chunk.
  lemma {:induction false} RivalStep(s: State, r: ReqId, ts: set<Thread>, i: ReqId, k: nat) returns (e: Event)
    requires Target(s, r, k) && Rival(s, r, ts, i, k)
    requires !(s.reqs[i].curr == Some(k) && (s.reqs[i].phase == Arrived || s.reqs[i].phase == Head))
    ensures Linked(s) && Enabled(s, e) && StepOf(e, i) && e != Delete(i) && Closer(s, Next(s, e), r, i, k)
  {
    hide Target, Linked, Enabled, Next, Closer, StepOf;
    match s.reqs[i].phase
    case Arrived => e := RivalArrives(s, r, ts, i, k);
    case Head => e := RivalFills(s, r, ts, i, k);
    case Ready => e := RivalTees(s, r, ts, i, k);
    case Flush => e := RivalSplices(s, r, ts, i, k);
    case _ => e := RivalHeads(s, r, ts, i, k);
  }

  lemma {:induction false} CloserIs(s: State, s': State, r: ReqId, i: ReqId, k: nat)
    requires Closer(s, s', r, i, k)
    ensures ReqRefs(s, i) && ReqRefs(s', i) && s.reqs[i].curr.Some? && s'.reqs[i].curr.Some?
    ensures s.reqs[i].curr.value <= s'.reqs[i].curr.value <= k
    ensures s.reqs[i].curr.value == s'.reqs[i].curr.value ==> Rank(s', i) < Rank(s, i)
  {
    hide Rank, ReqRefs, ChunkStays;
  }

  lemma {:induction false} AsideFirst(s: State, r: ReqId, ts: set<Thread>, e: Event, es: seq<Event>)
    requires Linked(s) && Enabled(s, e) && Aside(s, e, r, ts) && HangsBy(Next(s, e), r, ts, true, es)
    ensures HangsBy(s, r, ts, true, [e] + es)
  {
    hide Linked, Enabled, Next, Waits, Aside, Turn;
    assert ([e] + es)[0] == e && ([e] + es)[1..] == es;
  }

  lemma {:induction false} HangsNow(s: State, r: ReqId, ts: set<Thread>)
    requires Waits(s, r)
    ensures HangsBy(s, r, ts, true, [])
  {
    hide Waits;
  }

  lemma {:induction false} RivalMeans(s: State, r: ReqId, ts: set<Thread>, i: ReqId, k: nat)
    requires Rival(s, r, ts, i, k)
    ensures i != r && i in s.reqs && s.reqs[i].curr.Some? && s.reqs[i].curr.value <= k && s.reqs[i].home in ts
  {
  }

  lemma {:induction false} OwnIsAside(s: State, e: Event, r: ReqId, ts: set<Thread>, i: ReqId)
    requires StepOf(e, i) && i != r && i in s.reqs && s.reqs[i].home in ts
    ensures Aside(s, e, r, ts) && !StepOf(e, r)
  {
  }

  // The rival comes to the chunk first, its fill is refused, and `r` waits.
  lemma {:induction false} RivalPath(s: State, r: ReqId, ts: set<Thread>, i: ReqId, k: nat) returns (es: seq<Event>)
    requires Target(s, r, k) && Rival(s, r, ts, i, k) && ReqRefs(s, i)
    ensures HangsBy(s, r, ts, true, es)
    decreases k - s.reqs[i].curr.value, Rank(s, i)
  {
    hide Target, Linked, Enabled, Next, Closer, StepOf, Rival, Aside, LeftLocked, HangsBy, Waits, Rank, ReqRefs;
    RivalMeans(s, r, ts, i, k);
    var e;
    if s.reqs[i].curr == Some(k) && (s.reqs[i].phase == Arrived || s.reqs[i].phase == Head) {
      e := RivalLocks(s, r, ts, i, k);
      OwnIsAside(s, e, r, ts, i);
      Trapped(s, e, r, k);
      HangsNow(Next(s, e), r, ts);
      es := [];
    } else {
      e := RivalStep(s, r, ts, i, k);
      OwnIsAside(s, e, r, ts, i);
      RivalStays(s, e, r, ts, i, k);
      CloserIs(s, Next(s, e), r, i, k);
      RivalMeans(Next(s, e), r, ts, i, k);
      es := RivalPath(Next(s, e), r, ts, i, k);
    }
    AsideFirst(s, r, ts, e, es);
    es := [e] + es;
  }

  // ----- a newcomer ---------------------------------------------------------------------------

  // A number above every socket of these requests.
  function AboveSockets(s: State, live: seq<ReqId>): (x: int)
    ensures forall i <- live :: i in s.reqs ==> s.reqs[i].socket < x
  {
    if live == [] then 0
    else
      var rest := AboveSockets(s, live[1..]);
      if live[0] in s.reqs && s.reqs[live[0]].socket >= rest then s.reqs[live[0]].socket + 1 else rest
  }

  lemma {:induction false} SetupCan(s: State, t: Thread, uri: Uri) returns (e: Event)
    requires t in s.workers && Lookup(s.table, uri).Some?
    ensures Enabled(s, e) && e.Setup? && e.t == t && e.uri == uri
  {
    e := Setup(t, AboveSockets(s, s.workers[t].live), uri);
  }

  lemma {:induction false} JoinableIs(s: State, r: ReqId, ts: set<Thread>) returns (t: Thread)
    requires Joinable(s, r, ts)
    ensures r in s.reqs && s.reqs[r].file in s.files && t in s.workers && t in ts
    ensures Lookup(s.table, s.files[s.reqs[r].file].uri) == Some(s.reqs[r].file)
  {
    t :| t in s.workers && t in ts;
  }

  // Somebody else asks for the file: a new rival, with all its chunks still to take.
  lemma {:induction false} Joins(s: State, r: ReqId, ts: set<Thread>, k: nat) returns (e: Event, i: ReqId)
    requires Target(s, r, k) && Joinable(s, r, ts)
    ensures Linked(s) && Enabled(s, e) && Aside(s, e, r, ts) && Target(Next(s, e), r, k) && Rival(Next(s, e), r, ts, i, k)
  {
    hide Inv, Linked, Trail, Enabled, Next, Target, Joinable, ChunkStays, Lookup, EmptyAhead, ReqRefs;
    TargetIs(s, r, k);
    var t := JoinableIs(s, r, ts);
    e := SetupCan(s, t, s.files[s.reqs[r].file].uri);
    PoolStepChunk(s, e, s.reqs[r].file, k);
    SetupShrinks(s, e);
    TargetStays(s, e, r, k);
    TargetIs(Next(s, e), r, k);
    OthersUndisturbed(s, e, r);
    var f;
    f, i := SetupShape(s, e);
  }

  lemma {:induction false} JoinPath(s: State, r: ReqId, ts: set<Thread>, k: nat) returns (es: seq<Event>)
    requires Target(s, r, k) && Joinable(s, r, ts)
    ensures HangsBy(s, r, ts, true, es)
  {
    hide Inv, Linked, Enabled, Next, Target, Joinable, Rival, Aside, HangsBy, Rank;
    var e, i := Joins(s, r, ts, k);
    TargetIs(Next(s, e), r, k);
    RivalIs(Next(s, e), r, ts, i, k);
    CurrIs(Next(s, e), i);
    var rest := RivalPath(Next(s, e), r, ts, i, k);
    AsideFirst(s, r, ts, e, rest);
    es := [e] + rest;
  }

  lemma {:induction false} ExposedPath(s: State, r: ReqId, ts: set<Thread>, k: nat) returns (es: seq<Event>)
    requires Inv(s) && Linked(s) && r in s.reqs && s.reqs[r].phase == Head && Trail(s, r) && Exposed(s, r, ts, k)
    ensures HangsBy(s, r, ts, true, es)
  {
    hide Inv, Linked, Trail, Joinable, Rival, HangsBy, EmptyChunk, ReqRefs;
    if Risky(s, r, k) {
      es := RiskyPath(s, r, k);
      HangsAloneToo(s, r, ts, true, es);
    } else {
      assert Target(s, r, k);
      if Joinable(s, r, ts) {
        es := JoinPath(s, r, ts, k);
      } else {
        var i :| Rival(s, r, ts, i, k);
        RivalIs(s, r, ts, i, k);
        CurrIs(s, i);
        es := RivalPath(s, r, ts, i, k);
      }
    }
  }

  lemma {:induction false} SafeStart(s: State, r: ReqId, ts: set<Thread>)
    requires Inv(s) && r in s.reqs && s.reqs[r].phase == Head && forall k: nat :: !Exposed(s, r, ts, k)
    ensures Calm(s, r) && Unrivalled(s, r, ts)
  {
    hide Inv, Joinable, Rival;
    HeadIsActive(s, r);
    forall k: nat | EmptyAhead(s, r, k)
      ensures k == s.reqs[r].curr.value && BufOf(s, r).filled == 0 && s.files[s.reqs[r].file].chunks[k] !in s.locked
      ensures !Joinable(s, r, ts) && forall i :: !Rival(s, r, ts, i, k)
    {
      assert !Exposed(s, r, ts, k);
    }
  }

  // When vmsplice may be refused to anybody, a call can come to wait exactly when a chunk it has still
  // to take is empty and somebody's fill of that chunk can be refused before the call has it.
  lemma {:induction false} CallMayHang(s: State, r: ReqId, ts: set<Thread>)
    requires Inv(s) && r in s.reqs && s.reqs[r].phase == Head && Trail(s, r)
    ensures CanHang(s, r, ts, true) <==> exists k: nat :: Exposed(s, r, ts, k)
  {
    hide Inv, Linked, Trail, HangsBy, Exposed, Calm, Unrivalled;
    InvLinked(s);
    if k: nat :| Exposed(s, r, ts, k) {
      var es := ExposedPath(s, r, ts, k);
    }
    if es :| HangsBy(s, r, ts, true, es) {
      HangIs(s, r, ts, true, es);
      if forall k: nat :: !Exposed(s, r, ts, k) {
        SafeStart(s, r, ts);
        StaysSafe(s, r, ts, es);
      }
    }
  }

  // A call that has no empty chunk ahead of it never waits, whatever is refused to whom.
  lemma {:induction false} FullAheadReturns(s: State, r: ReqId, ts: set<Thread>)
    requires Inv(s) && r in s.reqs && s.reqs[r].phase == Head && forall k: nat :: !EmptyAhead(s, r, k)
    ensures !CanHang(s, r, ts, true)
  {
    hide Inv, HangsBy, Joinable, Rival, EmptyAhead, Calm, Unrivalled;
    forall k: nat ensures !Exposed(s, r, ts, k) {
    }
    SafeStart(s, r, ts);
    if es :| HangsBy(s, r, ts, true, es) {
      HangIs(s, r, ts, true, es);
      StaysSafe(s, r, ts, es);
    }
  }

  // ----- what an unfinished call returns ------------------------------------------------------

  // The call, with others in between, leaves the loop because the socket takes no more.
  ghost predicate Blocked(s: State, r: ReqId, ts: set<Thread>, es: seq<Event>)
    requires Path(s, es)
  {
    && es != [] && es[|es| - 1] == Splice(r, 0)
    && (PathPrefix(s, es, |es| - 1); CallOf(s, r, ts, true, es[..|es| - 1]))
  }

  lemma {:induction false} PathPrefix(s: State, es: seq<Event>, n: nat)
    requires Path(s, es) && n <= |es|
    ensures Path(s, es[..n])
    decreases n
  {
    hide Linked, Enabled, Next;
    if n > 0 {
      PathPrefix(Next(s, es[0]), es[1..], n - 1);
      assert es[..n][1..] == es[1..][..n - 1];
    }
  }

  // It has bytes left to send, but its int return value is not positive: the caller takes the
  // response for finished or failed.
  ghost predicate EndsShort(s: State, r: ReqId, ts: set<Thread>, es: seq<Event>) {
    && Path(s, es) && Blocked(s, r, ts, es) && r in After(s, es).reqs
    && var left := After(s, es).reqs[r].bytesToSend;
       0 < left && ToInt32(left) <= 0
  }

  // A step of the loop of `r`, or of somebody else.
  predicate LoopStep(e: Event, r: ReqId) {
    !StepOf(e, r) || e.Fill? || e.Tee? || e.Splice?
  }

  lemma {:induction false} OwnFalls(s: State, e: Event, r: ReqId)
    requires Linked(s) && Enabled(s, e) && StepOf(e, r) && (e.Fill? || e.Tee? || e.Splice?)
    ensures r in s.reqs && r in Next(s, e).reqs && Next(s, e).reqs[r].bytesToSend <= s.reqs[r].bytesToSend
  {
    hide Linked;
  }

  lemma {:induction false} StepFalls(s: State, e: Event, r: ReqId)
    requires Linked(s) && Enabled(s, e) && LoopStep(e, r) && Active(s, r)
    requires Inv(s)
    ensures e != Delete(r) && r in Next(s, e).reqs && Next(s, e).reqs[r].bytesToSend <= s.reqs[r].bytesToSend
    ensures Active(Next(s, e), r)
  {
    hide Inv, Linked, Enabled, Next, SameView;
    if StepOf(e, r) {
      OwnFalls(s, e, r);
    } else {
      OthersUndisturbed(s, e, r);
    }
    KeepsView(s, e, r);
  }

  lemma {:induction false} LeftFalls(s: State, r: ReqId, es: seq<Event>)
    requires Inv(s) && Path(s, es) && Active(s, r) && forall i :: 0 <= i < |es| ==> LoopStep(es[i], r)
    ensures r in After(s, es).reqs && After(s, es).reqs[r].bytesToSend <= s.reqs[r].bytesToSend
    decreases |es|
  {
    hide Inv, Linked, Enabled, Next, LoopStep;
    if es != [] {
      StepFalls(s, es[0], r);
      StepInv(s, es[0]);
      assert forall i :: 0 <= i < |es| - 1 ==> es[1..][i] == es[i + 1];
      LeftFalls(Next(s, es[0]), r, es[1..]);
    }
  }

  // A wait is not followed by a step of one's own.
  lemma {:induction false} WaitsThrough(s: State, r: ReqId, es: seq<Event>)
    requires Inv(s) && Path(s, es) && Waits(s, r) && forall i :: 0 <= i < |es| ==> es[i] != Delete(r)
    ensures forall i :: 0 <= i < |es| ==> !StepOf(es[i], r)
    decreases |es|
  {
    hide Inv, Linked, Enabled, Next, Waits, StepOf;
    if es != [] {
      WaitsOn(s, es[0], r);
      StepInv(s, es[0]);
      WaitsThrough(Next(s, es[0]), r, es[1..]);
      forall i | 0 <= i < |es| ensures !StepOf(es[i], r) {
        assert i > 0 ==> es[i] == es[1..][i - 1];
      }
    }
  }

  lemma {:induction false} CallSteps(s: State, r: ReqId, ts: set<Thread>, es: seq<Event>)
    requires Path(s, es) && CallOf(s, r, ts, true, es)
    ensures forall i :: 0 <= i < |es| ==> LoopStep(es[i], r) && es[i] != Delete(r)
    decreases |es|
  {
    hide Linked, Enabled, Next;
    if es != [] {
      CallSteps(Next(s, es[0]), r, ts, es[1..]);
      forall i | 0 <= i < |es| ensures LoopStep(es[i], r) && es[i] != Delete(r) {
        assert i > 0 ==> es[i] == es[1..][i - 1];
      }
    }
  }

  lemma {:induction false} BlockedSteps(s: State, r: ReqId, ts: set<Thread>, es: seq<Event>)
    requires Path(s, es) && Blocked(s, r, ts, es)
    ensures es != [] && StepOf(es[|es| - 1], r)
    ensures forall i :: 0 <= i < |es| ==> LoopStep(es[i], r) && es[i] != Delete(r)
  {
    hide Path;
    PathPrefix(s, es, |es| - 1);
    CallSteps(s, r, ts, es[..|es| - 1]);
    forall i | 0 <= i < |es| ensures LoopStep(es[i], r) && es[i] != Delete(r) {
      assert i < |es| - 1 ==> es[..|es| - 1][i] == es[i];
    }
  }

  lemma {:induction false} ShortPath(s: State, r: ReqId, ts: set<Thread>) returns (es: seq<Event>)
    requires Inv(s) && Linked(s) && ReqRefs(s, r) && s.reqs[r].phase == Head && LoopGuard(s, r) && !Waits(s, r)
    requires 0 < s.reqs[r].bytesToSend && ToInt32(s.reqs[r].bytesToSend) <= 0
    ensures EndsShort(s, r, ts, es)
  {
    hide Inv, Linked, Enabled, Waits, LoopGuard, ToInt32, Turns, Path, After, CallOf;
    var s1, fs := ToSplice(s, r);
    PipeIsPlain(s1, r);
    SpliceIs(s1, r, 0);
    var s2 := SpliceStep(s1, r, 0);
    assert s2.reqs[r].bytesToSend == s1.reqs[r].bytesToSend;
    hide Next, SpliceStep;
    PathOne(s1, Splice(r, 0));
    PathJoin(s, fs, [Splice(r, 0)]);
    es := fs + [Splice(r, 0)];
    assert es[..|es| - 1] == fs;
    AloneIsCall(s, r, ts, true, fs);
  }

  // A serve call can return a non-positive int with bytes unsent exactly when what the client is
  // still owed does not fit an int and the call does not start by waiting, whoever acts meanwhile.
  lemma {:induction false} IntReturnExact(s: State, r: ReqId, ts: set<Thread>)
    requires Inv(s) && r in s.reqs && s.reqs[r].phase == Head
    ensures ReqRefs(s, r)
    ensures (exists es :: EndsShort(s, r, ts, es)) <==> |Response(s, r)| - |s.reqs[r].sent| > INT_MAX && !Waits(s, r)
  {
    hide Inv, Linked, EndsShort, Waits, ToInt32;
    InvLinked(s);
    ServingFacts(s, r);
    GuardMeansUnsent(s, r);
    OwedFits(s, r);
    var left := s.reqs[r].bytesToSend;
    if left > INT_MAX && !Waits(s, r) {
      var es := ShortPath(s, r, ts);
    }
    if es :| EndsShort(s, r, ts, es) {
      ShortMeans(s, r, ts, es);
    }
  }

  lemma {:induction false} OwedFits(s: State, r: ReqId)
    requires Inv(s) && r in s.reqs && Serving(s.reqs[r].phase)
    ensures 0 <= s.reqs[r].bytesToSend <= INT_MAX + PIPE_SIZE
    ensures ToInt32(s.reqs[r].bytesToSend) <= 0 <==> s.reqs[r].bytesToSend == 0 || s.reqs[r].bytesToSend > INT_MAX
    ensures ToInt32(s.reqs[r].bytesToSend) == 0 <==> s.reqs[r].bytesToSend == 0
  {
    hide Owned, PipesOk, ListsOk, FilesOk, ContentOk, ToInt32;
    ActiveRefs(s, r);
    ServingFacts(s, r);
    IntMeans(s.reqs[r].bytesToSend);
  }

  lemma {:induction false} BiggerStill(x: int, y: int)
    requires 0 < x <= y <= INT_MAX + PIPE_SIZE && ToInt32(x) <= 0
    ensures y > INT_MAX
  {
    IntMeans(x);
  }

  lemma {:induction false} ShortMeans(s: State, r: ReqId, ts: set<Thread>, es: seq<Event>)
    requires Inv(s) && r in s.reqs && s.reqs[r].phase == Head && EndsShort(s, r, ts, es)
    ensures s.reqs[r].bytesToSend > INT_MAX && !Waits(s, r)
  {
    hide Inv, Linked, Enabled, Next, Waits, Blocked, Path, After, LoopStep, StepOf, ToInt32;
    BlockedSteps(s, r, ts, es);
    OwedFits(s, r);
    LeftFalls(s, r, es);
    BiggerStill(After(s, es).reqs[r].bytesToSend, s.reqs[r].bytesToSend);
    if Waits(s, r) {
      WaitsThrough(s, r, es);
    }
  }
}
