/**
 What holds in every state a session can reach, whatever the interleaving, and what it
 means for the memory the workers touch, the QUIC handles, the blocked-stream count and
 the response bytes.
 */
module SessionSafety {
  import opened Options
  import opened ResponseQueue
  import opened SendPath
  import opened Session

  // ---------------------------------------------------------------------------
  // The invariant
  // ---------------------------------------------------------------------------

  /** No worker has finished this response: it is complete only if it was cancelled. */
  ghost predicate Unfinished(l: Lane) { l.send.q.complete ==> l.send.q.cancelled }

  ghost predicate LaneOk(l: Lane, dead: bool, destroyed: bool) {
    && SendInv(l.send, dead)
    // a stream without a handle, and a reclaimed stream, have lost their response
    && (l.qstream.None? || !l.tracked ==> l.send.q.cancelled)
    && (!l.tracked ==> l.qstream.None? && !l.writeBlocked && l.workerDone)
    // the flag is nghttp3's blocked state, as long as both sides know the stream
    && (l.tracked && l.send.ng.Some? ==> (l.writeBlocked <==> l.send.ng.value.flowBlocked))
    && (l.poolLive <==> l.tracked && !destroyed)
    && (l.send.log.cleaned ==> !l.tracked || destroyed)
    && (l.workerDone ==> l.dispatched)
    && (!l.dispatched ==> Unfinished(l))
    && l.submitCalls <= 1
    && (l.submitCalls == 1 ==> l.send.q.submitted || l.send.q.cancelled)
    && (l.send.q.submitted ==> l.submitCalls == 1)
  }

  ghost predicate LanesOk(s: State) {
    && s.limit > 0
    && (forall i | 0 <= i < |s.lanes| :: LaneOk(s.lanes[i], s.ngDead, s.destroyed))
    && (forall i, j | 0 <= i < j < |s.lanes| && s.lanes[i].tracked && s.lanes[j].tracked ::
          s.lanes[i].sid != s.lanes[j].sid)
  }

  function Flagged(l: Lane): nat { if l.writeBlocked then 1 else 0 }

  /** How many streams are flagged write-blocked. */
  function CountBlocked(ls: seq<Lane>): nat {
    if ls == [] then 0 else Flagged(ls[0]) + CountBlocked(ls[1..])
  }

  ghost predicate BlockedOk(s: State) { s.blockedStreams == CountBlocked(s.lanes) }

  function HandleOf(l: Lane): multiset<Handle> {
    if l.qstream.Some? then multiset{l.qstream.value} else multiset{}
  }

  function Held(ls: seq<Lane>): multiset<Handle> {
    if ls == [] then multiset{} else HandleOf(ls[0]) + Held(ls[1..])
  }

  /** Every place a QUIC stream handle can be. */
  function Places(s: State): multiset<Handle> {
    Held(s.lanes) + multiset(s.pendingFree) + multiset(s.freed) + multiset(s.lost)
  }

  ghost predicate HandlesOk(s: State) {
    forall h: Handle :: Places(s)[h] == if h < s.issued then 1 else 0
  }

  /** A worker at pc may still touch its stream. */
  predicate Touches(pc: TaskPc) { !pc.Leaving? }

  /** The stream's response is in the hands of one worker, or of the event thread on its way to one. */
  ghost predicate Claimed(l: Lane) { l.dispatched && !l.workerDone && l.tracked }

  ghost predicate TaskOk(s: State, t: Task) {
    && t.lane < |s.lanes|
    && (Touches(t.pc) ==> Claimed(s.lanes[t.lane]))
    && (t.pc.Queued? || t.pc.Setup? || t.pc.Responding? ==> Unfinished(s.lanes[t.lane]))
  }

  ghost predicate OneWorker(s: State) {
    forall a, b | 0 <= a < b < |s.tasks| && Touches(s.tasks[a].pc) && Touches(s.tasks[b].pc) ::
      s.tasks[a].lane != s.tasks[b].lane
  }

  ghost predicate NoWorkerOn(s: State, i: nat) {
    forall t | 0 <= t < |s.tasks| && Touches(s.tasks[t].pc) :: s.tasks[t].lane != i
  }

  /** Tasks the event thread has counted and not handed over. */
  function InHand(et: EventPc): int { if et.Counted? || et.PushFailed? then 1 else 0 }

  ghost predicate TasksOk(s: State) {
    && (forall t | 0 <= t < |s.tasks| :: TaskOk(s, s.tasks[t]))
    && OneWorker(s)
    && (s.et.Reserved? || s.et.Counted? ==>
          s.et.i < |s.lanes| && Claimed(s.lanes[s.et.i]) && Unfinished(s.lanes[s.et.i]) && NoWorkerOn(s, s.et.i))
    && s.activeTasks == |s.tasks| + InHand(s.et)
    && (s.destroyed ==> s.tasks == [] && s.et.Idle?)
  }

  ghost predicate Inv(s: State) {
    LanesOk(s) && BlockedOk(s) && HandlesOk(s) && TasksOk(s)
  }

  // ---------------------------------------------------------------------------
  // Counting under a point update
  // ---------------------------------------------------------------------------

  lemma {:induction false} CountUpdate(ls: seq<Lane>, i: nat, l: Lane)
    requires i < |ls|
    ensures CountBlocked(ls[i := l]) == CountBlocked(ls) - Flagged(ls[i]) + Flagged(l)
  {
    if i == 0 {
      assert ls[i := l][1..] == ls[1..];
    } else {
      assert ls[i := l][1..] == ls[1..][i - 1 := l];
      assert ls[i := l][0] == ls[0];
      CountUpdate(ls[1..], i - 1, l);
    }
  }

  lemma Under(a: multiset<Handle>, b: multiset<Handle>, c: multiset<Handle>, d: multiset<Handle>, e: multiset<Handle>)
    requires b + c == d + e
    ensures a + b + c == a + d + e
  {
    assert a + b + c == a + (b + c);
    assert a + d + e == a + (d + e);
  }

  lemma HeldCons(ls: seq<Lane>)
    requires ls != []
    ensures Held(ls) == HandleOf(ls[0]) + Held(ls[1..])
  {
  }

  lemma {:induction false} HeldUpdate(ls: seq<Lane>, i: nat, l: Lane)
    requires i < |ls|
    ensures Held(ls[i := l]) + HandleOf(ls[i]) == Held(ls) + HandleOf(l)
  {
    hide Held, HandleOf;
    HeldCons(ls);
    HeldCons(ls[i := l]);
    if i == 0 {
      assert ls[i := l][1..] == ls[1..];
    } else {
      assert ls[i := l][1..] == ls[1..][i - 1 := l];
      assert ls[i := l][0] == ls[0];
      HeldUpdate(ls[1..], i - 1, l);
      Under(HandleOf(ls[0]), Held(ls[1..][i - 1 := l]), HandleOf(ls[i]), Held(ls[1..]), HandleOf(l));
    }
  }

  lemma {:induction false} CountSnoc(ls: seq<Lane>, l: Lane)
    ensures CountBlocked(ls + [l]) == CountBlocked(ls) + Flagged(l)
    ensures Held(ls + [l]) == Held(ls) + HandleOf(l)
  {
    if ls == [] {
      assert ls + [l] == [l];
    } else {
      assert (ls + [l])[1..] == ls[1..] + [l];
      CountSnoc(ls[1..], l);
    }
  }

  lemma {:induction false} DestroyCounts(ls: seq<Lane>)
    ensures CountBlocked(DestroyAll(ls)) == CountBlocked(ls)
    ensures Held(DestroyAll(ls)) == Held(ls)
  {
    if ls != [] {
      DestroyCounts(ls[1..]);
      assert DestroyAll(ls)[1..] == DestroyAll(ls[1..]);
    }
  }

  lemma {:induction false} ReverseSame<T>(xs: seq<T>)
    ensures multiset(Reverse(xs)) == multiset(xs)
  {
    if xs != [] {
      var n := |xs| - 1;
      ReverseSame(xs[..n]);
      assert xs == xs[..n] + [xs[n]];
    }
  }

  /** What leaves one bag enters the other. */
  lemma Exchange(held: multiset<Handle>, held': multiset<Handle>, x: multiset<Handle>, y: multiset<Handle>,
                 queued: multiset<Handle>, queued': multiset<Handle>)
    requires held' + x == held + y && x + queued == y + queued'
    ensures held' + queued' == held + queued
  {
    forall h: Handle ensures (held' + queued')[h] == (held + queued)[h] {
      assert (held' + x)[h] == (held + y)[h];
      assert (x + queued)[h] == (y + queued')[h];
    }
  }

  // ---------------------------------------------------------------------------
  // Steps on one stream
  // ---------------------------------------------------------------------------

  /** What every step on the data path and every callback leaves alone. */
  ghost predicate Frame(l: Lane, r: Lane) {
    && r.sid == l.sid && r.dispatched == l.dispatched && r.workerDone == l.workerDone
    && (Unfinished(l) ==> Unfinished(r))
    && (r.tracked == l.tracked || (!r.tracked && l.workerDone))
  }

  lemma LanesUpdate(s: State, i: nat, l: Lane, s': State)
    requires LanesOk(s) && i < |s.lanes| && LaneOk(l, s.ngDead, s.destroyed)
    requires l.sid == s.lanes[i].sid && (l.tracked ==> s.lanes[i].tracked)
    requires s'.lanes == s.lanes[i := l] && s'.limit == s.limit && s'.ngDead == s.ngDead && s'.destroyed == s.destroyed
    ensures LanesOk(s')
  {
    hide LaneOk;
  }

  lemma BlockedUpdate(s: State, i: nat, l: Lane, s': State)
    requires BlockedOk(s) && i < |s.lanes| && s'.lanes == s.lanes[i := l]
    requires s'.blockedStreams - s.blockedStreams == Flagged(l) - Flagged(s.lanes[i])
    ensures BlockedOk(s')
  {
    CountUpdate(s.lanes, i, l);
  }

  lemma HandlesUpdate(s: State, i: nat, l: Lane, s': State)
    requires HandlesOk(s) && i < |s.lanes| && s'.lanes == s.lanes[i := l]
    requires s'.freed == s.freed && s'.lost == s.lost && s'.issued == s.issued
    requires HandleOf(s.lanes[i]) + multiset(s.pendingFree) == HandleOf(l) + multiset(s'.pendingFree)
    ensures HandlesOk(s')
  {
    HeldUpdate(s.lanes, i, l);
    Exchange(Held(s.lanes), Held(s'.lanes), HandleOf(s.lanes[i]), HandleOf(l),
             multiset(s.pendingFree), multiset(s'.pendingFree));
    HandlesSame(s, s');
  }

  lemma HandlesSame(s: State, s': State)
    requires HandlesOk(s) && s'.issued == s.issued && s'.lost == s.lost
    requires Held(s'.lanes) + multiset(s'.pendingFree) + multiset(s'.freed)
             == Held(s.lanes) + multiset(s.pendingFree) + multiset(s.freed)
    ensures HandlesOk(s')
  {
    assert Places(s') == Places(s);
    hide Places;
  }

  /** A step that only moves tasks or the event thread leaves the streams in order. */
  lemma StreamsSame(s: State, s': State)
    requires LanesOk(s) && BlockedOk(s) && HandlesOk(s)
    requires s' == s.(et := s'.et, tasks := s'.tasks, activeTasks := s'.activeTasks)
    ensures LanesOk(s') && BlockedOk(s') && HandlesOk(s')
  {
    hide LaneOk, HandlesOk;
    HandlesSame(s, s');
  }

  /** Replacing one stream by one that is in order, with the count and the handles accounted for. */
  lemma LocalStep(s: State, i: nat, l: Lane, s': State)
    requires Inv(s) && i < |s.lanes|
    requires LaneOk(l, s.ngDead, s.destroyed) && Frame(s.lanes[i], l)
    requires s' == s.(lanes := s.lanes[i := l], blockedStreams := s'.blockedStreams, pendingFree := s'.pendingFree)
    requires s'.blockedStreams - s.blockedStreams == Flagged(l) - Flagged(s.lanes[i])
    requires HandleOf(s.lanes[i]) + multiset(s.pendingFree) == HandleOf(l) + multiset(s'.pendingFree)
    ensures Inv(s')
  {
    hide LanesOk, BlockedOk, HandlesOk, TasksOk, LaneOk;
    LanesUpdate(s, i, l, s');
    BlockedUpdate(s, i, l, s');
    HandlesUpdate(s, i, l, s');
    LocalTasks(s, i, l, s');
  }

  lemma LocalTasks(s: State, i: nat, l: Lane, s': State)
    requires TasksOk(s) && i < |s.lanes| && Frame(s.lanes[i], l)
    requires s' == s.(lanes := s.lanes[i := l], blockedStreams := s'.blockedStreams, pendingFree := s'.pendingFree)
    ensures TasksOk(s')
  {
    forall t | 0 <= t < |s.tasks| ensures TaskOk(s', s.tasks[t]) {
      assert TaskOk(s, s.tasks[t]);
    }
  }

  lemma LaneIn(s: State, i: nat)
    requires Inv(s) && i < |s.lanes|
    ensures LaneOk(s.lanes[i], s.ngDead, s.destroyed)
  {
  }

  /** What a pull leaves alone. */
  lemma PullFlags(s: Send, veccnt: nat, frames: nat)
    requires Pullable(s) && 0 <= s.q.submit <= |s.q.chunks|
    ensures var r := Pull(s, veccnt, frames);
            && r.q.submitted == s.q.submitted && r.q.complete == s.q.complete && r.q.cancelled == s.q.cancelled
            && r.ng.Some? && r.ng.value.flowBlocked == s.ng.value.flowBlocked && r.log.cleaned == s.log.cleaned
  {
    hide PullCount, Datas, Flatten;
  }

  lemma PullStep(s: State, i: nat, veccnt: nat, frames: nat)
    requires Inv(s) && i < |s.lanes| && veccnt > 0 && Pullable(s.lanes[i].send)
    requires 0 <= s.lanes[i].send.q.submit <= |s.lanes[i].send.q.chunks|
    ensures Inv(SetSend(s, i, Pull(s.lanes[i].send, veccnt, frames)))
  {
    hide Inv, SendInv, Pull;
    LaneIn(s, i);
    var l := s.lanes[i];
    PullInv(l.send, veccnt, frames, s.ngDead);
    PullFlags(l.send, veccnt, frames);
    LocalStep(s, i, l.(send := Pull(l.send, veccnt, frames)), SetSend(s, i, Pull(l.send, veccnt, frames)));
  }

  /** What a turn leaves of the response's flags. */
  lemma TurnFlags(l: Lane, m: nat, accepted: nat, out: WriteOutcome)
    requires l.send.ng.Some? && accepted <= m <= |l.send.ng.value.outq|
    ensures var r := TurnSend(l, m, accepted, out);
            && r.q.submitted == l.send.q.submitted && r.q.complete == l.send.q.complete
            && r.q.cancelled == l.send.q.cancelled
            && r.ng.Some? && r.log.cleaned == l.send.log.cleaned
            && r.ng.value.flowBlocked == (l.send.ng.value.flowBlocked || (Flags(l, out) && !l.writeBlocked))
  {
    hide AckChunks;
  }

  lemma TurnSendOk(l: Lane, dead: bool, m: nat, accepted: nat, out: WriteOutcome)
    requires SendInv(l.send, dead) && Offerable(l.send) && (!HasStream(l) ==> l.send.q.cancelled)
    requires m <= |l.send.ng.value.outq| && Possible(m, accepted, out)
    ensures SendInv(TurnSend(l, m, accepted, out), dead)
  {
    hide SendInv, Swallow, Break, Take, Block;
    if !HasStream(l) {
      SwallowInv(l.send, m, dead);
    } else if out.BrokenAfter? {
      BreakInv(l.send, m, accepted, dead);
    } else if out.Taken? {
      TakeInv(l.send, m, dead);
    } else {
      BlockInv(l.send, accepted, l.writeBlocked, dead);
    }
  }

  /** writev never offers a flow-blocked stream, so a stream that is flagged now was not flagged before. */
  lemma TurnLaneOk(l: Lane, dead: bool, destroyed: bool, m: nat, accepted: nat, out: WriteOutcome)
    requires LaneOk(l, dead, destroyed) && Offerable(l.send)
    requires m <= |l.send.ng.value.outq| && Possible(m, accepted, out)
    ensures LaneOk(TurnLane(l, m, accepted, out), dead, destroyed) && Frame(l, TurnLane(l, m, accepted, out))
    ensures Flags(l, out) ==> !l.writeBlocked
  {
    hide SendInv, TurnSend;
    TurnFlags(l, m, accepted, out);
    TurnSendOk(l, dead, m, accepted, out);
    assert l.tracked ==> !l.writeBlocked;
    SendAndFlag(l, TurnLane(l, m, accepted, out), dead, destroyed);
  }

  lemma SendAndFlag(l: Lane, r: Lane, dead: bool, destroyed: bool)
    requires LaneOk(l, dead, destroyed) && SendInv(r.send, dead)
    requires r == l.(send := r.send, writeBlocked := r.writeBlocked)
    requires r.send.q.submitted == l.send.q.submitted && r.send.q.complete == l.send.q.complete
    requires r.send.q.cancelled == l.send.q.cancelled && r.send.log.cleaned == l.send.log.cleaned && r.send.ng.Some?
    requires if l.tracked then r.writeBlocked == r.send.ng.value.flowBlocked else !r.writeBlocked
    ensures LaneOk(r, dead, destroyed) && Frame(l, r)
  {
    hide SendInv;
  }

  lemma TurnStep(s: State, i: nat, m: nat, accepted: nat, out: WriteOutcome)
    requires Inv(s) && i < |s.lanes| && Offerable(s.lanes[i].send)
    requires m <= |s.lanes[i].send.ng.value.outq| && Possible(m, accepted, out)
    ensures Inv(TurnNext(s, i, m, accepted, out))
  {
    hide Inv, LaneOk, Frame, TurnSend;
    LaneIn(s, i);
    TurnLaneOk(s.lanes[i], s.ngDead, s.destroyed, m, accepted, out);
    LocalStep(s, i, TurnLane(s.lanes[i], m, accepted, out), TurnNext(s, i, m, accepted, out));
  }

  lemma OwnFramesStep(s: State, i: nat, n: nat)
    requires Inv(s) && i < |s.lanes|
    ensures Inv(SetSend(s, i, OwnBytes(s.lanes[i].send, n)))
  {
    hide Inv, SendInv;
    LaneIn(s, i);
    var l := s.lanes[i];
    OwnBytesInv(l.send, n, s.ngDead);
    LocalStep(s, i, l.(send := OwnBytes(l.send, n)), SetSend(s, i, OwnBytes(l.send, n)));
  }

  lemma UnblockStep(s: State, i: nat)
    requires Inv(s) && i < |s.lanes| && s.lanes[i].tracked && s.lanes[i].writeBlocked
    ensures var l := s.lanes[i].(writeBlocked := false, send := Unflow(s.lanes[i].send));
            Inv(SetLane(s, i, l).(blockedStreams := s.blockedStreams - 1))
  {
    hide Inv, SendInv;
    LaneIn(s, i);
    var l := s.lanes[i].(writeBlocked := false, send := Unflow(s.lanes[i].send));
    UnflowInv(s.lanes[i].send, s.ngDead);
    LocalStep(s, i, l, SetLane(s, i, l).(blockedStreams := s.blockedStreams - 1));
  }

  lemma FlagsOnly(s: State, i: nat, headers: bool, body: bool, done: bool)
    requires Inv(s) && i < |s.lanes|
    ensures Inv(SetLane(s, i, s.lanes[i].(headersComplete := headers, bodyComplete := body, done := done)))
  {
    hide Inv, SendInv;
    LaneIn(s, i);
    var l := s.lanes[i].(headersComplete := headers, bodyComplete := body, done := done);
    LocalStep(s, i, l, SetLane(s, i, l));
  }

  lemma StopStep(s: State, i: nat)
    requires Inv(s) && i < |s.lanes|
    ensures var l := s.lanes[i];
            Inv(QueueHandle(s, i, l.(send := CancelSend(l.send), done := true, bodyComplete := true)))
  {
    LetGoHandle(s, i, s.lanes[i].(send := CancelSend(s.lanes[i].send), done := true, bodyComplete := true));
  }

  /** A stream whose response is cancelled lets go of its handle. */
  lemma LetGoHandle(s: State, i: nat, l: Lane)
    requires Inv(s) && i < |s.lanes|
    requires l == s.lanes[i].(send := l.send, done := l.done, bodyComplete := l.bodyComplete)
    requires l.send == CancelSend(s.lanes[i].send) || l.send == CloseSend(s.lanes[i].send)
    ensures Inv(QueueHandle(s, i, l))
  {
    hide Inv, LaneOk, Frame, CancelSend, CloseSend;
    LaneIn(s, i);
    LetGoLaneOk(s.lanes[i], s.ngDead, s.destroyed, l);
    LocalStep(s, i, l.(qstream := None), QueueHandle(s, i, l));
  }

  lemma LetGoLaneOk(l: Lane, dead: bool, destroyed: bool, r: Lane)
    requires LaneOk(l, dead, destroyed)
    requires r == l.(send := r.send, done := r.done, bodyComplete := r.bodyComplete)
    requires r.send == CancelSend(l.send) || r.send == CloseSend(l.send)
    ensures LaneOk(r.(qstream := None), dead, destroyed) && Frame(l, r.(qstream := None))
  {
    hide SendInv;
    CancelInv(l.send, dead);
  }

  lemma CloseStep(s: State, i: nat)
    requires Inv(s) && i < |s.lanes|
    ensures var l := s.lanes[i]; Inv(QueueHandle(s, i, l.(send := CloseSend(l.send), done := true)))
  {
    LetGoHandle(s, i, s.lanes[i].(send := CloseSend(s.lanes[i].send), done := true));
  }

  lemma ResetStep(s: State, i: nat)
    requires Inv(s) && i < |s.lanes|
    ensures var l := s.lanes[i]; Inv(SetLane(s, i, l.(send := CancelSend(l.send), done := true)))
  {
    hide Inv, SendInv;
    LaneIn(s, i);
    CancelInv(s.lanes[i].send, s.ngDead);
    var l := s.lanes[i].(send := CancelSend(s.lanes[i].send), done := true);
    LocalStep(s, i, l, SetLane(s, i, l));
  }

  lemma ReclaimStep(s: State, i: nat)
    requires Inv(s) && i < |s.lanes| && s.lanes[i].tracked && Reclaimable(s.lanes[i])
    ensures Inv(ReclaimNext(s, i))
  {
    hide Inv, SendInv;
    LaneIn(s, i);
    CleanInv(s.lanes[i].send, s.ngDead);
    LocalStep(s, i, ReclaimNext(s, i).lanes[i], ReclaimNext(s, i));
  }

  /** A worker that responds finds its response unfinished. */
  lemma RespondingLane(s: State, t: nat)
    requires Inv(s) && t < |s.tasks| && s.tasks[t].lane < |s.lanes| && s.tasks[t].pc == Responding
    ensures Unfinished(s.lanes[s.tasks[t].lane])
  {
    assert TaskOk(s, s.tasks[t]);
  }

  lemma SubmitStep(s: State, i: nat, ok: bool, frames: nat)
    requires Inv(s) && i < |s.lanes| && !s.lanes[i].send.q.submitted && !s.lanes[i].send.q.cancelled
    ensures var l := s.lanes[i];
            Inv(SetLane(s, i, l.(send := SubmitCall(l.send, ok, frames), submitCalls := l.submitCalls + 1)))
  {
    hide Inv, SendInv;
    LaneIn(s, i);
    var l := s.lanes[i];
    SubmitInv(l.send, ok, frames, s.ngDead);
    var r := l.(send := SubmitCall(l.send, ok, frames), submitCalls := l.submitCalls + 1);
    LocalStep(s, i, r, SetLane(s, i, r));
  }

  lemma AppendStep(s: State, i: nat, rest: seq<Byte>, mallocOk: bool)
    requires Inv(s) && i < |s.lanes| && rest != []
    requires !Full(s.lanes[i].send.q) && !s.lanes[i].send.q.complete
    ensures var l := s.lanes[i]; Inv(SetLane(s, i, l.(send := AppendCall(l.send, rest, mallocOk))))
  {
    hide Inv, SendInv;
    LaneIn(s, i);
    var l := s.lanes[i];
    AppendInv(l.send, rest, mallocOk, s.ngDead);
    var r := l.(send := AppendCall(l.send, rest, mallocOk));
    LocalStep(s, i, r, SetLane(s, i, r));
  }

  lemma TrackStep(s: State, sid: nat, frames: nat, poolOk: bool)
    requires Inv(s) && !s.destroyed && (poolOk ==> Untracked(s.lanes, sid))
    ensures Inv(TrackNext(s, sid, frames, poolOk))
  {
    hide LanesOk, HandlesOk, TasksOk;
    TrackLanes(s, sid, frames, poolOk);
    TrackHandles(s, sid, frames, poolOk);
    TrackTasks(s, sid, frames, poolOk);
    CountSnoc(s.lanes, NewLane(sid, s.issued, s.limit, frames));
  }

  lemma TrackTasks(s: State, sid: nat, frames: nat, poolOk: bool)
    requires TasksOk(s)
    ensures TasksOk(TrackNext(s, sid, frames, poolOk))
  {
    forall t | 0 <= t < |s.tasks| ensures TaskOk(TrackNext(s, sid, frames, poolOk), s.tasks[t]) {
      assert TaskOk(s, s.tasks[t]);
    }
  }

  lemma TrackLanes(s: State, sid: nat, frames: nat, poolOk: bool)
    requires LanesOk(s) && !s.destroyed && (poolOk ==> Untracked(s.lanes, sid))
    ensures LanesOk(TrackNext(s, sid, frames, poolOk))
  {
    var l := NewLane(sid, s.issued, s.limit, frames);
    NewSendInv(s.limit, frames);
    assert LaneOk(l, s.ngDead, false);
    hide LaneOk;
  }

  /** A new handle enters one place: the new stream, or the free list when there was no memory for it. */
  lemma TrackHandles(s: State, sid: nat, frames: nat, poolOk: bool)
    requires HandlesOk(s)
    ensures HandlesOk(TrackNext(s, sid, frames, poolOk))
  {
    var s' := TrackNext(s, sid, frames, poolOk);
    CountSnoc(s.lanes, NewLane(sid, s.issued, s.limit, frames));
    assert Places(s') == Places(s) + multiset{s.issued};
    hide Places;
  }

  /** The entry of a repeated id changes its handle, and nothing else about it. */
  lemma RetrackStep(s: State, i: nat)
    requires Inv(s) && i < |s.lanes| && s.lanes[i].tracked
    ensures Inv(RetrackNext(s, i))
  {
    hide LanesOk, HandlesOk, TasksOk, LaneOk;
    var s', l := RetrackNext(s, i), s.lanes[i].(qstream := Some(s.issued));
    LaneIn(s, i);
    RehandledOk(s.lanes[i], s.issued, s.ngDead, s.destroyed);
    LanesUpdate(s, i, l, s');
    BlockedUpdate(s, i, l, s');
    RetrackHandles(s, i);
    RetrackTasks(s, i);
  }

  lemma RehandledOk(l: Lane, handle: Handle, dead: bool, destroyed: bool)
    requires LaneOk(l, dead, destroyed) && l.tracked
    ensures LaneOk(l.(qstream := Some(handle)), dead, destroyed)
  {
    hide SendInv;
  }

  lemma RetrackTasks(s: State, i: nat)
    requires TasksOk(s) && i < |s.lanes|
    ensures TasksOk(RetrackNext(s, i))
  {
    forall t | 0 <= t < |s.tasks| ensures TaskOk(RetrackNext(s, i), s.tasks[t]) {
      assert TaskOk(s, s.tasks[t]);
    }
  }

  lemma RetrackHandles(s: State, i: nat)
    requires HandlesOk(s) && i < |s.lanes|
    ensures HandlesOk(RetrackNext(s, i))
  {
    var s', l := RetrackNext(s, i), s.lanes[i].(qstream := Some(s.issued));
    HeldUpdate(s.lanes, i, l);
    forall h: Handle ensures Places(s')[h] == Places(s)[h] + multiset{s.issued}[h] {
      assert (Held(s'.lanes) + HandleOf(s.lanes[i]))[h] == (Held(s.lanes) + HandleOf(l))[h];
    }
    hide Places;
  }

  lemma FreeStep(s: State)
    requires Inv(s) && Enabled(s, FreeOne)
    ensures Inv(Next(s, FreeOne))
  {
    hide LaneOk, HandlesOk, TasksOk;
    FreeHandles(s);
    SameTasks(s, Next(s, FreeOne));
  }

  lemma FreeHandles(s: State)
    requires HandlesOk(s) && Enabled(s, FreeOne)
    ensures HandlesOk(Next(s, FreeOne))
  {
    hide HandlesOk;
    var n := |s.pendingFree| - 1;
    assert s.pendingFree == s.pendingFree[..n] + [s.pendingFree[n]];
    HandlesSame(s, Next(s, FreeOne));
  }

  /** Task bookkeeping looks at the streams and the tasks only. */
  lemma SameTasks(s: State, s': State)
    requires TasksOk(s) && s'.lanes == s.lanes && s'.tasks == s.tasks && s'.et == s.et
    requires s'.activeTasks == s.activeTasks && s'.destroyed == s.destroyed
    ensures TasksOk(s')
  {
    forall t | 0 <= t < |s.tasks| ensures TaskOk(s', s.tasks[t]) {
      assert TaskOk(s, s.tasks[t]);
    }
  }

  lemma DeadOrAbortStep(s: State, dead: bool, aborted: bool)
    requires Inv(s) && (s.ngDead ==> dead)
    ensures Inv(s.(ngDead := dead, aborted := aborted))
  {
    hide HandlesOk, TasksOk, Places;
    var s' := s.(ngDead := dead, aborted := aborted);
    HandlesSame(s, s');
    SameTasks(s, s');
  }

  lemma DestroyLaneOk(l: Lane, dead: bool)
    requires LaneOk(l, dead, false)
    ensures LaneOk(DestroyLane(l), dead, true)
  {
    CancelInv(l.send, dead);
    if l.tracked {
      CleanInv(CloseSend(l.send), dead);
    } else {
      assert l.send.(ng := None) == CloseSend(l.send) by {
        assert l.send.q == Cancel(l.send.q);
      }
    }
  }

  lemma DestroyStep(s: State)
    requires Inv(s) && !s.destroyed && s.et.Idle? && s.activeTasks == 0
    ensures Inv(DestroyNext(s))
  {
    hide LanesOk, HandlesOk;
    DestroyLanes(s);
    DestroyCounts(s.lanes);
    DestroyHandles(s);
  }

  lemma DestroyHandles(s: State)
    requires HandlesOk(s)
    ensures HandlesOk(DestroyNext(s))
  {
    hide HandlesOk;
    DestroyCounts(s.lanes);
    ReverseSame(s.pendingFree);
    HandlesSame(s, DestroyNext(s));
  }

  lemma DestroyLanes(s: State)
    requires LanesOk(s) && !s.destroyed
    ensures LanesOk(DestroyNext(s))
  {
    forall i | 0 <= i < |s.lanes|
      ensures LaneOk(DestroyLane(s.lanes[i]), s.ngDead, true) && DestroyLane(s.lanes[i]).sid == s.lanes[i].sid
    {
      DestroyLaneOk(s.lanes[i], s.ngDead);
    }
    hide LaneOk, DestroyLane;
  }

  // ---------------------------------------------------------------------------
  // Steps of the dispatch protocol
  // ---------------------------------------------------------------------------

  /** Changing who is responsible for a stream, and nothing else about it. */
  lemma Handover(s: State, i: nat, l: Lane, s': State)
    requires Inv(s) && i < |s.lanes|
    requires l == s.lanes[i].(dispatched := l.dispatched, workerDone := l.workerDone)
    requires LaneOk(l, s.ngDead, s.destroyed)
    requires s' == s.(lanes := s.lanes[i := l], et := s'.et, tasks := s'.tasks, activeTasks := s'.activeTasks)
    ensures LanesOk(s') && BlockedOk(s') && HandlesOk(s')
  {
    hide LanesOk, BlockedOk, HandlesOk, TasksOk, LaneOk;
    LanesUpdate(s, i, l, s');
    BlockedUpdate(s, i, l, s');
    HandlesUpdate(s, i, l, s');
  }

  /** Nobody holds a stream that is not dispatched. */
  lemma UndispatchedIsFree(s: State, i: nat)
    requires TasksOk(s) && i < |s.lanes| && !s.lanes[i].dispatched
    ensures NoWorkerOn(s, i)
  {
    forall t | 0 <= t < |s.tasks| && Touches(s.tasks[t].pc) ensures s.tasks[t].lane != i {
      assert TaskOk(s, s.tasks[t]);
    }
  }

  lemma ReserveStep(s: State, i: nat)
    requires Inv(s) && Enabled(s, Reserve(i))
    ensures Inv(Next(s, Reserve(i)))
  {
    var s', l := Next(s, Reserve(i)), s.lanes[i].(dispatched := true);
    LaneIn(s, i);
    hide LanesOk, BlockedOk, HandlesOk, TasksOk, SendInv;
    Handover(s, i, l, s');
    ReserveTasks(s, i);
  }

  lemma ReserveTasks(s: State, i: nat)
    requires TasksOk(s) && Enabled(s, Reserve(i)) && LaneOk(s.lanes[i], s.ngDead, s.destroyed)
    ensures TasksOk(Next(s, Reserve(i)))
  {
    hide SendInv;
    var s' := Next(s, Reserve(i));
    UndispatchedIsFree(s, i);
    forall t | 0 <= t < |s.tasks| ensures TaskOk(s', s.tasks[t]) {
      assert TaskOk(s, s.tasks[t]);
    }
  }

  lemma GiveUpStep(s: State, step: Step)
    requires Inv(s) && Enabled(s, step) && (step.PoolFails? || step.PushFails?)
    ensures Inv(Next(s, step))
  {
    var s', i := Next(s, step), s.et.i;
    LaneIn(s, i);
    GiveUpTasks(s, step);
    hide LanesOk, BlockedOk, HandlesOk, SendInv;
    Handover(s, i, s.lanes[i].(dispatched := false), s');
  }

  lemma GiveUpTasks(s: State, step: Step)
    requires TasksOk(s) && Enabled(s, step) && (step.PoolFails? || step.PushFails?)
    ensures TasksOk(Next(s, step))
  {
    forall t | 0 <= t < |s.tasks| ensures TaskOk(Next(s, step), s.tasks[t]) {
      assert TaskOk(s, s.tasks[t]);
    }
  }

  lemma CountingStep(s: State, step: Step)
    requires Inv(s) && Enabled(s, step) && (step.CountTask? || step.PushTask? || step.UncountTask?)
    ensures Inv(Next(s, step))
  {
    hide LanesOk, BlockedOk, HandlesOk, TasksOk;
    StreamsSame(s, Next(s, step));
    CountingTasks(s, step);
  }

  lemma CountingTasks(s: State, step: Step)
    requires TasksOk(s) && Enabled(s, step) && (step.CountTask? || step.PushTask? || step.UncountTask?)
    ensures TasksOk(Next(s, step))
  {
    var s' := Next(s, step);
    forall t | 0 <= t < |s.tasks| ensures TaskOk(s', s.tasks[t]) {
      assert TaskOk(s, s.tasks[t]);
    }
    assert step.PushTask? ==> TaskOk(s', s'.tasks[|s.tasks|]);
  }

  // ---------------------------------------------------------------------------
  // Steps of a worker
  // ---------------------------------------------------------------------------

  lemma PcStep(s: State, step: Step)
    requires Inv(s) && Enabled(s, step) && (step.Start? || step.SetupDone?)
    ensures Inv(Next(s, step))
  {
    var s' := Next(s, step);
    StreamsSame(s, s');
    hide LanesOk, BlockedOk, HandlesOk;
    forall t | 0 <= t < |s.tasks| ensures TaskOk(s', s'.tasks[t]) {
      assert TaskOk(s, s.tasks[t]);
    }
  }

  /** The two ways a worker lets go of its stream: the set-up failed, or the response is done. */
  lemma LetGoStep(s: State, step: Step)
    requires Inv(s) && Enabled(s, step) && (step.SetupFails? || step.WorkerDone?)
    ensures Inv(Next(s, step))
  {
    var s', i := Next(s, step), s.tasks[step.t].lane;
    assert TaskOk(s, s.tasks[step.t]);
    LaneIn(s, i);
    hide LanesOk, BlockedOk, HandlesOk, TasksOk, SendInv;
    Handover(s, i, s'.lanes[i], s');
    LetGoTasks(s, step);
  }

  lemma LetGoTasks(s: State, step: Step)
    requires TasksOk(s) && Enabled(s, step) && (step.SetupFails? || step.WorkerDone?)
    ensures TasksOk(Next(s, step))
  {
    var s' := Next(s, step);
    assert TaskOk(s, s.tasks[step.t]);
    forall t | 0 <= t < |s.tasks| ensures TaskOk(s', s'.tasks[t]) {
      assert TaskOk(s, s.tasks[t]);
    }
  }

  lemma LeaveStep(s: State, t: nat)
    requires Inv(s) && Enabled(s, Leave(t))
    ensures Inv(Next(s, Leave(t)))
  {
    hide LanesOk, BlockedOk, HandlesOk, TasksOk;
    StreamsSame(s, Next(s, Leave(t)));
    LeaveTasks(s, t);
  }

  lemma LeaveTasks(s: State, t: nat)
    requires TasksOk(s) && Enabled(s, Leave(t))
    ensures TasksOk(Next(s, Leave(t)))
  {
    var s' := Next(s, Leave(t));
    forall u | 0 <= u < |s'.tasks| ensures s'.tasks[u] == s.tasks[if u < t then u else u + 1] {
    }
    forall u | 0 <= u < |s'.tasks| ensures TaskOk(s', s'.tasks[u]) {
      assert TaskOk(s, s'.tasks[u]);
    }
    assert OneWorker(s');
  }

  lemma CompleteStep(s: State, t: nat)
    requires Inv(s) && Enabled(s, CompleteResponse(t))
    ensures Inv(Next(s, CompleteResponse(t)))
  {
    var s', i := Next(s, CompleteResponse(t)), s.tasks[t].lane;
    assert TaskOk(s, s.tasks[t]);
    LaneIn(s, i);
    CompleteLane(s.lanes[i], s.ngDead);
    CompleteTasks(s, t);
    hide LanesOk, BlockedOk, HandlesOk, LaneOk, TasksOk;
    LanesUpdate(s, i, s'.lanes[i], s');
    BlockedUpdate(s, i, s'.lanes[i], s');
    HandlesUpdate(s, i, s'.lanes[i], s');
  }

  lemma CompleteLane(l: Lane, dead: bool)
    requires LaneOk(l, dead, false) && l.dispatched
    ensures LaneOk(l.(send := Complete(l.send, dead)), dead, false)
  {
    CompleteInv(l.send, dead);
    hide SendInv;
  }

  lemma CompleteTasks(s: State, t: nat)
    requires TasksOk(s) && Enabled(s, CompleteResponse(t))
    ensures TasksOk(Next(s, CompleteResponse(t)))
  {
    var s', i := Next(s, CompleteResponse(t)), s.tasks[t].lane;
    assert TaskOk(s, s.tasks[t]);
    forall u | 0 <= u < |s.tasks| ensures TaskOk(s', s'.tasks[u]) {
      assert TaskOk(s, s.tasks[u]);
      // no other worker is on this stream
      assert u != t && Touches(s.tasks[u].pc) ==> s.tasks[u].lane != i;
    }
  }

  // ---------------------------------------------------------------------------
  // Every run
  // ---------------------------------------------------------------------------

  lemma StepKeeps(s: State, step: Step)
    requires Inv(s) && Enabled(s, step)
    ensures Inv(Next(s, step))
  {
    if WorkerStep(step) {
      WorkerKeeps(s, step);
    } else if DispatchStep(step) {
      hide Inv;
      if step.PoolFails? || step.PushFails? {
        GiveUpStep(s, step);
      } else {
        CountingStep(s, step);
      }
    } else {
      EventKeeps(s, step);
    }
  }

  lemma WorkerKeeps(s: State, step: Step)
    requires Inv(s) && Enabled(s, step) && WorkerStep(step)
    ensures Inv(Next(s, step))
  {
    hide Inv;
    match step
    case Start(_) => PcStep(s, step);
    case SetupDone(_) => PcStep(s, step);
    case SetupFails(_) => LetGoStep(s, step);
    case WorkerDone(_) => LetGoStep(s, step);
    case Submit(t, ok, frames) =>
      hide SubmitCall;
      var l := s.lanes[s.tasks[t].lane];
      if !l.send.q.submitted && !l.send.q.cancelled && !Down(s) {
        SubmitStep(s, s.tasks[t].lane, ok, frames);
      }
    case AppendSome(t, rest, mallocOk) =>
      hide AppendCall;
      RespondingLane(s, t);
      if !s.lanes[s.tasks[t].lane].send.q.cancelled && !Down(s) {
        AppendStep(s, s.tasks[t].lane, rest, mallocOk);
      }
    case CompleteResponse(t) => CompleteStep(s, t);
    case Leave(t) => LeaveStep(s, t);
  }

  lemma EventKeeps(s: State, step: Step)
    requires Inv(s) && Enabled(s, step) && !WorkerStep(step) && !DispatchStep(step)
    ensures Inv(Next(s, step))
  {
    hide Inv;
    match step
    case Track(sid, frames, poolOk) => TrackStep(s, sid, frames, poolOk);
    case Retrack(i) => RetrackStep(s, i);
    case PullFrom(i, veccnt, frames) => PullStep(s, i, veccnt, frames);
    case WriteTurn(i, m, accepted, out) => TurnStep(s, i, m, accepted, out);
    case OwnFrames(i, n) => OwnFramesStep(s, i, n);
    case MarkDead => DeadOrAbortStep(s, true, s.aborted);
    case Abort => DeadOrAbortStep(s, s.ngDead, true);
    case UnblockOne(i) => UnblockStep(s, i);
    case FreeOne => FreeStep(s);
    case HeadersDone(i, fin) => FlagsOnly(s, i, true, s.lanes[i].bodyComplete || fin, s.lanes[i].done);
    case BodyDone(i) => FlagsOnly(s, i, s.lanes[i].headersComplete, true, s.lanes[i].done);
    case MarkDone(i) => FlagsOnly(s, i, s.lanes[i].headersComplete, s.lanes[i].bodyComplete, true);
    case StopSending(i) => StopStep(s, i);
    case ResetStream(i) => ResetStep(s, i);
    case CloseStream(i) => CloseStep(s, i);
    case ReclaimOne(i) => ReclaimStep(s, i);
    case Destroy => DestroyStep(s);
    case Reserve(i) => ReserveStep(s, i);
  }

  lemma {:induction false} RunKeeps(s: State, steps: seq<Step>)
    requires Inv(s) && Run(s, steps).Some?
    ensures Inv(Run(s, steps).value)
    decreases |steps|
  {
    if steps != [] {
      var front := steps[..|steps| - 1];
      RunKeeps(s, front);
      StepKeeps(Run(s, front).value, steps[|steps| - 1]);
    }
  }

  /** Reachable: some run of a fresh session leads here. */
  ghost predicate Reachable(s: State) {
    exists steps: seq<Step>, limit: nat :: limit > 0 && Run(Init(limit), steps) == Some(s)
  }

  lemma ReachableInv(s: State)
    requires Reachable(s)
    ensures Inv(s)
  {
    var steps: seq<Step>, limit: nat :| limit > 0 && Run(Init(limit), steps) == Some(s);
    RunKeeps(Init(limit), steps);
  }

  // ---------------------------------------------------------------------------
  // What that means
  // ---------------------------------------------------------------------------

  /**
   Whenever a worker can take a step the session has not been destroyed, and while it can
   still touch its stream that stream is tracked, its pool is alive and no other worker is on it.
   */
  lemma WorkerMemoryIsAlive(s: State, step: Step)
    requires Reachable(s) && WorkerStep(step) && Enabled(s, step)
    ensures !s.destroyed
    ensures var task := s.tasks[step.t];
            Touches(task.pc) ==>
              && s.lanes[task.lane].poolLive && s.lanes[task.lane].tracked
              && forall u | 0 <= u < |s.tasks| && u != step.t && Touches(s.tasks[u].pc) :: s.tasks[u].lane != task.lane
  {
    ReachableInv(s);
    AliveByInv(s, step);
  }

  lemma AliveByInv(s: State, step: Step)
    requires Inv(s) && WorkerStep(step) && Enabled(s, step)
    ensures !s.destroyed
    ensures var task := s.tasks[step.t];
            Touches(task.pc) ==>
              && s.lanes[task.lane].poolLive && s.lanes[task.lane].tracked
              && forall u | 0 <= u < |s.tasks| && u != step.t && Touches(s.tasks[u].pc) :: s.tasks[u].lane != task.lane
  {
    hide HandlesOk;
    assert TaskOk(s, s.tasks[step.t]);
    LaneIn(s, s.tasks[step.t].lane);
  }

  /** Freed memory does not come back: a new stream gets a lane of its own. */
  lemma FreedForGood(s: State, step: Step, i: nat)
    requires Enabled(s, step)
    ensures s.destroyed ==> Next(s, step).destroyed
    ensures |s.lanes| <= |Next(s, step).lanes|
    ensures i < |s.lanes| && !s.lanes[i].poolLive ==> !Next(s, step).lanes[i].poolLive
  {
    hide WorkerNext, DispatchNext, EventNext, WorkerEnabled, DispatchEnabled, EventEnabled;
    if WorkerStep(step) {
      FreedPastWorker(s, step, i);
    } else if DispatchStep(step) {
      FreedPastDispatch(s, step, i);
    } else {
      FreedPastEvent(s, step, i);
    }
  }

  ghost predicate StillFreed(s: State, s': State, i: nat) {
    && (s.destroyed ==> s'.destroyed) && |s.lanes| <= |s'.lanes|
    && (i < |s.lanes| && !s.lanes[i].poolLive ==> !s'.lanes[i].poolLive)
  }

  lemma FreedPastWorker(s: State, step: Step, i: nat)
    requires WorkerStep(step) && step.t < |s.tasks| && WorkerEnabled(s, step)
    ensures StillFreed(s, WorkerNext(s, step), i)
  {
    hide SubmitCall, AppendCall, Complete;
  }

  lemma FreedPastDispatch(s: State, step: Step, i: nat)
    requires DispatchStep(step) && DispatchEnabled(s, step)
    ensures StillFreed(s, DispatchNext(s, step), i)
  {
  }

  lemma FreedPastEvent(s: State, step: Step, i: nat)
    requires !WorkerStep(step) && !DispatchStep(step) && EventEnabled(s, step)
    ensures StillFreed(s, EventNext(s, step), i)
  {
    hide StillFreed, EventNext, EventEnabled;
    if step.PullFrom? || step.WriteTurn? || step.OwnFrames? || step.UnblockOne? {
      FreedPastSending(s, step, i);
    } else if step.StopSending? || step.ResetStream? || step.CloseStream? || step.ReclaimOne? {
      FreedPastClosing(s, step, i);
    } else {
      FreedPastOther(s, step, i);
    }
  }

  lemma FreedPastSending(s: State, step: Step, i: nat)
    requires (step.PullFrom? || step.WriteTurn? || step.OwnFrames? || step.UnblockOne?) && EventEnabled(s, step)
    ensures StillFreed(s, EventNext(s, step), i)
  {
    hide OwnBytes, Pull, TurnSend, Unflow;
  }

  lemma FreedPastClosing(s: State, step: Step, i: nat)
    requires step.StopSending? || step.ResetStream? || step.CloseStream? || step.ReclaimOne?
    requires EventEnabled(s, step)
    ensures StillFreed(s, EventNext(s, step), i)
  {
    hide CancelSend, CloseSend, CleanSend;
  }

  lemma FreedPastOther(s: State, step: Step, i: nat)
    requires !WorkerStep(step) && !DispatchStep(step) && EventEnabled(s, step)
    requires !step.PullFrom? && !step.WriteTurn? && !step.OwnFrames? && !step.UnblockOne?
    requires !step.StopSending? && !step.ResetStream? && !step.CloseStream? && !step.ReclaimOne?
    ensures StillFreed(s, EventNext(s, step), i)
  {
    hide CloseSend, CleanSend, NewSend, Reverse;
  }

  lemma {:induction false} FreedForever(s: State, steps: seq<Step>, i: nat)
    requires Run(s, steps).Some?
    ensures var r := Run(s, steps).value;
            && (s.destroyed ==> r.destroyed) && |s.lanes| <= |r.lanes|
            && (i < |s.lanes| && !s.lanes[i].poolLive ==> !r.lanes[i].poolLive)
    decreases |steps|
  {
    hide Enabled, Next;
    if steps != [] {
      var front := steps[..|steps| - 1];
      FreedForever(s, front, i);
      FreedForGood(Run(s, front).value, steps[|steps| - 1], i);
    }
  }

  lemma FreeingStep(s: State, step: Step)
    requires Enabled(s, step) && (step.ReclaimOne? || step.Destroy?)
    ensures step.Destroy? ==> Next(s, step).destroyed
    ensures step.ReclaimOne? ==> step.i < |s.lanes| == |Next(s, step).lanes| && !Next(s, step).lanes[step.i].poolLive
  {
    hide CleanSend, DestroyAll;
  }

  /**
   No use after free, over whole runs: once a stream has been reclaimed no later step of a worker
   touches it, and once the session has been destroyed no worker takes another step.
   */
  lemma NoUseAfterFree(s: State, free: Step, more: seq<Step>, step: Step)
    requires Reachable(s) && Enabled(s, free) && (free.ReclaimOne? || free.Destroy?)
    requires Run(Next(s, free), more).Some?
    requires WorkerStep(step) && Enabled(Run(Next(s, free), more).value, step)
    ensures free.ReclaimOne?
    ensures var task := Run(Next(s, free), more).value.tasks[step.t];
            Touches(task.pc) ==> task.lane != free.i
  {
    hide Inv, Next;
    var s1 := Next(s, free);
    var s2 := Run(s1, more).value;
    ReachableInv(s);
    StepKeeps(s, free);
    RunKeeps(s1, more);
    FreeingStep(s, free);
    AliveByInv(s2, step);
    FreedForever(s1, more, if free.ReclaimOne? then free.i else 0);
  }

  /** A stream is reclaimed, and the session destroyed, only when no worker can come back to it. */
  lemma FreedOnlyWhenUnused(s: State, step: Step)
    requires Reachable(s) && Enabled(s, step)
    ensures step.ReclaimOne? ==> NoWorkerOn(s, step.i)
    ensures step.Destroy? ==> s.tasks == [] && s.et.Idle?
  {
    hide LanesOk, HandlesOk, Next;
    ReachableInv(s);
    if step.ReclaimOne? {
      forall t | 0 <= t < |s.tasks| && Touches(s.tasks[t].pc) ensures s.tasks[t].lane != step.i {
        assert TaskOk(s, s.tasks[t]);
      }
    }
  }

  /** active_tasks counts exactly the tasks reserved and not yet finished, and never goes below zero. */
  lemma ActiveTasksExact(s: State)
    requires Reachable(s)
    ensures s.activeTasks == |s.tasks| + InHand(s.et)
  {
    ReachableInv(s);
  }

  /**
   Each handle QUIC issued is held by one stream, queued for free once, freed once, or was lost once to
   a repeated id, and never two of these.
   */
  lemma HandleInOnePlace(s: State, h: Handle)
    requires Reachable(s)
    ensures Held(s.lanes)[h] + multiset(s.pendingFree)[h] + multiset(s.freed)[h] + multiset(s.lost)[h]
            == if h < s.issued then 1 else 0
  {
    ReachableInv(s);
    assert Places(s)[h] == Held(s.lanes)[h] + multiset(s.pendingFree)[h] + multiset(s.freed)[h] + multiset(s.lost)[h];
  }

  /** A step loses a handle exactly when it is a stream coming again under an id whose entry still has a handle. */
  lemma LosesExactly(s: State, step: Step)
    requires Enabled(s, step)
    ensures Next(s, step).lost != s.lost <==> step.Retrack? && s.lanes[step.i].qstream.Some?
    ensures step.Retrack? && s.lanes[step.i].qstream.Some? ==>
              Next(s, step).lost == s.lost + [s.lanes[step.i].qstream.value]
  {
    hide WorkerNext, DispatchNext;
    if WorkerStep(step) {
      WorkerKeepsLost(s, step);
    } else if DispatchStep(step) {
      DispatchKeepsLost(s, step);
    } else {
      hide OwnBytes, Pull, TurnSend, CancelSend, CloseSend, CleanSend, Unflow, NewSend, Reverse;
    }
  }

  lemma WorkerKeepsLost(s: State, step: Step)
    requires WorkerStep(step) && step.t < |s.tasks| && WorkerEnabled(s, step)
    ensures WorkerNext(s, step).lost == s.lost
  {
    hide SubmitCall, AppendCall, Complete;
  }

  lemma DispatchKeepsLost(s: State, step: Step)
    requires DispatchStep(step) && DispatchEnabled(s, step)
    ensures DispatchNext(s, step).lost == s.lost
  {
  }

  /** No step of the run gave an id that still had a handle to another stream. */
  ghost predicate NoHandleReplaced(s: State, steps: seq<Step>)
    decreases |steps|
  {
    steps == [] ||
    var n := |steps| - 1;
    && NoHandleReplaced(s, steps[..n])
    && (Run(s, steps[..n]).Some? && steps[n].Retrack? && steps[n].i < |Run(s, steps[..n]).value.lanes| ==>
          Run(s, steps[..n]).value.lanes[steps[n].i].qstream.None?)
  }

  /** Over any run, every handle is held, queued or freed if and only if no id with a handle came again. */
  lemma {:induction false} NothingLostExactly(s: State, steps: seq<Step>)
    requires s.lost == [] && Run(s, steps).Some?
    ensures Run(s, steps).value.lost == [] <==> NoHandleReplaced(s, steps)
    decreases |steps|
  {
    if steps != [] {
      var n := |steps| - 1;
      NothingLostExactly(s, steps[..n]);
      var before := Run(s, steps[..n]).value;
      LosesExactly(before, steps[n]);
      RetrackIn(before, steps[n]);
      hide Enabled, Next;
    }
  }

  lemma RetrackIn(s: State, step: Step)
    requires Enabled(s, step)
    ensures step.Retrack? ==> step.i < |s.lanes|
  {
  }

  lemma {:induction false} HeldCounts(ls: seq<Lane>, i: nat)
    requires i < |ls| && ls[i].qstream.Some?
    ensures Held(ls)[ls[i].qstream.value] >= 1
    ensures forall j | 0 <= j < |ls| && j != i && ls[j].qstream == ls[i].qstream :: Held(ls)[ls[i].qstream.value] >= 2
  {
    var h := ls[i].qstream.value;
    if i > 0 {
      HeldCounts(ls[1..], i - 1);
      assert forall j | 0 < j < |ls| :: ls[j] == ls[1..][j - 1];
    } else {
      forall j | 0 < j < |ls| && ls[j].qstream == ls[i].qstream ensures Held(ls)[h] >= 2 {
        HeldCounts(ls[1..], j - 1);
      }
    }
  }

  /** A handle a stream still has is no other stream's, is not waiting to be freed, and is neither freed nor lost. */
  lemma HeldHandleIsLive(s: State, i: nat)
    requires Reachable(s) && i < |s.lanes| && s.lanes[i].qstream.Some?
    ensures var h := s.lanes[i].qstream.value;
            && h < s.issued && h !in s.pendingFree && h !in s.freed && h !in s.lost
            && forall j | 0 <= j < |s.lanes| && j != i :: s.lanes[j].qstream != Some(h)
  {
    var h := s.lanes[i].qstream.value;
    HandleInOnePlace(s, h);
    HeldCounts(s.lanes, i);
  }

  /** nghttp3 is asked to submit a response at most once per stream, whatever workers fail. */
  lemma SubmittedAtMostOnce(s: State, i: nat)
    requires Reachable(s) && i < |s.lanes|
    ensures s.lanes[i].submitCalls <= 1
  {
    ReachableInv(s);
    LaneIn(s, i);
  }

  /** The counter and the flags agree with each other and with nghttp3. */
  lemma BlockedCountExact(s: State)
    requires Reachable(s)
    ensures s.blockedStreams == CountBlocked(s.lanes)
    ensures forall i | 0 <= i < |s.lanes| && s.lanes[i].tracked && s.lanes[i].send.ng.Some? ::
              s.lanes[i].writeBlocked <==> s.lanes[i].send.ng.value.flowBlocked
  {
    ReachableInv(s);
    forall i | 0 <= i < |s.lanes| && s.lanes[i].tracked && s.lanes[i].send.ng.Some?
      ensures s.lanes[i].writeBlocked <==> s.lanes[i].send.ng.value.flowBlocked
    {
      LaneIn(s, i);
    }
  }

  /**
   Whatever QUIC does with a turn of the send loop, it acknowledges no more than was pulled: the
   chunk list stays well formed, and no chunk that still waits to be pulled is freed or shortened.
   */
  lemma TurnFreesOnlyPulled(s: State, i: nat, m: nat, accepted: nat, out: WriteOutcome)
    requires Reachable(s) && Enabled(s, WriteTurn(i, m, accepted, out))
    ensures var q, q' := s.lanes[i].send.q, Next(s, WriteTurn(i, m, accepted, out)).lanes[i].send.q;
            Valid(q') && Waiting(q') == Waiting(q) && |q'.chunks| - q'.submit == |q.chunks| - q.submit
  {
    hide Inv, ResponseQueue.Valid, Waiting, Reachable;
    ReachableInv(s);
    LaneIn(s, i);
    TurnLeavesWaiting(s.lanes[i], m, accepted, out, s.ngDead);
    hide SendInv, TurnSend;
  }

  /**
   nghttp3 holds pointers into the chunks, not copies. Whenever a turn offers bytes to QUIC, the body
   bytes it offers are the front of what was pulled and not acknowledged: all of them lie in chunks
   that are still in the list.
   */
  lemma OfferedBytesAreLive(s: State, i: nat, m: nat, accepted: nat, out: WriteOutcome)
    requires Reachable(s) && Enabled(s, WriteTurn(i, m, accepted, out)) && HasStream(s.lanes[i])
    ensures var send := s.lanes[i].send;
            && Valid(send.q) && !send.log.cleaned
            && BodyOf(send.ng.value.outq) == Pulled(send.q) && BodyOf(send.ng.value.outq[..m]) <= Pulled(send.q)
  {
    hide Reachable, ResponseQueue.Valid, Pulled;
    ReachableInv(s);
    LaneIn(s, i);
    NotDestroyed(s, WriteTurn(i, m, accepted, out));
    hide Inv;
    BodyOfSplit(s.lanes[i].send.ng.value.outq, m);
  }

  lemma NotDestroyed(s: State, step: Step)
    requires Enabled(s, step) && step.WriteTurn?
    ensures !s.destroyed
  {
  }

  lemma TurnLeavesWaiting(l: Lane, m: nat, accepted: nat, out: WriteOutcome, dead: bool)
    requires SendInv(l.send, dead) && l.send.ng.Some? && accepted <= m <= |l.send.ng.value.outq|
    ensures var q, q' := l.send.q, TurnSend(l, m, accepted, out).q;
            Valid(q) && Valid(q') && Waiting(q') == Waiting(q) && |q'.chunks| - q'.submit == |q.chunks| - q.submit
  {
    AdvanceLeavesWaiting(l.send, m);
    AdvanceLeavesWaiting(l.send, accepted);
    hide Advance, ResponseQueue.Valid, Waiting;
  }

  /**
   In every interleaving, QUIC has accepted a prefix of what the worker appended to a stream
   that is neither cancelled nor broken, and all of it once the stream is concluded.
   */
  lemma ResponseInOrder(s: State, i: nat)
    requires Reachable(s) && i < |s.lanes|
    requires !s.lanes[i].send.q.cancelled && !s.lanes[i].send.log.broken
    ensures var send := s.lanes[i].send;
            && BodyOf(send.log.wire) <= send.log.appended
            && (send.log.concluded ==> send.q.complete && BodyOf(send.log.wire) == send.log.appended)
  {
    ReachableInv(s);
    LaneIn(s, i);
    AcceptedIsPrefix(s.lanes[i].send, s.ngDead);
  }

  /** On a live connection a parked, uncancelled reader has nothing waiting and more to come. */
  lemma ResumeNeverLost(s: State, i: nat)
    requires Reachable(s) && i < |s.lanes| && !s.ngDead
    requires var send := s.lanes[i].send; send.ng.Some? && send.ng.value.parked && !send.q.cancelled
    ensures Valid(s.lanes[i].send.q) && Waiting(s.lanes[i].send.q) == [] && !s.lanes[i].send.q.complete
  {
    ReachableInv(s);
    LaneIn(s, i);
    var q := s.lanes[i].send.q;
    assert q.chunks[q.submit..] == [];
  }

  /**
   Up to cleanup, what was appended is what was released, what nghttp3 holds and what waits,
   in that order; the queue stays within its bound, and a full queue leaves the consumer work to do.
   */
  lemma ResponseConserved(s: State, i: nat)
    requires Reachable(s) && i < |s.lanes|
    requires !s.lanes[i].send.log.cleaned && s.lanes[i].send.ng.Some?
    ensures var send := s.lanes[i].send;
            && Valid(send.q) && send.log.released <= |send.log.appended|
            && send.log.appended ==
               send.log.appended[..send.log.released] + BodyOf(send.ng.value.outq) + Waiting(send.q)
            && send.q.total == send.log.released + send.q.buffered
            && send.q.buffered <= send.q.limit
            && (Full(send.q) ==> BodyOf(send.ng.value.outq) != [] || Waiting(send.q) != [])
  {
    ReachableInv(s);
    LaneIn(s, i);
    var send := s.lanes[i].send;
    ThreePlaces(send, s.ngDead);
    if Full(send.q) {
      BlockedProducerHasConsumerWork(send, s.ngDead);
    }
  }
}
