/**
 What each step of a session may change, field by field, and what must have happened in a run for a
 field to be as it is. These laws name the steps and the fields they read, not the functions that
 carry the steps out.
 */
module SessionLaws {
  import opened Options
  import opened ResponseQueue
  import opened SendPath
  import opened Session
  import opened SessionSafety

  /** The four kinds of stream ids (table 1 of RFC 9000): the client's come first, requests before one-way streams. */
  lemma StreamIds(sid: nat)
    ensures IsBidi(sid) && !IsServer(sid) <==> sid % 4 == 0
    ensures IsBidi(sid) && IsServer(sid) <==> sid % 4 == 1
    ensures !IsBidi(sid) && !IsServer(sid) <==> sid % 4 == 2
    ensures !IsBidi(sid) && IsServer(sid) <==> sid % 4 == 3
  {
  }

  // ---------------------------------------------------------------------------
  // One step, one stream
  // ---------------------------------------------------------------------------

  /** The step is one of a worker on this stream. */
  predicate By(s: State, step: Step, i: nat) {
    WorkerStep(step) && step.t < |s.tasks| && s.tasks[step.t].lane == i
  }

  /** A step of the event thread about one stream. */
  predicate Named(step: Step) {
    step.Retrack? || step.PullFrom? || step.WriteTurn? || step.OwnFrames? || step.UnblockOne?
    || step.HeadersDone? || step.BodyDone? || step.MarkDone? || step.StopSending? || step.ResetStream?
    || step.CloseStream? || step.ReclaimOne? || step.Reserve?
  }

  /** The step is one of the event thread about this stream. */
  predicate Of(step: Step, i: nat) { Named(step) && step.i == i }

  /** How much of a response of n more bytes one locked section stores. */
  function Portion(q: Queue, n: nat): (r: nat)
    ensures r <= n
  {
    if q.buffered >= q.limit then 0 else Min(n, Min(q.limit - q.buffered, 4096))
  }

  /** A worker appends to a response that is still wanted, on a session that is up. */
  predicate Tries(s: State, step: Step, i: nat)
    requires i < |s.lanes|
  {
    By(s, step, i) && step.AppendSome? && !s.lanes[i].send.q.cancelled && !s.aborted && !s.ngDead && !s.destroyed
  }

  /** It has the memory, and the length does not wrap. */
  predicate Stores(s: State, step: Step, i: nat)
    requires i < |s.lanes|
  {
    Tries(s, step, i) && step.mallocOk
    && s.lanes[i].send.q.total + Portion(s.lanes[i].send.q, |step.rest|) <= SIZE_MAX
  }

  /** A worker's call of nghttp3_conn_submit_response. */
  predicate Asks(s: State, step: Step, i: nat)
    requires i < |s.lanes|
  {
    By(s, step, i) && step.Submit? && !s.lanes[i].send.q.submitted && !s.lanes[i].send.q.cancelled
    && !s.aborted && !s.ngDead && !s.destroyed
  }

  /** Everything that cancels a response. */
  predicate Cancels(s: State, step: Step, i: nat)
    requires i < |s.lanes|
  {
    || (Asks(s, step, i) && !step.ok)
    || (Tries(s, step, i) && !Stores(s, step, i))
    || (Of(step, i) && (step.StopSending? || step.ResetStream? || step.CloseStream?))
    || (step.Destroy? && s.lanes[i].tracked)
  }

  /** Everything that lets go of a stream that was reserved for a worker. */
  predicate Releases(s: State, step: Step, i: nat) {
    || (By(s, step, i) && step.SetupFails?)
    || (step.PoolFails? && s.et == Reserved(i)) || (step.PushFails? && s.et == Counted(i))
  }

  predicate EndsHeaders(s: State, step: Step, i: nat)
    requires i < |s.lanes|
  {
    Of(step, i) && step.HeadersDone? && IsBidi(s.lanes[i].sid)
  }

  predicate EndsBody(s: State, step: Step, i: nat)
    requires i < |s.lanes|
  {
    (EndsHeaders(s, step, i) && step.fin) || (Of(step, i) && (step.BodyDone? || step.StopSending?))
  }

  predicate Closes(step: Step, i: nat) {
    Of(step, i) && (step.MarkDone? || step.StopSending? || step.ResetStream? || step.CloseStream?)
  }

  /** What a step does to the request side of stream i, which it leaves as r. */
  ghost predicate RequestLaw(s: State, step: Step, i: nat, r: Lane)
    requires i < |s.lanes|
  {
    var l := s.lanes[i];
    && r.sid == l.sid
    && (r.headersComplete <==> l.headersComplete || EndsHeaders(s, step, i))
    && (r.bodyComplete <==> l.bodyComplete || EndsBody(s, step, i))
    && (r.done <==> l.done || Closes(step, i))
  }

  /** To whose hands it is in, and whether it is still there. */
  ghost predicate HandsLaw(s: State, step: Step, i: nat, r: Lane)
    requires i < |s.lanes|
  {
    var l := s.lanes[i];
    && (r.dispatched <==> (l.dispatched || (Of(step, i) && step.Reserve?)) && !Releases(s, step, i))
    && (r.workerDone <==> l.workerDone || (By(s, step, i) && step.WorkerDone?))
    && (r.tracked <==> l.tracked && !(Of(step, i) && step.ReclaimOne?))
    && (r.poolLive <==> l.poolLive && !(Of(step, i) && step.ReclaimOne?) && !step.Destroy?)
    && r.qstream == (if Of(step, i) && (step.StopSending? || step.CloseStream?) then None
                     else if Of(step, i) && step.Retrack? then Some(s.issued) else l.qstream)
    && (r.writeBlocked <==>
          if Of(step, i) && step.WriteTurn? && step.out.BlockedAfter? && l.qstream.Some? && l.tracked then true
          else l.writeBlocked && !(Of(step, i) && (step.UnblockOne? || step.ReclaimOne?)))
  }

  /** And to its response. */
  ghost predicate ResponseLaw(s: State, step: Step, i: nat, r: Lane)
    requires i < |s.lanes|
  {
    var l := s.lanes[i];
    && r.submitCalls == l.submitCalls + (if Asks(s, step, i) then 1 else 0)
    && (r.send.q.submitted <==> l.send.q.submitted || (Asks(s, step, i) && step.ok))
    && (r.send.q.cancelled <==> l.send.q.cancelled || Cancels(s, step, i))
    && (r.send.q.complete <==>
          l.send.q.complete || Cancels(s, step, i) || (By(s, step, i) && step.CompleteResponse?))
    && r.send.q.limit == l.send.q.limit
    && r.send.log.appended ==
       l.send.log.appended + (if Stores(s, step, i) then step.rest[..Portion(l.send.q, |step.rest|)] else [])
    && (r.send.log.cut <==> l.send.log.cut || (Of(step, i) && step.PullFrom? && l.send.q.cancelled))
    && (Ended(r.send) ==>
          Ended(l.send) || (Of(step, i) && step.PullFrom? && (l.send.q.complete || l.send.q.cancelled)))
    && (r.send.log.concluded ==> l.send.log.concluded || (Of(step, i) && step.WriteTurn? && Ended(l.send)))
  }

  /** nghttp3's reader has been told of the end. */
  predicate Ended(s: Send) { s.ng.Some? && s.ng.value.ended }

  /** All three. */
  ghost predicate LaneLaw(s: State, step: Step, i: nat, r: Lane)
    requires i < |s.lanes|
  {
    RequestLaw(s, step, i, r) && HandsLaw(s, step, i, r) && ResponseLaw(s, step, i, r)
  }

  // The steps, group by group.

  lemma AppendLaw(l: Lane, r: Lane, rest: seq<Byte>, mallocOk: bool, dead: bool)
    requires SendInv(l.send, dead) && !Full(l.send.q) && rest != [] && !l.send.q.cancelled
    requires r == l.(send := AppendCall(l.send, rest, mallocOk))
    ensures var q, n := l.send.q, Portion(l.send.q, |rest|);
            && 0 < n <= |rest|
            && if mallocOk && q.total + n <= SIZE_MAX then
                 r.send.log.appended == l.send.log.appended + rest[..n]
                 && r.send.q == q.(chunks := q.chunks + [Chunk(rest[..n], 0)], buffered := q.buffered + n,
                                   total := q.total + n)
               else r.send.log == l.send.log && r.send.q == q.(cancelled := true, complete := true)
    ensures r.send.log == l.send.log.(appended := r.send.log.appended) && Ended(r.send) == Ended(l.send)
  {
  }

  /** The step leaves the stream alone, or adds a frame of nghttp3's own. */
  predicate Spares(s: State, step: Step, i: nat) {
    && !step.Destroy? && !Releases(s, step, i) && (Of(step, i) ==> step.OwnFrames?)
    && (By(s, step, i) ==> step.Start? || step.SetupDone? || step.Leave?)
  }

  lemma SparesAll(s: State, step: Step, i: nat)
    requires i < |s.lanes| && Spares(s, step, i)
    ensures !Asks(s, step, i) && !Tries(s, step, i) && !(By(s, step, i) && (step.CompleteResponse? || step.WorkerDone?))
  {
    hide Of;
  }

  lemma SparesEvents(s: State, step: Step, i: nat)
    requires i < |s.lanes| && Spares(s, step, i)
    ensures !EndsHeaders(s, step, i) && !EndsBody(s, step, i) && !Closes(step, i)
  {
    hide Of, By, Releases;
  }

  lemma SparesResponse(s: State, step: Step, i: nat)
    requires i < |s.lanes| && Spares(s, step, i)
    ensures !Cancels(s, step, i) && !Stores(s, step, i)
  {
    SparesAll(s, step, i);
    hide Of, By, Releases, Tries, Asks;
  }

  lemma SparesRequestLaw(s: State, step: Step, i: nat, r: Lane)
    requires i < |s.lanes| && Spares(s, step, i) && r == s.lanes[i].(send := r.send)
    ensures RequestLaw(s, step, i, r)
  {
    SparesEvents(s, step, i);
    hide Spares, EndsHeaders, EndsBody, Closes;
  }

  lemma SparesHandsLaw(s: State, step: Step, i: nat, r: Lane)
    requires i < |s.lanes| && Spares(s, step, i) && r == s.lanes[i].(send := r.send)
    ensures HandsLaw(s, step, i, r)
  {
    SparesAll(s, step, i);
    hide Of, By, Releases;
  }

  lemma SparesResponseLaw(s: State, step: Step, i: nat, r: Lane)
    requires i < |s.lanes| && Spares(s, step, i) && r == s.lanes[i].(send := r.send)
    requires r.send.q == s.lanes[i].send.q && r.send.log == s.lanes[i].send.log
             && Ended(r.send) == Ended(s.lanes[i].send)
    ensures ResponseLaw(s, step, i, r)
  {
    SparesAll(s, step, i);
    SparesResponse(s, step, i);
    assert !(Of(step, i) && step.PullFrom?);
    hide Of, By, Tries, Asks, Cancels, Stores, Spares, Portion;
  }

  lemma SparesLaw(s: State, step: Step, i: nat, r: Lane)
    requires i < |s.lanes| && Spares(s, step, i) && r == s.lanes[i].(send := r.send)
    requires r.send.q == s.lanes[i].send.q && r.send.log == s.lanes[i].send.log
             && Ended(r.send) == Ended(s.lanes[i].send)
    ensures LaneLaw(s, step, i, r)
  {
    hide RequestLaw, HandsLaw, ResponseLaw, Spares;
    SparesRequestLaw(s, step, i, r);
    SparesHandsLaw(s, step, i, r);
    SparesResponseLaw(s, step, i, r);
  }

  /** What a step does not name it does not change. */
  lemma Elsewhere(s: State, step: Step, i: nat)
    requires Enabled(s, step) && i < |s.lanes| && Spares(s, step, i) && !Of(step, i)
    ensures i < |Next(s, step).lanes| && Next(s, step).lanes[i] == s.lanes[i]
  {
    hide WorkerNext, DispatchNext, EventNext, WorkerEnabled, DispatchEnabled, EventEnabled, Spares;
    if WorkerStep(step) {
      WorkerElsewhere(s, step, i);
    } else if DispatchStep(step) {
      DispatchElsewhere(s, step, i);
    } else {
      EventElsewhere(s, step, i);
    }
  }

  lemma WorkerElsewhere(s: State, step: Step, i: nat)
    requires WorkerStep(step) && step.t < |s.tasks| && WorkerEnabled(s, step) && i < |s.lanes| && Spares(s, step, i)
    ensures i < |WorkerNext(s, step).lanes| && WorkerNext(s, step).lanes[i] == s.lanes[i]
  {
    hide SubmitCall, AppendCall, Complete, Of, Releases, Down;
  }

  lemma DispatchElsewhere(s: State, step: Step, i: nat)
    requires DispatchStep(step) && DispatchEnabled(s, step) && i < |s.lanes| && Spares(s, step, i)
    ensures i < |DispatchNext(s, step).lanes| && DispatchNext(s, step).lanes[i] == s.lanes[i]
  {
    hide Of, By;
  }

  lemma EventElsewhere(s: State, step: Step, i: nat)
    requires !WorkerStep(step) && !DispatchStep(step) && EventEnabled(s, step) && i < |s.lanes| && Spares(s, step, i)
    requires !Of(step, i)
    ensures i < |EventNext(s, step).lanes| && EventNext(s, step).lanes[i] == s.lanes[i]
  {
    hide EventNext, EventEnabled, By, Releases;
    if !Named(step) {
      UnnamedElsewhere(s, step, i);
    } else if step.StopSending? || step.ResetStream? || step.CloseStream? || step.ReclaimOne? || step.WriteTurn? {
      ClosingElsewhere(s, step, i);
    } else {
      NamedElsewhere(s, step, i);
    }
  }

  lemma UnnamedElsewhere(s: State, step: Step, i: nat)
    requires (step.Track? || step.MarkDead? || step.FreeOne? || step.Abort?) && EventEnabled(s, step) && i < |s.lanes|
    ensures i < |EventNext(s, step).lanes| && EventNext(s, step).lanes[i] == s.lanes[i]
  {
    hide NewLane;
  }

  lemma ClosingElsewhere(s: State, step: Step, i: nat)
    requires step.StopSending? || step.ResetStream? || step.CloseStream? || step.ReclaimOne? || step.WriteTurn?
    requires EventEnabled(s, step) && i < |s.lanes| && i != step.i
    ensures i < |EventNext(s, step).lanes| && EventNext(s, step).lanes[i] == s.lanes[i]
  {
    hide CancelSend, CloseSend, CleanSend, TurnLane;
  }

  lemma NamedElsewhere(s: State, step: Step, i: nat)
    requires step.Retrack? || step.PullFrom? || step.OwnFrames? || step.UnblockOne? || step.HeadersDone?
             || step.BodyDone? || step.MarkDone? || step.Reserve?
    requires EventEnabled(s, step) && i < |s.lanes| && i != step.i
    ensures i < |EventNext(s, step).lanes| && EventNext(s, step).lanes[i] == s.lanes[i]
  {
    hide OwnBytes, Pull, Unflow;
  }

  lemma HandsStep(s: State, step: Step, i: nat)
    requires Enabled(s, step) && By(s, step, i) && i < |s.lanes| && (step.SetupFails? || step.WorkerDone?)
    ensures i < |Next(s, step).lanes|
    ensures Next(s, step).lanes[i] ==
            if step.SetupFails? then s.lanes[i].(dispatched := false) else s.lanes[i].(workerDone := true)
  {
  }

  lemma HandsStepLaw(s: State, step: Step, i: nat)
    requires By(s, step, i) && i < |s.lanes| && (step.SetupFails? || step.WorkerDone?)
    ensures LaneLaw(s, step, i, if step.SetupFails? then s.lanes[i].(dispatched := false)
                                else s.lanes[i].(workerDone := true))
  {
  }

  lemma SubmitStep(s: State, step: Step, i: nat)
    requires Enabled(s, step) && By(s, step, i) && i < |s.lanes| && step.Submit?
    ensures i < |Next(s, step).lanes|
    ensures var l := s.lanes[i];
            Next(s, step).lanes[i] ==
            if Asks(s, step, i)
            then l.(send := SubmitCall(l.send, step.ok, step.frames), submitCalls := l.submitCalls + 1)
            else l
  {
    hide SubmitCall;
  }

  lemma SubmitStepLaw(s: State, step: Step, i: nat)
    requires By(s, step, i) && i < |s.lanes| && step.Submit? && SendInv(s.lanes[i].send, s.ngDead)
    ensures var l := s.lanes[i];
            LaneLaw(s, step, i,
                    if Asks(s, step, i)
                    then l.(send := SubmitCall(l.send, step.ok, step.frames), submitCalls := l.submitCalls + 1) else l)
  {
    hide Conserved, InOrder, NoLostResume;
  }

  lemma AppendStep(s: State, step: Step, i: nat)
    requires Enabled(s, step) && By(s, step, i) && i < |s.lanes| && step.AppendSome?
    ensures i < |Next(s, step).lanes|
    ensures var l := s.lanes[i];
            Next(s, step).lanes[i] ==
            if l.send.q.cancelled || s.aborted || s.ngDead || s.destroyed then l
            else l.(send := AppendCall(l.send, step.rest, step.mallocOk))
    ensures step.rest != []
    ensures Full(s.lanes[i].send.q) ==> s.lanes[i].send.q.cancelled || s.aborted || s.ngDead || s.destroyed
  {
    hide AppendCall;
  }

  lemma AppendStepLaw(s: State, step: Step, i: nat, r: Lane)
    requires i < |s.lanes| && By(s, step, i) && step.AppendSome? && step.rest != []
             && SendInv(s.lanes[i].send, s.ngDead)
    requires Full(s.lanes[i].send.q) ==> s.lanes[i].send.q.cancelled || s.aborted || s.ngDead || s.destroyed
    requires var l := s.lanes[i];
             r == if l.send.q.cancelled || s.aborted || s.ngDead || s.destroyed then l
                  else l.(send := AppendCall(l.send, step.rest, step.mallocOk))
    ensures LaneLaw(s, step, i, r)
  {
    hide Portion;
    var l := s.lanes[i];
    if !l.send.q.cancelled && !s.aborted && !s.ngDead && !s.destroyed {
      AppendLaw(l, r, step.rest, step.mallocOk, s.ngDead);
    }
    hide AppendCall, SendInv, ResponseLaw;
    AppendResponseLaw(s, step, i, r);
  }

  lemma AppendResponseLaw(s: State, step: Step, i: nat, r: Lane)
    requires i < |s.lanes| && By(s, step, i) && step.AppendSome? && r == s.lanes[i].(send := r.send)
    requires var l := s.lanes[i];
             var n := Portion(l.send.q, |step.rest|);
             && Ended(r.send) == Ended(l.send) && r.send.log == l.send.log.(appended := r.send.log.appended)
             && if l.send.q.cancelled || s.aborted || s.ngDead || s.destroyed then r == l
                else if step.mallocOk && l.send.q.total + n <= SIZE_MAX then
                  && r.send.log.appended == l.send.log.appended + step.rest[..n]
                  && r.send.q ==
                    l.send.q.(chunks := r.send.q.chunks, buffered := r.send.q.buffered, total := r.send.q.total)
                else r.send.log == l.send.log && r.send.q == l.send.q.(cancelled := true, complete := true)
    ensures ResponseLaw(s, step, i, r)
  {
    hide Portion;
  }

  lemma CompleteStep(s: State, step: Step, i: nat)
    requires Enabled(s, step) && By(s, step, i) && i < |s.lanes| && step.CompleteResponse?
    ensures i < |Next(s, step).lanes| && LaneLaw(s, step, i, Next(s, step).lanes[i])
  {
  }

  lemma ReleaseStep(s: State, step: Step, i: nat)
    requires Enabled(s, step) && DispatchStep(step) && Releases(s, step, i) && i < |s.lanes|
    ensures i < |Next(s, step).lanes| && Next(s, step).lanes[i] == s.lanes[i].(dispatched := false)
  {
  }

  lemma ReleaseLaw(s: State, step: Step, i: nat)
    requires DispatchStep(step) && Releases(s, step, i) && i < |s.lanes|
    ensures LaneLaw(s, step, i, s.lanes[i].(dispatched := false))
  {
  }

  function ClosedBy(step: Step, l: Lane): Lane {
    if step.MarkDone? then l.(done := true)
    else if step.ResetStream? then l.(send := CancelSend(l.send), done := true)
    else if step.CloseStream? then l.(send := CloseSend(l.send), done := true, qstream := None)
    else l.(send := CancelSend(l.send), done := true, bodyComplete := true, qstream := None)
  }

  lemma DoneStep(s: State, step: Step, i: nat)
    requires Enabled(s, step) && (step.MarkDone? || step.ResetStream?) && Of(step, i) && i < |s.lanes|
    ensures i < |Next(s, step).lanes| && Next(s, step).lanes[i] == ClosedBy(step, s.lanes[i])
  {
    hide CancelSend, CloseSend;
  }

  lemma LetGoStep(s: State, step: Step, i: nat)
    requires Enabled(s, step) && (step.StopSending? || step.CloseStream?) && Of(step, i) && i < |s.lanes|
    ensures i < |Next(s, step).lanes| && Next(s, step).lanes[i] == ClosedBy(step, s.lanes[i])
  {
    hide CancelSend, CloseSend;
  }

  lemma ClosingLaw(s: State, step: Step, i: nat)
    requires Closes(step, i) && i < |s.lanes|
    ensures LaneLaw(s, step, i, ClosedBy(step, s.lanes[i]))
  {
  }

  lemma DestroyStep(s: State, step: Step, i: nat)
    requires Enabled(s, step) && step.Destroy? && i < |s.lanes|
    ensures i < |Next(s, step).lanes| && Next(s, step).lanes[i] == DestroyLane(s.lanes[i])
  {
    hide DestroyLane;
  }

  lemma DestroyLaw(s: State, step: Step, i: nat)
    requires step.Destroy? && i < |s.lanes| && LaneOk(s.lanes[i], s.ngDead, s.destroyed)
    ensures LaneLaw(s, step, i, DestroyLane(s.lanes[i]))
  {
    hide SendInv;
  }

  /** Steps that only change the entry. */
  predicate OnEntry(step: Step) {
    step.Reserve? || step.ReclaimOne? || step.Retrack? || step.UnblockOne? || step.BodyDone? || step.HeadersDone?
  }

  function EntryAfter(s: State, step: Step, l: Lane): Lane
    requires OnEntry(step)
  {
    match step
    case Reserve(_) => l.(dispatched := true)
    case ReclaimOne(_) => l.(writeBlocked := false, tracked := false, send := CleanSend(l.send), poolLive := false)
    case Retrack(_) => l.(qstream := Some(s.issued))
    case UnblockOne(_) => l.(writeBlocked := false, send := Unflow(l.send))
    case BodyDone(_) => l.(bodyComplete := true)
    case HeadersDone(_, fin) =>
      if IsBidi(l.sid) then l.(headersComplete := true, bodyComplete := l.bodyComplete || fin) else l
  }

  lemma PlainEntryStep(s: State, step: Step, i: nat)
    requires Enabled(s, step) && i < |s.lanes| && Of(step, i)
    requires step.Reserve? || step.Retrack? || step.BodyDone? || step.HeadersDone?
    ensures i < |Next(s, step).lanes| && Next(s, step).lanes[i] == EntryAfter(s, step, s.lanes[i])
  {
  }

  lemma SendEntryStep(s: State, step: Step, i: nat)
    requires Enabled(s, step) && i < |s.lanes| && Of(step, i) && (step.ReclaimOne? || step.UnblockOne?)
    ensures i < |Next(s, step).lanes| && Next(s, step).lanes[i] == EntryAfter(s, step, s.lanes[i])
  {
    hide CleanSend, Unflow;
  }

  lemma EntryStep(s: State, step: Step, i: nat)
    requires Enabled(s, step) && i < |s.lanes| && OnEntry(step) && Of(step, i)
    ensures i < |Next(s, step).lanes| && Next(s, step).lanes[i] == EntryAfter(s, step, s.lanes[i])
  {
    hide Enabled, Next, EntryAfter;
    if step.ReclaimOne? || step.UnblockOne? {
      SendEntryStep(s, step, i);
    } else {
      PlainEntryStep(s, step, i);
    }
  }

  lemma PlainEntryLaw(s: State, step: Step, i: nat)
    requires i < |s.lanes| && Of(step, i) && (step.Reserve? || step.Retrack? || step.BodyDone? || step.HeadersDone?)
    ensures LaneLaw(s, step, i, EntryAfter(s, step, s.lanes[i]))
  {
    hide Portion;
  }

  lemma SendEntryLaw(s: State, step: Step, i: nat)
    requires i < |s.lanes| && Of(step, i) && (step.ReclaimOne? || step.UnblockOne?)
    ensures LaneLaw(s, step, i, EntryAfter(s, step, s.lanes[i]))
  {
    hide Portion;
  }

  lemma EntryLaw(s: State, step: Step, i: nat)
    requires i < |s.lanes| && OnEntry(step) && Of(step, i)
    ensures LaneLaw(s, step, i, EntryAfter(s, step, s.lanes[i]))
  {
    hide LaneLaw, EntryAfter;
    if step.ReclaimOne? || step.UnblockOne? {
      SendEntryLaw(s, step, i);
    } else {
      PlainEntryLaw(s, step, i);
    }
  }

  lemma TurnStep(s: State, step: Step, i: nat)
    requires Enabled(s, step) && i < |s.lanes| && step.WriteTurn? && Of(step, i)
    ensures i < |Next(s, step).lanes| && s.lanes[i].send.ng.Some?
    ensures step.accepted <= step.m <= |s.lanes[i].send.ng.value.outq|
    ensures Next(s, step).lanes[i] == TurnLane(s.lanes[i], step.m, step.accepted, step.out)
  {
    hide TurnLane;
  }

  lemma TurnLaw(s: State, step: Step, i: nat)
    requires i < |s.lanes| && step.WriteTurn? && Of(step, i) && s.lanes[i].send.ng.Some?
    requires step.accepted <= step.m <= |s.lanes[i].send.ng.value.outq|
    ensures LaneLaw(s, step, i, TurnLane(s.lanes[i], step.m, step.accepted, step.out))
  {
    TurnLeaves(s.lanes[i], step.m, step.accepted, step.out);
    hide TurnSend;
  }

  /** A turn leaves the flags of the response and what was appended to it. */
  lemma TurnLeaves(l: Lane, m: nat, accepted: nat, out: WriteOutcome)
    requires l.send.ng.Some? && accepted <= m <= |l.send.ng.value.outq|
    ensures var r := TurnSend(l, m, accepted, out);
            && r.q == l.send.q.(chunks := r.q.chunks, submit := r.q.submit, buffered := r.q.buffered)
            && r.log.appended == l.send.log.appended && r.log.cut == l.send.log.cut
            && Ended(r) == Ended(l.send) && (r.log.concluded ==> l.send.log.concluded || Ended(l.send))
  {
    hide BodyOf, AckChunks;
  }

  lemma PullStep(s: State, step: Step, i: nat)
    requires Enabled(s, step) && i < |s.lanes| && step.PullFrom? && Of(step, i)
    ensures i < |Next(s, step).lanes| && Pullable(s.lanes[i].send) && step.veccnt > 0
    ensures 0 <= s.lanes[i].send.q.submit <= |s.lanes[i].send.q.chunks|
    ensures Next(s, step).lanes[i] == s.lanes[i].(send := Pull(s.lanes[i].send, step.veccnt, step.frames))
  {
    hide Pull;
  }

  lemma PullLaw(s: State, step: Step, i: nat)
    requires i < |s.lanes| && step.PullFrom? && Of(step, i) && Pullable(s.lanes[i].send) && step.veccnt > 0
    requires 0 <= s.lanes[i].send.q.submit <= |s.lanes[i].send.q.chunks|
    ensures LaneLaw(s, step, i, s.lanes[i].(send := Pull(s.lanes[i].send, step.veccnt, step.frames)))
  {
    PullLeaves(s.lanes[i].send, step.veccnt, step.frames);
    hide Pull;
  }

  lemma PullLeaves(s: Send, veccnt: nat, frames: nat)
    requires Pullable(s) && veccnt > 0 && 0 <= s.q.submit <= |s.q.chunks|
    ensures var r := Pull(s, veccnt, frames);
            && r.q == s.q.(submit := r.q.submit) && r.log == s.log.(cut := s.log.cut || s.q.cancelled)
            && (Ended(r) ==> Ended(s) || s.q.complete || s.q.cancelled)
  {
    hide PullCount, Datas, Flatten;
  }

  lemma OwnStep(s: State, step: Step, i: nat)
    requires Enabled(s, step) && i < |s.lanes| && step.OwnFrames? && Of(step, i)
    ensures i < |Next(s, step).lanes|
    ensures var l, r := s.lanes[i], Next(s, step).lanes[i];
            && r == l.(send := r.send) && r.send.q == l.send.q && r.send.log == l.send.log
            && Ended(r.send) == Ended(l.send)
  {
  }

  // ---------------------------------------------------------------------------
  // Every step
  // ---------------------------------------------------------------------------

  /** A worker's step keeps the laws of its stream. */
  lemma WorkerLaw(s: State, step: Step, i: nat)
    requires Inv(s) && Enabled(s, step) && i < |s.lanes| && By(s, step, i)
    ensures i < |Next(s, step).lanes| && LaneLaw(s, step, i, Next(s, step).lanes[i])
  {
    LaneIn(s, i);
    hide Inv, Enabled, Next, LaneLaw, SendInv;
    if step.SetupFails? || step.WorkerDone? {
      HandsStep(s, step, i);
      HandsStepLaw(s, step, i);
    } else if step.Submit? {
      SubmitStep(s, step, i);
      SubmitStepLaw(s, step, i);
    } else if step.AppendSome? {
      AppendStep(s, step, i);
      AppendStepLaw(s, step, i, Next(s, step).lanes[i]);
    } else if step.CompleteResponse? {
      CompleteStep(s, step, i);
    } else {
      Elsewhere(s, step, i);
      SparesLaw(s, step, i, s.lanes[i]);
    }
  }

  /** So does a step of the event thread that names it. */
  lemma NamedLaw(s: State, step: Step, i: nat)
    requires Enabled(s, step) && i < |s.lanes| && Of(step, i)
    ensures i < |Next(s, step).lanes| && LaneLaw(s, step, i, Next(s, step).lanes[i])
  {
    hide Enabled, Next, LaneLaw;
    if step.MarkDone? || step.ResetStream? {
      DoneStep(s, step, i);
      ClosingLaw(s, step, i);
    } else if step.StopSending? || step.CloseStream? {
      LetGoStep(s, step, i);
      ClosingLaw(s, step, i);
    } else if OnEntry(step) {
      EntryStep(s, step, i);
      EntryLaw(s, step, i);
    } else if step.WriteTurn? {
      TurnStep(s, step, i);
      TurnLaw(s, step, i);
    } else if step.PullFrom? {
      PullStep(s, step, i);
      PullLaw(s, step, i);
    } else {
      OwnStep(s, step, i);
      SparesLaw(s, step, i, Next(s, step).lanes[i]);
    }
  }

  /** The laws of every stream hold of every step. */
  lemma StepLaw(s: State, step: Step, i: nat)
    requires Inv(s) && Enabled(s, step) && i < |s.lanes|
    ensures i < |Next(s, step).lanes| && LaneLaw(s, step, i, Next(s, step).lanes[i])
  {
    LaneIn(s, i);
    hide Inv, Enabled, Next, LaneLaw, LaneOk;
    if By(s, step, i) {
      WorkerLaw(s, step, i);
    } else if Of(step, i) {
      NamedLaw(s, step, i);
    } else if step.Destroy? {
      DestroyStep(s, step, i);
      DestroyLaw(s, step, i);
    } else if Releases(s, step, i) {
      ReleaseStep(s, step, i);
      ReleaseLaw(s, step, i);
    } else {
      Elsewhere(s, step, i);
      SparesLaw(s, step, i, s.lanes[i]);
    }
  }

  // ---------------------------------------------------------------------------
  // What that means for the worker
  // ---------------------------------------------------------------------------

  /**
   One locked section of an append on a live stream stores the front of what is left, as much as the
   room and the chunk size allow and at least a byte; without memory, or if the length would wrap, it
   stores nothing and cancels the response. Nothing else of the session changes.
   */
  lemma AppendStoresFront(s: State, t: nat, rest: seq<Byte>, mallocOk: bool)
    requires Inv(s) && Enabled(s, AppendSome(t, rest, mallocOk)) && t < |s.tasks| && s.tasks[t].lane < |s.lanes|
    requires var q := s.lanes[s.tasks[t].lane].send.q; !q.cancelled && !s.aborted && !s.ngDead && !s.destroyed
    ensures var i, r := s.tasks[t].lane, Next(s, AppendSome(t, rest, mallocOk));
            && |r.lanes| == |s.lanes| &&
            var a, b := s.lanes[i].send, r.lanes[i].send;
            var n := Min(|rest|, Min(a.q.limit - a.q.buffered, 4096));
            && 0 < n <= |rest| && r == s.(lanes := s.lanes[i := s.lanes[i].(send := b)])
            && if mallocOk && a.q.total + n <= SIZE_MAX then
                 && b.log == a.log.(appended := a.log.appended + rest[..n])
                 && b.q == a.q.(chunks := a.q.chunks + [Chunk(rest[..n], 0)], buffered := a.q.buffered + n,
                                total := a.q.total + n)
               else b.log == a.log && b.q == a.q.(cancelled := true, complete := true)
  {
    var i := s.tasks[t].lane;
    LaneIn(s, i);
    hide Inv;
    var l := s.lanes[i];
    AppendLaw(l, l.(send := AppendCall(l.send, rest, mallocOk)), rest, mallocOk, s.ngDead);
    hide AppendCall, SendInv;
  }

  /** Completing a response completes it: the queue keeps everything else, cancelled or not. */
  lemma CompleteOnlyCompletes(s: State, t: nat)
    requires Inv(s) && Enabled(s, CompleteResponse(t)) && t < |s.tasks| && s.tasks[t].lane < |s.lanes|
    ensures var i, r := s.tasks[t].lane, Next(s, CompleteResponse(t));
            && |r.lanes| == |s.lanes| &&
            var a, b := s.lanes[i].send, r.lanes[i].send;
            && r == s.(lanes := s.lanes[i := s.lanes[i].(send := b)], tasks := s.tasks[t := Task(i, Completed)])
            && b.q == a.q.(complete := true) && b.log == a.log
            && (b.ng.Some? <==> a.ng.Some?) && (a.ng.Some? ==> b.ng.value == a.ng.value.(parked := b.ng.value.parked))
            // a reader that waits is told to come back
            && (a.q.submitted && a.ng.Some? && !s.ngDead && !s.destroyed ==> !b.ng.value.parked)
  {
    hide Inv;
  }

  /**
   A worker that cannot set up its request gives the stream back as it was before it was reserved: the
   request can be dispatched again, and the stream cannot be reclaimed as if it had been served.
   */
  lemma SetupFailsReleases(s: State, t: nat)
    requires Inv(s) && Enabled(s, SetupFails(t)) && t < |s.tasks| && s.tasks[t].lane < |s.lanes|
    ensures var i, r := s.tasks[t].lane, Next(s, SetupFails(t));
            && |r.lanes| == |s.lanes| &&
            var l := s.lanes[i];
            && l.tracked && l.dispatched && !l.workerDone
            && r == s.(lanes := s.lanes[i := l.(dispatched := false)], tasks := s.tasks[t := Task(i, Leaving)])
            && !Reclaimable(r.lanes[i]) && (IsBidi(l.sid) && l.headersComplete && l.bodyComplete ==> Ready(r.lanes[i]))
            && (s.et.Idle? && !s.destroyed ==> Enabled(r, Reserve(i)))
  {
    hide Inv, Enabled, Next, IsBidi, IsServer;
    SetupHolds(s, t);
    SetupFailsTo(s, t);
    if s.et.Idle? && !s.destroyed {
      CanReserve(Next(s, SetupFails(t)), s.tasks[t].lane);
    }
  }

  lemma SetupHolds(s: State, t: nat)
    requires Inv(s) && Enabled(s, SetupFails(t)) && t < |s.tasks| && s.tasks[t].lane < |s.lanes|
    ensures var l := s.lanes[s.tasks[t].lane]; l.tracked && l.dispatched && !l.workerDone
  {
    assert TaskOk(s, s.tasks[t]);
    hide Inv;
  }

  lemma CanReserve(s: State, i: nat)
    requires s.et.Idle? && !s.destroyed && i < |s.lanes| && s.lanes[i].tracked && !s.lanes[i].dispatched
    ensures Enabled(s, Reserve(i))
  {
  }

  lemma SetupFailsTo(s: State, t: nat)
    requires Enabled(s, SetupFails(t)) && t < |s.tasks| && s.tasks[t].lane < |s.lanes|
    ensures var i := s.tasks[t].lane;
            Next(s, SetupFails(t)) ==
            s.(lanes := s.lanes[i := s.lanes[i].(dispatched := false)], tasks := s.tasks[t := Task(i, Leaving)])
  {
  }

  /** What a step does to the session as a whole. */
  lemma SessionLaw(s: State, step: Step)
    requires Enabled(s, step)
    ensures var r := Next(s, step);
            && (r.aborted <==> s.aborted || step.Abort?) && (r.ngDead <==> s.ngDead || step.MarkDead?)
            && (r.destroyed <==> s.destroyed || step.Destroy?) && r.limit == s.limit
            && r.issued == s.issued + (if step.Track? || step.Retrack? then 1 else 0)
            && |r.lanes| == |s.lanes| + (if step.Track? && step.poolOk then 1 else 0)
  {
    hide WorkerNext, DispatchNext, EventNext;
    if WorkerStep(step) {
      WorkerSession(s, step);
    } else if DispatchStep(step) {
      DispatchSession(s, step);
    } else {
      EventSession(s, step);
    }
  }

  lemma WorkerSession(s: State, step: Step)
    requires WorkerStep(step) && step.t < |s.tasks| && WorkerEnabled(s, step)
    ensures var r := WorkerNext(s, step);
            r == s.(lanes := r.lanes, tasks := r.tasks, activeTasks := r.activeTasks) && |r.lanes| == |s.lanes|
  {
    hide SubmitCall, AppendCall, Complete;
  }

  lemma DispatchSession(s: State, step: Step)
    requires DispatchStep(step) && DispatchEnabled(s, step)
    ensures var r := DispatchNext(s, step);
            && r == s.(lanes := r.lanes, tasks := r.tasks, activeTasks := r.activeTasks, et := r.et)
            && |r.lanes| == |s.lanes|
  {
  }

  /** Steps about one stream leave the session's own flags. */
  ghost predicate SameSession(s: State, r: State) {
    && r.aborted == s.aborted && r.ngDead == s.ngDead && r.destroyed == s.destroyed && r.limit == s.limit
    && |r.lanes| == |s.lanes|
  }

  lemma ClosingSession(s: State, step: Step)
    requires step.StopSending? || step.ResetStream? || step.CloseStream? || step.ReclaimOne? || step.WriteTurn?
    requires EventEnabled(s, step)
    ensures SameSession(s, EventNext(s, step)) && EventNext(s, step).issued == s.issued
  {
    hide CancelSend, CloseSend, CleanSend, TurnLane;
  }

  lemma NamedSession(s: State, step: Step)
    requires step.Retrack? || step.PullFrom? || step.OwnFrames? || step.UnblockOne? || step.HeadersDone?
             || step.BodyDone? || step.MarkDone? || step.Reserve?
    requires EventEnabled(s, step)
    ensures SameSession(s, EventNext(s, step))
    ensures EventNext(s, step).issued == s.issued + if step.Retrack? then 1 else 0
  {
    hide OwnBytes, Pull, Unflow;
  }

  lemma EventSession(s: State, step: Step)
    requires !WorkerStep(step) && !DispatchStep(step) && EventEnabled(s, step)
    ensures var r := EventNext(s, step);
            && (r.aborted <==> s.aborted || step.Abort?) && (r.ngDead <==> s.ngDead || step.MarkDead?)
            && (r.destroyed <==> s.destroyed || step.Destroy?) && r.limit == s.limit
            && r.issued == s.issued + (if step.Track? || step.Retrack? then 1 else 0)
            && |r.lanes| == |s.lanes| + (if step.Track? && step.poolOk then 1 else 0)
  {
    if Named(step) {
      hide EventNext, EventEnabled;
      if step.StopSending? || step.ResetStream? || step.CloseStream? || step.ReclaimOne? || step.WriteTurn? {
        ClosingSession(s, step);
      } else {
        NamedSession(s, step);
      }
    } else {
      hide NewLane, Reverse;
    }
  }

  /** A stream just tracked is open, has its handle, and nothing has happened to it yet. */
  lemma NewStream(s: State, step: Step)
    requires Enabled(s, step) && step.Track? && step.poolOk
    ensures var l := Next(s, step).lanes[|s.lanes|];
            && l.sid == step.sid && l.qstream == Some(s.issued) && l.tracked && l.poolLive
            && !l.done && !l.writeBlocked && !l.headersComplete && !l.bodyComplete && !l.dispatched && !l.workerDone
            && l.submitCalls == 0 && l.send.q == Queue([], 0, 0, 0, s.limit, false, false, false)
            && l.send.log.appended == [] && l.send.log.wire == [] && !l.send.log.cut && !l.send.log.concluded
            && l.send.ng.Some? && !l.send.ng.value.ended
  {
  }

  // ---------------------------------------------------------------------------
  // What that means for the send loop
  // ---------------------------------------------------------------------------

  /**
   A turn takes exactly the offered bytes off nghttp3's backlog, or the accepted ones if the write
   blocked. QUIC has got the accepted ones if the stream has a handle and nothing otherwise. The fin is
   gone exactly with the last byte, and the stream is concluded exactly if QUIC took that, flagged
   broken, blocked or swallowed exactly if it was.
   */
  lemma TurnMoves(l: Lane, m: nat, accepted: nat, out: WriteOutcome)
    requires l.send.ng.Some? && accepted <= m <= |l.send.ng.value.outq| && Possible(m, accepted, out)
    ensures var g, r, held := l.send.ng.value, TurnLane(l, m, accepted, out), l.tracked && l.qstream.Some?;
            var n := if held && out.BlockedAfter? then accepted else m;
            && r.send.ng == Some(g.(outq := g.outq[n..], finSent := g.finSent || (g.ended && n == |g.outq|),
                                    flowBlocked := g.flowBlocked || (held && out.BlockedAfter? && !l.writeBlocked)))
            && r.send.log.wire == l.send.log.wire + (if held then g.outq[..accepted] else [])
            && (r.send.log.concluded <==>
                  l.send.log.concluded || (held && out.Taken? && g.ended && m == |g.outq|))
            && (r.send.log.broken <==> l.send.log.broken || (held && out.BrokenAfter?))
            && (r.send.log.swallowed <==> l.send.log.swallowed || !held)
            && r == l.(send := r.send, writeBlocked := l.writeBlocked || (held && out.BlockedAfter?))
  {
    hide Ack, BodyOf;
  }

  /**
   A call of the data reader with room for `veccnt` buffers. Cancelled, it reports the end. Otherwise it
   hands over the next chunks whole, as many as there is room for, and reports the end exactly with the
   last one of a complete response; with nothing to hand over and more to come it parks the stream.
   */
  lemma PullMoves(s: Send, veccnt: nat, frames: nat)
    requires Pullable(s) && veccnt > 0 && Valid(s.q)
    ensures var g, r, k := s.ng.value, Pull(s, veccnt, frames), Min(veccnt, |s.q.chunks| - s.q.submit);
            && r.ng.Some?
            && if s.q.cancelled then r.q == s.q && r.ng.value == g.(ended := true)
               else if k == 0 && !s.q.complete then r.q == s.q && r.ng.value == g.(parked := true)
               else
                 && r.q == s.q.(submit := s.q.submit + k)
                 && r.ng.value == g.(outq := g.outq + Framing(Datas(s.q.chunks[s.q.submit..s.q.submit + k]), frames),
                                     ended := s.q.complete && s.q.submit + k == |s.q.chunks|)
  {
    if s.q.cancelled {
      assert s.ng.value.outq + Framing([], frames) == s.ng.value.outq;
    }
    hide Datas, Framing, Unacked, ChunkOk;
  }

  /** What is framed is the bytes of those chunks, in order. */
  lemma FramedBytes(outq: seq<Wire>, vecs: seq<seq<Byte>>, frames: nat)
    ensures BodyOf(outq + Framing(vecs, frames)) == BodyOf(outq) + Flatten(vecs)
  {
    FramingBody(vecs, frames);
    BodyOfConcat(outq, Framing(vecs, frames));
    hide BodyOf, Flatten, Framing;
  }

  /** A response nghttp3 takes on gets a reader and its header block behind what is queued already. */
  lemma SubmitAdds(s: Send, frames: nat)
    requires s.ng.Some?
    ensures var g, r := s.ng.value, SubmitCall(s, true, frames);
            && r == s.(q := s.q.(submitted := true), ng := Some(g.(reader := true, outq := r.ng.value.outq)))
            && |r.ng.value.outq| == |g.outq| + frames && g.outq <= r.ng.value.outq
            && forall k | |g.outq| <= k < |r.ng.value.outq| :: r.ng.value.outq[k] == Wire.Frame
  {
  }

  /** So do frames of nghttp3's own, on a stream whose end it has not seen. */
  lemma OwnAdds(s: Send, n: nat)
    requires s.ng.Some? && !s.ng.value.ended
    ensures var g, r := s.ng.value, OwnBytes(s, n);
            && r == s.(ng := Some(g.(outq := r.ng.value.outq)))
            && |r.ng.value.outq| == |g.outq| + n && g.outq <= r.ng.value.outq
            && forall k | |g.outq| <= k < |r.ng.value.outq| :: r.ng.value.outq[k] == Wire.Frame
  {
  }
}
