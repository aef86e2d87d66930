/**
 Runs of the transition system in `Session` as the event thread's code makes them: a run, the log of
 what QUIC answered along it, the dispatches in it, and what workers may do between its steps.
 */
module SessionRun {
  import opened Options
  import opened ResponseQueue
  import opened SendPath
  import opened Session
  import opened SessionSafety
  import opened WireLog

  /** Nothing happens on the wire; the response only grows, and not once it is complete. */
  ghost predicate SameWire(a: Send, b: Send) {
    && b.log.wire == a.log.wire && b.log.concluded == a.log.concluded && b.log.broken == a.log.broken
    && b.log.swallowed == a.log.swallowed && (a.log.cut ==> b.log.cut)
    && a.log.appended <= b.log.appended && (a.q.complete ==> b.q.complete && b.log.appended == a.log.appended)
  }

  /** What the state says QUIC took, concluded and broke off is what the log of QUIC's answers says. */
  ghost predicate Told(ls: seq<Lane>, log: seq<WireEvent>) {
    && (forall k | 0 <= k < |log| :: log[k].stream < |ls|)
    && (forall i | 0 <= i < |ls| :: ToldOf(ls[i].send, log, i))
  }

  ghost predicate ToldOf(s: Send, log: seq<WireEvent>, i: nat) {
    && s.log.wire == TakenFor(log, i)
    && (s.log.concluded <==> ConcludedFor(log, i)) && (s.log.broken <==> FailedFor(log, i))
  }

  /** Nor does a stream that has lost its handle get one. */
  ghost predicate SameStream(a: Lane, b: Lane) {
    SameWire(a.send, b.send) && (a.qstream.None? ==> b.qstream.None?)
  }

  ghost predicate Unwritten(s: Send) {
    s.log.wire == [] && !s.log.concluded && !s.log.broken && !s.log.swallowed
  }

  /** Streams keep what QUIC took for them, and new streams have had nothing taken. */
  ghost predicate SameWires(a: seq<Lane>, b: seq<Lane>) {
    && |a| <= |b|
    && (forall i | 0 <= i < |a| :: SameStream(a[i], b[i]))
    && (forall i | |a| <= i < |b| :: Unwritten(b[i].send))
  }

  lemma ToldStill(a: seq<Lane>, b: seq<Lane>, log: seq<WireEvent>)
    requires Told(a, log) && SameWires(a, b)
    ensures Told(b, log)
  {
    forall i | 0 <= i < |b| ensures ToldOf(b[i].send, log, i) {
      if i < |a| {
        assert ToldOf(a[i].send, log, i) && SameStream(a[i], b[i]);
      } else {
        LogSilent(log, i);
      }
    }
  }

  lemma SameWiresAt(a: seq<Lane>, i: nat, l: Lane)
    requires i < |a| && SameStream(a[i], l)
    ensures SameWires(a, a[i := l])
  {
  }

  /** The worker's calls touch no wire. */
  lemma SubmitWire(s: Send, ok: bool, frames: nat)
    ensures SameWire(s, SubmitCall(s, ok, frames))
  {
  }

  lemma AppendWire(s: Send, rest: seq<Byte>, ok: bool)
    requires !s.q.complete
    ensures SameWire(s, AppendCall(s, rest, ok))
  {
  }

  lemma CompleteWire(s: Send, dead: bool)
    ensures SameWire(s, Complete(s, dead))
  {
  }

  lemma WorkerWires(s: State, step: Step)
    requires TasksOk(s) && WorkerStep(step) && step.t < |s.tasks| && WorkerEnabled(s, step)
    ensures SameWires(s.lanes, WorkerNext(s, step).lanes)
  {
    hide SameWires;
    var i := s.tasks[step.t].lane;
    WorkerWireAt(s, step);
    SameWiresAt(s.lanes, i, WorkerNext(s, step).lanes[i]);
  }

  lemma WorkerWireAt(s: State, step: Step)
    requires TasksOk(s) && WorkerStep(step) && step.t < |s.tasks| && WorkerEnabled(s, step)
    ensures var i, r := s.tasks[step.t].lane, WorkerNext(s, step).lanes;
            i < |s.lanes| == |r| && r == s.lanes[i := r[i]] && SameStream(s.lanes[i], r[i])
  {
    hide SubmitCall, AppendCall, Complete;
    var l := s.lanes[s.tasks[step.t].lane];
    assert TaskOk(s, s.tasks[step.t]);
    if step.Submit? {
      SubmitWire(l.send, step.ok, step.frames);
    } else if step.AppendSome? {
      if !l.send.q.complete {
        AppendWire(l.send, step.rest, step.mallocOk);
      }
    } else {
      CompleteWire(l.send, s.ngDead || s.destroyed);
    }
    hide SameWire;
    SameWireRefl(l.send);
  }

  lemma SameWireRefl(s: Send)
    ensures SameWire(s, s)
  {
  }

  lemma DispatchWires(s: State, step: Step)
    requires DispatchStep(step) && DispatchEnabled(s, step)
    ensures SameWires(s.lanes, DispatchNext(s, step).lanes)
  {
    if step.PoolFails? || step.PushFails? {
      hide SameWires;
      SameWiresAt(s.lanes, s.et.i, s.lanes[s.et.i].(dispatched := false));
    }
  }

  /** nor do nghttp3's own bytes, the callbacks and the cleanup */
  lemma EventWire(s: Send, n: nat)
    ensures SameWire(s, OwnBytes(s, n)) && SameWire(s, Unflow(s)) && SameWire(s, CancelSend(s))
    ensures SameWire(s, CloseSend(s)) && SameWire(s, CleanSend(s)) && SameWire(s, CleanSend(CloseSend(s)))
  {
  }

  lemma PullWire(s: Send, veccnt: nat, frames: nat)
    requires Pullable(s) && 0 <= s.q.submit <= |s.q.chunks|
    ensures SameWire(s, Pull(s, veccnt, frames))
  {
  }

  /** The steps of the event thread about one stream. */
  predicate OnStream(step: Step) {
    || step.PullFrom? || step.OwnFrames? || step.UnblockOne? || step.HeadersDone? || step.BodyDone?
    || step.MarkDone? || step.StopSending? || step.ResetStream? || step.CloseStream? || step.ReclaimOne?
    || step.Reserve?
  }

  lemma EventWires(s: State, step: Step)
    requires !WorkerStep(step) && !DispatchStep(step) && EventEnabled(s, step)
    requires !step.WriteTurn? && !step.Destroy? && !step.Retrack?
    ensures SameWires(s.lanes, EventNext(s, step).lanes)
  {
    if OnStream(step) {
      hide SameWires, EventNext;
      EventWireAt(s, step);
      SameWiresAt(s.lanes, step.i, EventNext(s, step).lanes[step.i]);
    } else {
      OtherWires(s, step);
    }
  }

  lemma OtherWires(s: State, step: Step)
    requires step.Track? || step.MarkDead? || step.FreeOne? || step.Abort?
    requires EventEnabled(s, step)
    ensures SameWires(s.lanes, EventNext(s, step).lanes)
  {
  }

  lemma EventWireAt(s: State, step: Step)
    requires OnStream(step) && EventEnabled(s, step)
    ensures WireAt(s, step)
  {
    hide WireAt, EventEnabled;
    if step.PullFrom? || step.OwnFrames? || step.UnblockOne? {
      SendingAt(s, step);
    } else if step.StopSending? || step.ResetStream? || step.CloseStream? || step.ReclaimOne? {
      ClosingAt(s, step);
    } else {
      FlaggingAt(s, step);
    }
  }

  /** The step changes the entry of its stream only, and nothing on the wire. */
  ghost predicate WireAt(s: State, step: Step)
    requires OnStream(step) && EventEnabled(s, step)
  {
    var r := EventNext(s, step).lanes;
    step.i < |s.lanes| == |r| && r == s.lanes[step.i := r[step.i]] && SameStream(s.lanes[step.i], r[step.i])
  }

  lemma SendingAt(s: State, step: Step)
    requires (step.PullFrom? || step.OwnFrames? || step.UnblockOne?) && EventEnabled(s, step)
    ensures WireAt(s, step)
  {
    hide OwnBytes, Pull, Unflow;
    var send := s.lanes[step.i].send;
    EventWire(send, if step.OwnFrames? then step.n else 0);
    if step.PullFrom? {
      PullWire(send, step.veccnt, step.frames);
    }
    hide SameWire;
  }

  lemma ClosingAt(s: State, step: Step)
    requires (step.StopSending? || step.ResetStream? || step.CloseStream? || step.ReclaimOne?) && EventEnabled(s, step)
    ensures WireAt(s, step)
  {
    hide WireAt, EventEnabled;
    if step.StopSending? {
      StoppingAt(s, step);
    } else if step.CloseStream? {
      LettingGoAt(s, step);
    } else {
      EndingAt(s, step);
    }
  }

  lemma StoppingAt(s: State, step: Step)
    requires step.StopSending? && EventEnabled(s, step)
    ensures WireAt(s, step)
  {
    hide CancelSend, CloseSend;
    EventWire(s.lanes[step.i].send, 0);
    hide SameWire;
  }

  lemma LettingGoAt(s: State, step: Step)
    requires step.CloseStream? && EventEnabled(s, step)
    ensures WireAt(s, step)
  {
    hide CancelSend, CloseSend;
    EventWire(s.lanes[step.i].send, 0);
    hide SameWire;
  }

  lemma EndingAt(s: State, step: Step)
    requires (step.ResetStream? || step.ReclaimOne?) && EventEnabled(s, step)
    ensures WireAt(s, step)
  {
    hide CancelSend, CleanSend;
    EventWire(s.lanes[step.i].send, 0);
    hide SameWire;
  }

  lemma FlaggingAt(s: State, step: Step)
    requires step.HeadersDone? || step.BodyDone? || step.MarkDone? || step.Reserve?
    requires EventEnabled(s, step)
    ensures WireAt(s, step)
  {
    SameWireRefl(s.lanes[step.i].send);
    hide SameWire;
  }

  lemma DestroyWires(s: State)
    ensures SameWires(s.lanes, DestroyNext(s).lanes)
  {
    hide CloseSend, CleanSend;
    forall i | 0 <= i < |s.lanes| ensures SameStream(s.lanes[i], DestroyLane(s.lanes[i])) {
      EventWire(s.lanes[i].send, 0);
    }
  }

  /** Only a write changes what is on the wire, and only a repeated id brings a handle back. */
  lemma StepWires(s: State, step: Step)
    requires TasksOk(s) && Enabled(s, step) && !step.WriteTurn? && !step.Retrack?
    ensures SameWires(s.lanes, Next(s, step).lanes)
  {
    hide WorkerNext, DispatchNext, WorkerEnabled, DispatchEnabled, SameWires, DestroyNext, TasksOk;
    if WorkerStep(step) {
      WorkerWires(s, step);
    } else if DispatchStep(step) {
      DispatchWires(s, step);
    } else if step.Destroy? {
      DestroyWires(s);
    } else {
      hide EventNext, EventEnabled;
      EventWires(s, step);
    }
  }

  /** What a turn puts on the wire. */
  lemma TurnWire(l: Lane, m: nat, accepted: nat, out: WriteOutcome)
    requires l.send.ng.Some? && accepted <= m <= |l.send.ng.value.outq| && Possible(m, accepted, out)
    ensures var g, r := l.send.ng.value, TurnSend(l, m, accepted, out);
            if !HasStream(l) then
              && r.log.wire == l.send.log.wire && r.log.concluded == l.send.log.concluded
              && r.log.broken == l.send.log.broken
            else
              && r.log.wire == l.send.log.wire + g.outq[..accepted]
              && (r.log.broken <==> l.send.log.broken || out.BrokenAfter?)
              && (r.log.concluded <==> l.send.log.concluded || (out.Taken? && g.ended && m == |g.outq|))
  {
    hide Ack, BodyOf;
  }

  /** A fresh session comes to `now` by these steps, `now` is in order, and it says of QUIC what the log says. */
  ghost predicate Led(limit: nat, trail: seq<Step>, log: seq<WireEvent>, now: State) {
    limit > 0 && Run(Init(limit), trail) == Some(now) && Inv(now) && Told(now.lanes, log)
  }

  lemma Took(limit: nat, trail: seq<Step>, log: seq<WireEvent>, s: State, step: Step)
    requires Led(limit, trail, log, s) && Enabled(s, step) && !step.WriteTurn?
    ensures Led(limit, trail + [step], log, Next(s, step))
  {
    hide Inv, Next, Enabled, Told;
    assert (trail + [step])[..|trail|] == trail;
    StepKeeps(s, step);
    if step.Retrack? {
      RetrackTold(s, step, log);
    } else {
      assert TasksOk(s) by { InvTasks(s); }
      hide TasksOk;
      StepWires(s, step);
      ToldStill(s.lanes, Next(s, step).lanes, log);
    }
  }

  lemma InvTasks(s: State)
    requires Inv(s)
    ensures TasksOk(s)
  {
  }

  /** A stream that comes again keeps its response. */
  lemma RetrackTold(s: State, step: Step, log: seq<WireEvent>)
    requires Enabled(s, step) && step.Retrack? && Told(s.lanes, log)
    ensures Told(Next(s, step).lanes, log)
  {
    hide ToldOf;
    var r := Next(s, step).lanes;
    forall i | 0 <= i < |r| ensures ToldOf(r[i].send, log, i) {
      assert ToldOf(s.lanes[i].send, log, i);
    }
  }

  /** The events are those of the write a turn makes of its offer. */
  ghost predicate AnsweredAs(l: Lane, i: nat, m: nat, accepted: nat, out: WriteOutcome, events: seq<WireEvent>)
    requires l.send.ng.Some? && accepted <= m <= |l.send.ng.value.outq|
  {
    && (forall k | 0 <= k < |events| :: events[k].stream == i)
    && (if !HasStream(l) then events == []
        else
          var g := l.send.ng.value;
          && TakenFor(events, i) == g.outq[..accepted] && (FailedFor(events, i) <==> out.BrokenAfter?)
          && (ConcludedFor(events, i) <==> out.Taken? && g.ended && m == |g.outq|))
  }

  lemma ToldTurn(ls: seq<Lane>, log: seq<WireEvent>, i: nat, m: nat, accepted: nat, out: WriteOutcome,
                 events: seq<WireEvent>)
    requires Told(ls, log) && i < |ls| && ls[i].send.ng.Some? && accepted <= m <= |ls[i].send.ng.value.outq|
    requires Possible(m, accepted, out) && AnsweredAs(ls[i], i, m, accepted, out, events)
    ensures Told(ls[i := TurnLane(ls[i], m, accepted, out)], log + events)
  {
    hide TurnSend;
    TurnWire(ls[i], m, accepted, out);
    var r := ls[i := TurnLane(ls[i], m, accepted, out)];
    forall j | 0 <= j < |ls| ensures ToldOf(r[j].send, log + events, j) {
      assert ToldOf(ls[j].send, log, j);
      LogConcat(log, events, j);
      if j != i || !HasStream(ls[i]) {
        LogSilent(events, j);
      }
    }
  }

  lemma TookTurn(limit: nat, trail: seq<Step>, log: seq<WireEvent>, s: State, step: Step, events: seq<WireEvent>)
    requires Led(limit, trail, log, s) && Enabled(s, step) && step.WriteTurn? && step.i < |s.lanes|
    requires s.lanes[step.i].send.ng.Some? && step.accepted <= step.m <= |s.lanes[step.i].send.ng.value.outq|
    requires Possible(step.m, step.accepted, step.out)
    requires AnsweredAs(s.lanes[step.i], step.i, step.m, step.accepted, step.out, events)
    requires Next(s, step).lanes == s.lanes[step.i := TurnLane(s.lanes[step.i], step.m, step.accepted, step.out)]
    ensures Led(limit, trail + [step], log + events, Next(s, step))
  {
    hide Inv, Next, Enabled, Told, AnsweredAs, TurnLane;
    assert (trail + [step])[..|trail|] == trail;
    StepKeeps(s, step);
    ToldTurn(s.lanes, log, step.i, step.m, step.accepted, step.out, events);
  }

  lemma LedIs(limit: nat, trail: seq<Step>, log: seq<WireEvent>, s: State)
    requires Led(limit, trail, log, s)
    ensures Reachable(s) && Inv(s) && Told(s.lanes, log)
  {
    hide Inv, Run, Told;
  }

  // ---------------------------------------------------------------------------
  // What reached QUIC, over a whole run
  // ---------------------------------------------------------------------------

  /** What QUIC took of a response is a prefix of it, and all of it once concluded unless it was cut short. */
  ghost predicate Faithful(s: Send) {
    && BodyOf(s.log.wire) <= s.log.appended
    && (s.log.concluded && !s.log.cut ==> s.q.complete && BodyOf(s.log.wire) == s.log.appended)
  }

  /** Nothing was dropped while the stream had a handle. */
  ghost predicate Unskipped(l: Lane) {
    (l.send.log.swallowed ==> l.qstream.None?) && (!l.send.log.broken ==> Faithful(l.send))
  }

  lemma UnskippedSame(a: Lane, b: Lane)
    requires Unskipped(a) && SameStream(a, b)
    ensures Unskipped(b)
  {
  }

  /** A write: the stream has a handle, so it was never without one, and the invariants say the rest. */
  lemma UnskippedTurn(l: Lane, r: Lane, m: nat, accepted: nat, out: WriteOutcome, dead: bool)
    requires l.send.ng.Some? && accepted <= m <= |l.send.ng.value.outq| && Possible(m, accepted, out)
    requires r == TurnLane(l, m, accepted, out) && Unskipped(l) && LaneOk(l, dead, false) && LaneOk(r, dead, false)
    ensures Unskipped(r)
  {
    TurnFlags(l, m, accepted, out);
    if HasStream(l) {
      hide TurnLane, TurnSend, BodyOf;
      if !r.send.log.broken {
        AcceptedIsPrefix(r.send, dead);
      }
    }
  }

  lemma TurnFlags(l: Lane, m: nat, accepted: nat, out: WriteOutcome)
    requires l.send.ng.Some? && accepted <= m <= |l.send.ng.value.outq| && Possible(m, accepted, out)
    ensures var r := TurnLane(l, m, accepted, out);
            && r.qstream == l.qstream && r.tracked == l.tracked && r.send.ng.Some?
            && r.send.log.appended == l.send.log.appended && r.send.q.complete == l.send.q.complete
            && r.send.log.cut == l.send.log.cut
            && (if HasStream(l) then r.send.log.swallowed == l.send.log.swallowed
                else r.send.log.wire == l.send.log.wire && r.send.log.concluded == l.send.log.concluded
                     && r.send.log.broken == l.send.log.broken)
  {
    hide BodyOf;
  }

  lemma UnskippedStep(s: State, step: Step, i: nat)
    requires Inv(s) && Enabled(s, step) && step != Retrack(i)
    requires i < |s.lanes| ==> Unskipped(s.lanes[i])
    ensures i < |Next(s, step).lanes| ==> Unskipped(Next(s, step).lanes[i])
  {
    var r := Next(s, step);
    hide Inv, Enabled, Next, Unskipped;
    if step.WriteTurn? {
      WriteKeeps(s, step, i);
    } else if step.Retrack? {
      RetrackOther(s, step);
    } else {
      InvTasks(s);
      hide TasksOk;
      StepWires(s, step);
      if i < |s.lanes| {
        UnskippedSame(s.lanes[i], r.lanes[i]);
      } else if i < |r.lanes| {
        UnskippedNew(r.lanes[i]);
      }
    }
  }

  lemma UnskippedNew(l: Lane)
    requires Unwritten(l.send)
    ensures Unskipped(l)
  {
  }

  lemma RetrackOther(s: State, step: Step)
    requires Enabled(s, step) && step.Retrack?
    ensures step.i < |s.lanes| == |Next(s, step).lanes|
    ensures forall i | 0 <= i < |s.lanes| && i != step.i :: Next(s, step).lanes[i] == s.lanes[i]
  {
  }

  lemma WriteIs(s: State, step: Step)
    requires Enabled(s, step) && step.WriteTurn?
    ensures var i, m, accepted, out := step.i, step.m, step.accepted, step.out;
            && !s.destroyed && i < |s.lanes| && s.lanes[i].send.ng.Some?
            && accepted <= m <= |s.lanes[i].send.ng.value.outq| && Possible(m, accepted, out)
            && Next(s, step).lanes == s.lanes[i := TurnLane(s.lanes[i], m, accepted, out)]
            && Next(s, step).ngDead == s.ngDead && Next(s, step).destroyed == s.destroyed
  {
    hide TurnLane;
  }

  lemma WriteKeeps(s: State, step: Step, i: nat)
    requires Inv(s) && Enabled(s, step) && step.WriteTurn?
    requires i < |s.lanes| ==> Unskipped(s.lanes[i])
    ensures i < |Next(s, step).lanes| ==> Unskipped(Next(s, step).lanes[i])
  {
    hide Inv, Enabled, Next, Unskipped, TurnLane, LaneOk;
    WriteIs(s, step);
    if i == step.i {
      StepKeeps(s, step);
      LaneIn(s, i);
      LaneIn(Next(s, step), i);
      UnskippedTurn(s.lanes[i], Next(s, step).lanes[i], step.m, step.accepted, step.out, s.ngDead);
    }
  }

  lemma RunInv(limit: nat, trail: seq<Step>)
    requires limit > 0 && Run(Init(limit), trail).Some?
    ensures Inv(Run(Init(limit), trail).value)
  {
    RunKeeps(Init(limit), trail);
  }

  lemma {:induction false} UnskippedRun(limit: nat, trail: seq<Step>, i: nat)
    requires limit > 0 && Run(Init(limit), trail).Some? && Retrack(i) !in trail
    ensures var s := Run(Init(limit), trail).value; i < |s.lanes| ==> Unskipped(s.lanes[i])
    decreases |trail|
  {
    hide Enabled, Next, Unskipped, Inv;
    if trail != [] {
      var n := |trail| - 1;
      UnskippedRun(limit, trail[..n], i);
      RunInv(limit, trail[..n]);
      UnskippedStep(Run(Init(limit), trail[..n]).value, trail[n], i);
    }
  }

  /** The body bytes QUIC took are a prefix of the response, and all of it once concluded unless it was cut short. */
  ghost predicate ReachedInOrder(s: Send, log: seq<WireEvent>, i: nat) {
    && BodyOf(TakenFor(log, i)) <= s.log.appended
    && (ConcludedFor(log, i) && !s.log.cut ==> s.q.complete && BodyOf(TakenFor(log, i)) == s.log.appended)
  }

  /**
   What QUIC itself was given and answered, in the log of its answers: on a stream no failed write broke
   off, the body bytes QUIC took are a prefix of what the worker appended, and all of it once the
   stream was concluded, whatever became of the stream since. For that the stream's id must not have
   come again, or the response not have been cancelled; and a response cancelled before its end was
   read is concluded short.
   */
  lemma SentInOrder(limit: nat, trail: seq<Step>, log: seq<WireEvent>, s: State, i: nat)
    requires Led(limit, trail, log, s) && i < |s.lanes| && !FailedFor(log, i)
    requires Retrack(i) !in trail || !s.lanes[i].send.q.cancelled
    ensures ReachedInOrder(s.lanes[i].send, log, i)
  {
    LedIs(limit, trail, log, s);
    assert ToldOf(s.lanes[i].send, log, i);
    hide Reachable, Inv, ToldOf;
    if Retrack(i) !in trail {
      UnskippedRun(limit, trail, i);
    } else {
      ResponseInOrder(s, i);
    }
  }

  /** The steps of h3_process_request. */
  predicate Handing(step: Step) { step.Reserve? || DispatchStep(step) }

  /** The dispatch steps of a run, in order. */
  function Handings(trail: seq<Step>): seq<Step> {
    if trail == [] then []
    else
      var step := trail[|trail| - 1];
      Handings(trail[..|trail| - 1]) + if Handing(step) then [step] else []
  }

  lemma HandingsSnoc(trail: seq<Step>, step: Step)
    ensures Handings(trail + [step]) == Handings(trail) + if Handing(step) then [step] else []
  {
    assert (trail + [step])[..|trail|] == trail;
  }

  // ---------------------------------------------------------------------------
  // What workers leave alone
  // ---------------------------------------------------------------------------

  /** Workers only work on responses, and on whose hands a stream is in; a stream nobody works on stays as it is. */
  ghost predicate WorkedOn(a: Lane, b: Lane) {
    && b == a.(send := b.send, dispatched := b.dispatched, workerDone := b.workerDone, submitCalls := b.submitCalls)
    && (if a.dispatched then a.workerDone ==> b.workerDone else b == a)
  }

  ghost predicate Worked(a: seq<Lane>, b: seq<Lane>) {
    |a| == |b| && forall i | 0 <= i < |a| :: WorkedOn(a[i], b[i])
  }

  lemma WorkedRefl(ls: seq<Lane>)
    ensures Worked(ls, ls)
  {
  }

  lemma WorkedTrans(a: seq<Lane>, b: seq<Lane>, c: seq<Lane>)
    requires Worked(a, b) && Worked(b, c)
    ensures Worked(a, c)
  {
    forall i | 0 <= i < |a| ensures WorkedOn(a[i], c[i]) {
      assert WorkedOn(a[i], b[i]) && WorkedOn(b[i], c[i]);
    }
  }

  /** The one stream a worker's step changes is dispatched. */
  lemma WorkerTouch(s: State, step: Step)
    requires Inv(s) && WorkerStep(step) && step.t < |s.tasks| && WorkerEnabled(s, step)
    ensures var r := WorkerNext(s, step);
            r == s.(lanes := r.lanes, tasks := r.tasks, activeTasks := r.activeTasks) && Worked(s.lanes, r.lanes)
  {
    hide Inv, Worked, WorkedOn;
    var i := s.tasks[step.t].lane;
    WorkerLane(s, step);
    TouchOne(s.lanes, i, WorkerNext(s, step).lanes[i]);
  }

  lemma TouchOne(ls: seq<Lane>, i: nat, l: Lane)
    requires i < |ls| && WorkedOn(ls[i], l)
    ensures Worked(ls, ls[i := l])
  {
  }

  lemma WorkerLane(s: State, step: Step)
    requires Inv(s) && WorkerStep(step) && step.t < |s.tasks| && WorkerEnabled(s, step)
    ensures var i, r := s.tasks[step.t].lane, WorkerNext(s, step);
            i < |s.lanes| == |r.lanes| && r.lanes == s.lanes[i := r.lanes[i]] && WorkedOn(s.lanes[i], r.lanes[i])
  {
    assert TaskOk(s, s.tasks[step.t]);
    hide Inv, WorkerNext;
    WorkerLaneShape(s, step);
  }

  lemma WorkerLaneShape(s: State, step: Step)
    requires WorkerStep(step) && step.t < |s.tasks| && WorkerEnabled(s, step)
    requires step.Leave? || s.lanes[s.tasks[step.t].lane].dispatched
    ensures var i, r := s.tasks[step.t].lane, WorkerNext(s, step);
            i < |s.lanes| == |r.lanes| && r.lanes == s.lanes[i := r.lanes[i]] && WorkedOn(s.lanes[i], r.lanes[i])
  {
    hide WorkerNext, WorkedOn;
    if step.Submit? || step.AppendSome? || step.CompleteResponse? {
      ResponseLane(s, step);
    } else {
      HandsLane(s, step);
    }
  }

  /** The steps that work on the response. */
  lemma ResponseLane(s: State, step: Step)
    requires step.Submit? || step.AppendSome? || step.CompleteResponse?
    requires step.t < |s.tasks| && WorkerEnabled(s, step) && s.lanes[s.tasks[step.t].lane].dispatched
    ensures var i, r := s.tasks[step.t].lane, WorkerNext(s, step);
            |r.lanes| == |s.lanes| && r.lanes == s.lanes[i := r.lanes[i]] && WorkedOn(s.lanes[i], r.lanes[i])
  {
    hide SubmitCall, AppendCall, Complete;
  }

  /** The steps that only change hands, or nothing of the stream. */
  lemma HandsLane(s: State, step: Step)
    requires step.Start? || step.SetupFails? || step.SetupDone? || step.WorkerDone? || step.Leave?
    requires step.t < |s.tasks| && WorkerEnabled(s, step) && (step.Leave? || s.lanes[s.tasks[step.t].lane].dispatched)
    ensures var i, r := s.tasks[step.t].lane, WorkerNext(s, step);
            |r.lanes| == |s.lanes| && r.lanes == s.lanes[i := r.lanes[i]] && WorkedOn(s.lanes[i], r.lanes[i])
  {
  }

  // ---------------------------------------------------------------------------
  // Runs without worker steps
  // ---------------------------------------------------------------------------

  /** The run went on by steps of the event thread alone, the lock being held, and none of them was a dispatch. */
  ghost predicate OwnGrew(a: seq<Step>, b: seq<Step>) {
    a <= b && forall k | |a| <= k < |b| :: !WorkerStep(b[k]) && !Handing(b[k])
  }

  lemma {:induction false} HandingsSame(a: seq<Step>, b: seq<Step>)
    requires OwnGrew(a, b)
    ensures Handings(b) == Handings(a)
    decreases |b|
  {
    if |a| < |b| {
      var front := b[..|b| - 1];
      HandingsSame(a, front);
      assert b == front + [b[|b| - 1]];
      HandingsSnoc(front, b[|b| - 1]);
    } else {
      assert a == b;
    }
  }

  lemma GrewRefl(a: seq<Step>)
    ensures OwnGrew(a, a)
  {
  }

  lemma GrewStep(a: seq<Step>, b: seq<Step>, step: Step)
    requires OwnGrew(a, b) && !WorkerStep(step) && !Handing(step)
    ensures OwnGrew(a, b + [step])
  {
  }

  lemma GrewTrans(a: seq<Step>, b: seq<Step>, c: seq<Step>)
    requires OwnGrew(a, b) && OwnGrew(b, c)
    ensures OwnGrew(a, c)
  {
  }

  // ---------------------------------------------------------------------------
  // Whole requests only
  // ---------------------------------------------------------------------------

  /** A request stream with all its headers and all its body, which nobody has taken. */
  predicate WholeRequest(l: Lane) {
    l.tracked && IsBidi(l.sid) && l.headersComplete && l.bodyComplete && !l.dispatched
  }

  /** Every reservation in the run was of a whole request. */
  ghost predicate ReservedWhole(limit: nat, trail: seq<Step>) {
    forall k | 0 <= k < |trail| && trail[k].Reserve? :: ReservedAt(limit, trail, k)
  }

  ghost predicate ReservedAt(limit: nat, trail: seq<Step>, k: nat)
    requires k < |trail| && trail[k].Reserve?
  {
    var before := Run(Init(limit), trail[..k]);
    before.Some? && trail[k].i < |before.value.lanes| && WholeRequest(before.value.lanes[trail[k].i])
  }

  lemma ReservedNone(limit: nat)
    ensures ReservedWhole(limit, [])
  {
  }

  lemma ReservedSnoc(limit: nat, trail: seq<Step>, step: Step)
    requires ReservedWhole(limit, trail)
    requires step.Reserve? ==>
               var s := Run(Init(limit), trail);
               s.Some? && step.i < |s.value.lanes| && WholeRequest(s.value.lanes[step.i])
    ensures ReservedWhole(limit, trail + [step])
  {
    hide Run, WholeRequest;
    assert (trail + [step])[..|trail|] == trail;
    forall k | 0 <= k < |trail| && trail[k].Reserve? ensures ReservedAt(limit, trail + [step], k) {
      assert (trail + [step])[..k] == trail[..k];
      assert ReservedAt(limit, trail, k);
    }
  }

  lemma {:induction false} HandingsGrow(a: seq<Step>, b: seq<Step>)
    requires a <= b
    ensures |Handings(a)| <= |Handings(b)|
    decreases |b|
  {
    if |a| < |b| {
      HandingsGrow(a, b[..|b| - 1]);
    } else {
      assert a == b;
    }
  }

  /** A run that went on without a dispatch. */
  lemma {:induction false} ReservedSame(limit: nat, a: seq<Step>, b: seq<Step>)
    requires a <= b && Handings(b) == Handings(a) && ReservedWhole(limit, a)
    ensures ReservedWhole(limit, b)
    decreases |b|
  {
    hide ReservedWhole;
    if |a| < |b| {
      var front, step := b[..|b| - 1], b[|b| - 1];
      assert b == front + [step];
      HandingsGrow(a, front);
      HandingsSnoc(front, step);
      assert |Handings(b)| == |Handings(front)| + if Handing(step) then 1 else 0;
      assert Handings(front) == Handings(b);
      ReservedSame(limit, a, front);
      ReservedSnoc(limit, front, step);
    } else {
      assert a == b;
    }
  }

  /** What comes after keeps it so. */
  ghost predicate KeepsWhole(limit: nat, a: seq<Step>, b: seq<Step>) {
    ReservedWhole(limit, a) ==> ReservedWhole(limit, b)
  }

  lemma KeepsSame(limit: nat, a: seq<Step>, b: seq<Step>)
    requires a <= b && Handings(b) == Handings(a)
    ensures KeepsWhole(limit, a, b)
  {
    hide ReservedWhole;
    if ReservedWhole(limit, a) {
      ReservedSame(limit, a, b);
    }
  }

  lemma KeepsSnoc(limit: nat, trail: seq<Step>, step: Step)
    requires !step.Reserve?
    ensures KeepsWhole(limit, trail, trail + [step])
  {
    hide ReservedWhole;
    if ReservedWhole(limit, trail) {
      ReservedSnoc(limit, trail, step);
    }
  }

  lemma GrewKeeps(limit: nat, a: seq<Step>, b: seq<Step>)
    requires OwnGrew(a, b)
    ensures KeepsWhole(limit, a, b)
  {
    HandingsSame(a, b);
    KeepsSame(limit, a, b);
    hide KeepsWhole;
  }

  lemma LedRun(limit: nat, trail: seq<Step>, log: seq<WireEvent>, s: State)
    requires Led(limit, trail, log, s)
    ensures Run(Init(limit), trail) == Some(s)
  {
  }

  /** The turns of the send loop in a run, in order. */
  function Turns(trail: seq<Step>): seq<Step> {
    if trail == [] then []
    else
      var step := trail[|trail| - 1];
      Turns(trail[..|trail| - 1]) + if step.WriteTurn? then [step] else []
  }

  lemma TurnsSnoc(trail: seq<Step>, step: Step)
    ensures Turns(trail + [step]) == Turns(trail) + if step.WriteTurn? then [step] else []
  {
    assert (trail + [step])[..|trail|] == trail;
  }

  /** The step a turn of the send loop is. */
  function StepOf(t: Turn): Step {
    var m := |Flatten(t.vecs)|;
    if t.held then WriteTurn(t.stream, m, |t.res.taken|, Outcome(t.res)) else WriteTurn(t.stream, m, m, Taken)
  }

  function StepsOf(turns: seq<Turn>): seq<Step> {
    if turns == [] then [] else StepsOf(turns[..|turns| - 1]) + [StepOf(turns[|turns| - 1])]
  }

  lemma StepsSnoc(turns: seq<Turn>, t: Turn)
    ensures StepsOf(turns + [t]) == StepsOf(turns) + [StepOf(t)]
  {
    assert (turns + [t])[..|turns|] == turns;
  }
}
