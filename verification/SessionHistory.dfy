/**
 What must have happened in a run for a session to be as it is: the laws of single steps, over whole
 runs. And what a worker that passes on its response piece by piece gets across.
 */
module SessionHistory {
  import opened ResponseQueue
  import opened SendPath
  import opened Session
  import opened SessionSafety
  import opened SessionLaws
  import opened WireLog
  import opened SessionRun

  // ---------------------------------------------------------------------------
  // What happened to a stream
  // ---------------------------------------------------------------------------

  datatype Happening =
    | Cancelling | Completing | Submitting | Serving | HeadersEnding | BodyEnding | Closing | Reclaiming

  /** The step is such a thing happening to stream i. */
  predicate Happens(h: Happening, s: State, step: Step, i: nat)
    requires i < |s.lanes|
  {
    match h
    case Cancelling => Cancels(s, step, i)
    case Completing => By(s, step, i) && step.CompleteResponse?
    case Submitting => Asks(s, step, i) && step.ok
    case Serving => By(s, step, i) && step.WorkerDone?
    case HeadersEnding => EndsHeaders(s, step, i)
    case BodyEnding => EndsBody(s, step, i)
    case Closing => Closes(step, i)
    case Reclaiming => Of(step, i) && step.ReclaimOne?
  }

  /** It happens with the k-th step of the run. */
  ghost predicate HappensAt(limit: nat, trail: seq<Step>, h: Happening, i: nat, k: nat) {
    k < |trail| &&
    var before := Run(Init(limit), trail[..k]);
    before.Some? && i < |before.value.lanes| && Happens(h, before.value, trail[k], i)
  }

  ghost predicate Happened(limit: nat, trail: seq<Step>, h: Happening, i: nat) {
    exists k :: HappensAt(limit, trail, h, i, k)
  }

  lemma NothingYet(limit: nat, h: Happening, i: nat)
    ensures !Happened(limit, [], h, i)
  {
  }

  lemma AtFront(limit: nat, trail: seq<Step>, step: Step, h: Happening, i: nat, k: nat)
    requires k < |trail|
    ensures HappensAt(limit, trail + [step], h, i, k) <==> HappensAt(limit, trail, h, i, k)
  {
    assert (trail + [step])[..k] == trail[..k];
  }

  lemma AtLast(limit: nat, trail: seq<Step>, step: Step, h: Happening, i: nat)
    ensures HappensAt(limit, trail + [step], h, i, |trail|) <==>
            var before := Run(Init(limit), trail);
            before.Some? && i < |before.value.lanes| && Happens(h, before.value, step, i)
  {
    assert (trail + [step])[..|trail|] == trail;
  }

  /** It happened before, or it happens now. */
  lemma HappenedSnoc(limit: nat, trail: seq<Step>, step: Step, h: Happening, i: nat)
    requires Run(Init(limit), trail).Some?
    ensures var s := Run(Init(limit), trail).value;
            Happened(limit, trail + [step], h, i) <==>
            Happened(limit, trail, h, i) || (i < |s.lanes| && Happens(h, s, step, i))
  {
    hide HappensAt, Happens, Run;
    AtLast(limit, trail, step, h, i);
    if Happened(limit, trail, h, i) {
      var k: nat :| HappensAt(limit, trail, h, i, k);
      WithinRun(limit, trail, h, i, k);
      AtFront(limit, trail, step, h, i, k);
    }
    if Happened(limit, trail + [step], h, i) {
      var k: nat :| HappensAt(limit, trail + [step], h, i, k);
      WithinRun(limit, trail + [step], h, i, k);
      if k < |trail| {
        AtFront(limit, trail, step, h, i, k);
      }
    }
  }

  lemma WithinRun(limit: nat, trail: seq<Step>, h: Happening, i: nat, k: nat)
    requires HappensAt(limit, trail, h, i, k)
    ensures k < |trail|
  {
  }

  /** Every flag of a stream says exactly whether such a step was in the run. */
  ghost predicate Recorded(l: Lane, limit: nat, trail: seq<Step>, i: nat) {
    && (l.headersComplete <==> Happened(limit, trail, HeadersEnding, i))
    && (l.bodyComplete <==> Happened(limit, trail, BodyEnding, i))
    && (l.done <==> Happened(limit, trail, Closing, i))
    && (!l.tracked <==> Happened(limit, trail, Reclaiming, i))
    && (l.workerDone <==> Happened(limit, trail, Serving, i))
    && (l.send.q.submitted <==> Happened(limit, trail, Submitting, i))
    && (l.send.q.cancelled <==> Happened(limit, trail, Cancelling, i))
    && (l.send.q.complete <==> Happened(limit, trail, Cancelling, i) || Happened(limit, trail, Completing, i))
  }

  ghost predicate Untouched(limit: nat, trail: seq<Step>, i: nat) {
    forall h: Happening :: !Happened(limit, trail, h, i)
  }

  lemma RecordedNew(l: Lane, limit: nat, trail: seq<Step>, i: nat)
    requires Untouched(limit, trail, i)
    requires !l.headersComplete && !l.bodyComplete && !l.done && l.tracked && !l.workerDone
    requires !l.send.q.submitted && !l.send.q.cancelled && !l.send.q.complete
    ensures Recorded(l, limit, trail, i)
  {
    hide Happened;
  }

  lemma UntouchedSnoc(limit: nat, trail: seq<Step>, step: Step, i: nat)
    requires Run(Init(limit), trail).Some? && i >= |Run(Init(limit), trail).value.lanes| && Untouched(limit, trail, i)
    ensures Untouched(limit, trail + [step], i)
  {
    hide Happened, Run, Happens;
    forall h: Happening ensures !Happened(limit, trail + [step], h, i) {
      HappenedSnoc(limit, trail, step, h, i);
    }
  }

  /** One more step, and the laws of that step. */
  lemma RecordedSnoc(limit: nat, trail: seq<Step>, step: Step, i: nat, r: Lane)
    requires Run(Init(limit), trail).Some? && i < |Run(Init(limit), trail).value.lanes|
    requires var s := Run(Init(limit), trail).value; Recorded(s.lanes[i], limit, trail, i) && LaneLaw(s, step, i, r)
    ensures Recorded(r, limit, trail + [step], i)
  {
    hide Happened, Run;
    HappenedSnoc(limit, trail, step, HeadersEnding, i);
    HappenedSnoc(limit, trail, step, BodyEnding, i);
    HappenedSnoc(limit, trail, step, Closing, i);
    HappenedSnoc(limit, trail, step, Reclaiming, i);
    HappenedSnoc(limit, trail, step, Serving, i);
    HappenedSnoc(limit, trail, step, Submitting, i);
    HappenedSnoc(limit, trail, step, Cancelling, i);
    HappenedSnoc(limit, trail, step, Completing, i);
    hide EndsHeaders, EndsBody, Closes, Of, By, Asks, Cancels, Stores, Portion, Releases;
  }

  /** In every run, each flag of each stream holds if and only if the run had a step that sets it. */
  lemma {:induction false} FlagsBecause(limit: nat, trail: seq<Step>, i: nat)
    requires limit > 0 && Run(Init(limit), trail).Some?
    ensures var s := Run(Init(limit), trail).value;
            if i < |s.lanes| then Recorded(s.lanes[i], limit, trail, i) else Untouched(limit, trail, i)
    decreases |trail|
  {
    hide Enabled, Next, Inv, Recorded, Untouched, LaneLaw;
    if trail == [] {
      UntouchedNone(limit, i);
    } else {
      var n := |trail| - 1;
      var front, step := trail[..n], trail[n];
      assert trail == front + [step];
      FlagsBecause(limit, front, i);
      var s := Run(Init(limit), front).value;
      var r := Next(s, step);
      RunInv(limit, front);
      SessionLaw(s, step);
      if i < |s.lanes| {
        StepLaw(s, step, i);
        RecordedSnoc(limit, front, step, i, r.lanes[i]);
      } else {
        UntouchedSnoc(limit, front, step, i);
        if i < |r.lanes| {
          NewStream(s, step);
          RecordedNew(r.lanes[i], limit, trail, i);
        }
      }
    }
  }

  lemma UntouchedNone(limit: nat, i: nat)
    ensures Untouched(limit, [], i)
  {
    hide Happened;
    forall h: Happening ensures !Happened(limit, [], h, i) {
      NothingYet(limit, h, i);
    }
  }

  // ---------------------------------------------------------------------------
  // Served means answered
  // ---------------------------------------------------------------------------

  /** A task that has completed its response does so now, or had done so before under some number. */
  lemma CompletedStep(s: State, step: Step, t: nat) returns (before: nat)
    requires Enabled(s, step) && t < |Next(s, step).tasks| && Next(s, step).tasks[t].pc.Completed?
    ensures var task := Next(s, step).tasks[t];
            if step.CompleteResponse? && By(s, step, task.lane) then task.lane < |s.lanes|
            else before < |s.tasks| && s.tasks[before] == task
  {
    hide DispatchNext, EventNext, WorkerNext;
    before := t;
    if WorkerStep(step) {
      before := CompletedWorker(s, step, t);
    } else if DispatchStep(step) {
      CompletedDispatch(s, step, t);
    } else {
      TasksSame(s, step);
    }
  }

  lemma CompletedWorker(s: State, step: Step, t: nat) returns (before: nat)
    requires WorkerStep(step) && step.t < |s.tasks| && WorkerEnabled(s, step)
    requires t < |WorkerNext(s, step).tasks| && WorkerNext(s, step).tasks[t].pc.Completed?
    ensures var task := WorkerNext(s, step).tasks[t];
            if step.CompleteResponse? && By(s, step, task.lane) then task.lane < |s.lanes|
            else before < |s.tasks| && s.tasks[before] == task
  {
    hide SubmitCall, AppendCall, Complete, Down;
    before := if step.Leave? && t >= step.t then t + 1 else t;
  }

  lemma CompletedDispatch(s: State, step: Step, t: nat)
    requires DispatchStep(step) && DispatchEnabled(s, step)
    requires t < |DispatchNext(s, step).tasks| && DispatchNext(s, step).tasks[t].pc.Completed?
    ensures t < |s.tasks| && s.tasks[t] == DispatchNext(s, step).tasks[t]
  {
  }

  /** The event thread's steps leave the tasks alone. */
  lemma TasksSame(s: State, step: Step)
    requires !WorkerStep(step) && !DispatchStep(step) && EventEnabled(s, step)
    ensures EventNext(s, step).tasks == s.tasks
  {
    hide OwnBytes, Pull, TurnLane, CancelSend, CloseSend, CleanSend, Unflow, NewLane, Reverse, DestroyAll;
  }

  lemma {:induction false} CompletedBecause(limit: nat, trail: seq<Step>, t: nat)
    requires Run(Init(limit), trail).Some? && t < |Run(Init(limit), trail).value.tasks|
    requires Run(Init(limit), trail).value.tasks[t].pc.Completed?
    ensures Happened(limit, trail, Completing, Run(Init(limit), trail).value.tasks[t].lane)
    decreases |trail|
  {
    var n := |trail| - 1;
    var front, step := trail[..n], trail[n];
    assert trail == front + [step];
    var s := Run(Init(limit), front).value;
    var before := CompletedStep(s, step, t);
    var i := Next(s, step).tasks[t].lane;
    hide Enabled, Next, Happened;
    HappenedSnoc(limit, front, step, Completing, i);
    if !(step.CompleteResponse? && By(s, step, i)) {
      CompletedBecause(limit, front, before);
    }
  }

  lemma {:induction false} RunPrefix(s: State, steps: seq<Step>, k: nat)
    requires Run(s, steps).Some? && k <= |steps|
    ensures Run(s, steps[..k]).Some?
    decreases |steps|
  {
    hide Enabled, Next;
    if k < |steps| {
      assert steps[..|steps| - 1][..k] == steps[..k];
      RunPrefix(s, steps[..|steps| - 1], k);
    } else {
      assert steps[..k] == steps;
    }
  }

  lemma PrefixAt(limit: nat, trail: seq<Step>, b: nat, h: Happening, i: nat, k: nat)
    requires k < b <= |trail|
    ensures HappensAt(limit, trail[..b], h, i, k) <==> HappensAt(limit, trail, h, i, k)
  {
    assert trail[..b][..k] == trail[..k];
  }

  /**
   A stream counts as served only after its worker completed the response: whenever a worker says so,
   an earlier step of the run completed that stream's response.
   */
  lemma ServedAfterCompleting(limit: nat, trail: seq<Step>, i: nat, b: nat) returns (a: nat)
    requires Run(Init(limit), trail).Some? && HappensAt(limit, trail, Serving, i, b)
    ensures a < b && HappensAt(limit, trail, Completing, i, a)
  {
    var front := trail[..b];
    var s := Run(Init(limit), front).value;
    StepTaken(limit, trail, b);
    assert s.tasks[trail[b].t].pc.Completed?;
    CompletedBecause(limit, front, trail[b].t);
    hide HappensAt, Run;
    a :| HappensAt(limit, front, Completing, i, a);
    WithinRun(limit, front, Completing, i, a);
    PrefixAt(limit, trail, b, Completing, i, a);
  }

  lemma StepTaken(limit: nat, trail: seq<Step>, k: nat)
    requires Run(Init(limit), trail).Some? && k < |trail|
    ensures Run(Init(limit), trail[..k]).Some? && Enabled(Run(Init(limit), trail[..k]).value, trail[k])
  {
    RunPrefix(Init(limit), trail, k + 1);
    assert trail[..k + 1][..k] == trail[..k];
    hide Enabled, Next;
  }

  /** In the code's runs, a request is handed to a worker only after its headers and its body have ended. */
  lemma ReservedBecause(limit: nat, trail: seq<Step>, k: nat)
    requires limit > 0 && Run(Init(limit), trail).Some? && ReservedWhole(limit, trail) && k < |trail|
             && trail[k].Reserve?
    ensures Happened(limit, trail[..k], HeadersEnding, trail[k].i)
            && Happened(limit, trail[..k], BodyEnding, trail[k].i)
  {
    assert ReservedAt(limit, trail, k);
    hide Run, Happened, ReservedWhole;
    FlagsBecause(limit, trail[..k], trail[k].i);
  }

  /**
   A stream is reclaimed only when all is over with it: it is a client's request stream, it was closed,
   it has no handle, and its worker had completed the response and said so.
   */
  lemma ReclaimedBecause(limit: nat, trail: seq<Step>, k: nat)
    requires limit > 0 && Run(Init(limit), trail).Some? && k < |trail| && trail[k].ReclaimOne?
    ensures var s, i := Run(Init(limit), trail[..k]), trail[k].i;
            && s.Some? && i < |s.value.lanes| && s.value.lanes[i].sid % 4 == 0 && s.value.lanes[i].qstream.None?
            && Happened(limit, trail[..k], Closing, i) && Happened(limit, trail[..k], Serving, i)
            && Happened(limit, trail[..k], Completing, i)
  {
    var front, i := trail[..k], trail[k].i;
    StepTaken(limit, trail, k);
    hide Run, Enabled, HappensAt;
    ReclaimsFinished(Run(Init(limit), front).value, trail[k]);
    FlagsBecause(limit, front, i);
    var b: nat :| HappensAt(limit, front, Serving, i, b);
    var a := ServedAfterCompleting(limit, front, i, b);
  }

  lemma ReclaimsFinished(s: State, step: Step)
    requires Enabled(s, step) && step.ReclaimOne?
    ensures step.i < |s.lanes|
    ensures var l := s.lanes[step.i];
            l.sid % 4 == 0 && l.done && l.qstream.None? && l.dispatched && l.workerDone && l.tracked
  {
    StreamIds(s.lanes[step.i].sid);
    hide IsBidi, IsServer;
  }

  // ---------------------------------------------------------------------------
  // A response passed on piece by piece
  // ---------------------------------------------------------------------------

  /** A worker that appends with this step passes what is left of the body. */
  ghost predicate PassesRest(s: State, step: Step, i: nat, body: seq<Byte>)
    requires i < |s.lanes|
  {
    Tries(s, step, i) ==>
      var n := |s.lanes[i].send.log.appended|;
      n <= |body| && step.rest == body[n..]
  }

  /** One that completes the response with this step, before it is cancelled, has appended all of it. */
  ghost predicate FinishesAll(s: State, step: Step, i: nat, body: seq<Byte>)
    requires i < |s.lanes|
  {
    By(s, step, i) && step.CompleteResponse? && !s.lanes[i].send.q.cancelled ==> s.lanes[i].send.log.appended == body
  }

  /** Stream i's worker passes on this body, always the rest of it, all through the run. */
  ghost predicate PassesOn(limit: nat, trail: seq<Step>, i: nat, body: seq<Byte>) {
    forall k | 0 <= k < |trail| :: PassedAt(limit, trail, i, body, k)
  }

  ghost predicate PassedAt(limit: nat, trail: seq<Step>, i: nat, body: seq<Byte>, k: nat)
    requires k < |trail|
  {
    var before := Run(Init(limit), trail[..k]);
    before.Some? && i < |before.value.lanes| ==> PassesRest(before.value, trail[k], i, body)
  }

  /** And completes the response only when it is through. */
  ghost predicate Finishes(limit: nat, trail: seq<Step>, i: nat, body: seq<Byte>) {
    forall k | 0 <= k < |trail| :: FinishedAt(limit, trail, i, body, k)
  }

  ghost predicate FinishedAt(limit: nat, trail: seq<Step>, i: nat, body: seq<Byte>, k: nat)
    requires k < |trail|
  {
    var before := Run(Init(limit), trail[..k]);
    before.Some? && i < |before.value.lanes| ==> FinishesAll(before.value, trail[k], i, body)
  }

  lemma PassesFront(limit: nat, trail: seq<Step>, step: Step, i: nat, body: seq<Byte>)
    requires PassesOn(limit, trail + [step], i, body)
    ensures PassesOn(limit, trail, i, body)
    ensures var before := Run(Init(limit), trail);
            before.Some? && i < |before.value.lanes| ==> PassesRest(before.value, step, i, body)
  {
    hide PassesRest, Run;
    assert (trail + [step])[..|trail|] == trail;
    assert PassedAt(limit, trail + [step], i, body, |trail|);
    forall k | 0 <= k < |trail| ensures PassedAt(limit, trail, i, body, k) {
      assert (trail + [step])[..k] == trail[..k];
      assert PassedAt(limit, trail + [step], i, body, k);
    }
  }

  lemma FinishesFront(limit: nat, trail: seq<Step>, step: Step, i: nat, body: seq<Byte>)
    requires Finishes(limit, trail + [step], i, body)
    ensures Finishes(limit, trail, i, body)
    ensures var before := Run(Init(limit), trail);
            before.Some? && i < |before.value.lanes| ==> FinishesAll(before.value, step, i, body)
  {
    hide FinishesAll, Run;
    assert (trail + [step])[..|trail|] == trail;
    assert FinishedAt(limit, trail + [step], i, body, |trail|);
    forall k | 0 <= k < |trail| ensures FinishedAt(limit, trail, i, body, k) {
      assert (trail + [step])[..k] == trail[..k];
      assert FinishedAt(limit, trail + [step], i, body, k);
    }
  }

  lemma PrefixGrows(body: seq<Byte>, n: nat, k: nat)
    requires n <= |body| && k <= |body| - n
    ensures body[..n] + body[n..][..k] == body[..n + k]
  {
  }

  lemma AppendedStep(s: State, step: Step, i: nat, r: Lane, body: seq<Byte>)
    requires i < |s.lanes| && LaneLaw(s, step, i, r) && PassesRest(s, step, i, body)
    requires s.lanes[i].send.log.appended <= body
    ensures r.send.log.appended <= body
  {
    hide RequestLaw, HandsLaw, Cancels, Portion, Of, By, Asks;
    if Stores(s, step, i) {
      PrefixGrows(body, |s.lanes[i].send.log.appended|, Portion(s.lanes[i].send.q, |step.rest|));
    }
  }

  /** In any run, a worker that always passes on the rest of a body appends a prefix of that body. */
  lemma {:induction false} AppendsInOrder(limit: nat, trail: seq<Step>, i: nat, body: seq<Byte>)
    requires limit > 0 && Run(Init(limit), trail).Some? && PassesOn(limit, trail, i, body)
    ensures var s := Run(Init(limit), trail).value; i < |s.lanes| ==> s.lanes[i].send.log.appended <= body
    decreases |trail|
  {
    hide Enabled, Next, Inv, LaneLaw, PassesOn, PassesRest;
    if trail != [] {
      var n := |trail| - 1;
      var front, step := trail[..n], trail[n];
      assert trail == front + [step];
      PassesFront(limit, front, step, i, body);
      AppendsInOrder(limit, front, i, body);
      var s := Run(Init(limit), front).value;
      RunInv(limit, front);
      SessionLaw(s, step);
      if i < |s.lanes| {
        StepLaw(s, step, i);
        AppendedStep(s, step, i, Next(s, step).lanes[i], body);
      } else if i < |Next(s, step).lanes| {
        NewStream(s, step);
      }
    }
  }

  /** Wherever the end of the response is known and not a cut, the whole body is there. */
  ghost predicate EndIsAll(s: Send, body: seq<Byte>) {
    && (s.q.complete && !s.q.cancelled ==> s.log.appended == body)
    && ((Ended(s) || s.log.concluded) && !s.log.cut ==> s.log.appended == body)
  }

  /** A response that is over takes no more. */
  lemma OverIsOver(s: State, step: Step, i: nat)
    requires Inv(s) && Enabled(s, step) && i < |s.lanes| && Stores(s, step, i)
    ensures var send := s.lanes[i].send;
            !send.q.complete && !((Ended(send) || send.log.concluded) && !send.log.cut)
  {
    LaneIn(s, i);
    assert TaskOk(s, s.tasks[step.t]);
    hide Inv, Conserved, InOrder, NoLostResume;
  }

  lemma EndStep(s: State, step: Step, i: nat, r: Lane, body: seq<Byte>)
    requires i < |s.lanes| && LaneLaw(s, step, i, r) && FinishesAll(s, step, i, body) && EndIsAll(s.lanes[i].send, body)
    requires var send := s.lanes[i].send;
             Stores(s, step, i) ==> !send.q.complete && !((Ended(send) || send.log.concluded) && !send.log.cut)
    requires Stores(s, step, i) ==> !step.CompleteResponse?
    ensures EndIsAll(r.send, body)
  {
    hide RequestLaw, HandsLaw, Cancels, Portion, Of, By, Asks, Stores;
  }

  lemma StoresAppends(s: State, step: Step, i: nat)
    requires i < |s.lanes| && Stores(s, step, i)
    ensures step.AppendSome?
  {
  }

  /** In any run, if the worker also completes its response only when it is through, the end means the whole body. */
  lemma {:induction false} EndsWhole(limit: nat, trail: seq<Step>, i: nat, body: seq<Byte>)
    requires limit > 0 && Run(Init(limit), trail).Some? && Finishes(limit, trail, i, body)
    ensures var s := Run(Init(limit), trail).value; i < |s.lanes| ==> EndIsAll(s.lanes[i].send, body)
    decreases |trail|
  {
    hide Enabled, Next, Inv, LaneLaw, Finishes, FinishesAll, EndIsAll, Stores;
    if trail != [] {
      var n := |trail| - 1;
      var front, step := trail[..n], trail[n];
      assert trail == front + [step];
      FinishesFront(limit, front, step, i, body);
      EndsWhole(limit, front, i, body);
      var s := Run(Init(limit), front).value;
      RunInv(limit, front);
      SessionLaw(s, step);
      if i < |s.lanes| {
        StepLaw(s, step, i);
        if Stores(s, step, i) {
          OverIsOver(s, step, i);
          StoresAppends(s, step, i);
        }
        EndStep(s, step, i, Next(s, step).lanes[i], body);
      } else if i < |Next(s, step).lanes| {
        NewStream(s, step);
        NewEnd(Next(s, step).lanes[i].send, body);
      }
    }
  }

  lemma NewEnd(s: Send, body: seq<Byte>)
    requires !s.q.complete && !Ended(s) && !s.log.concluded
    ensures EndIsAll(s, body)
  {
  }

  /**
   From the worker's hands to QUIC's: whatever the interleaving, the chunking and the partial writes, on
   a stream no failed write broke off and whose id came once, QUIC took a prefix of the worker's body, in
   order; and the whole body once the stream was concluded, unless the response was cancelled before
   its end was read.
   */
  lemma DeliveredWhole(limit: nat, trail: seq<Step>, log: seq<WireEvent>, s: State, i: nat, body: seq<Byte>)
    requires Led(limit, trail, log, s) && i < |s.lanes| && !FailedFor(log, i) && Retrack(i) !in trail
    requires PassesOn(limit, trail, i, body)
    ensures BodyOf(TakenFor(log, i)) <= body
    ensures Finishes(limit, trail, i, body) && ConcludedFor(log, i) && !s.lanes[i].send.log.cut ==>
              BodyOf(TakenFor(log, i)) == body
  {
    SentInOrder(limit, trail, log, s, i);
    AppendsInOrder(limit, trail, i, body);
    LedIs(limit, trail, log, s);
    assert ToldOf(s.lanes[i].send, log, i);
    hide Reachable, Inv, PassesOn, Finishes, BodyOf, Told;
    if Finishes(limit, trail, i, body) {
      EndsWhole(limit, trail, i, body);
    }
  }
}
