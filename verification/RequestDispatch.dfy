/**
 Handing completed requests to the worker pool (mod_http3/src/h3_request.c), with workers moving
 wherever the source does not hold the session lock.
 */
module RequestDispatch {
  import opened Session
  import opened SessionSafety
  import opened SessionRun
  import opened FlushLoop
  import opened StreamIntake
  import GoAway

  /** How h3_process_request ends. */
  datatype Dispatch = AlreadyTaken | NoPool | NoSlot | Handed

  /** What the event thread does on the way there. */
  function Dispatching(i: nat, out: Dispatch): seq<Step> {
    match out
    case AlreadyTaken => []
    case NoPool => [Reserve(i), PoolFails]
    case NoSlot => [Reserve(i), CountTask, PushFails, UncountTask]
    case Handed => [Reserve(i), CountTask, PushTask]
  }

  /** Workers worked, and stream i changed hands. */
  ghost predicate WorkedBut(a: seq<Lane>, b: seq<Lane>, i: nat) {
    && |a| == |b| && (forall j | 0 <= j < |a| && j != i :: WorkedOn(a[j], b[j]))
    && (i < |a| ==> b[i] == a[i].(send := b[i].send, dispatched := b[i].dispatched, workerDone := b[i].workerDone,
                                  submitCalls := b[i].submitCalls))
  }

  lemma ButRefl(a: seq<Lane>, i: nat)
    ensures WorkedBut(a, a, i)
  {
  }

  lemma ButWorked(a: seq<Lane>, b: seq<Lane>, c: seq<Lane>, i: nat)
    requires WorkedBut(a, b, i) && Worked(b, c)
    ensures WorkedBut(a, c, i)
  {
    forall j | 0 <= j < |a| ensures WorkedOn(b[j], c[j]) && (j != i ==> WorkedOn(a[j], b[j])) {
    }
  }

  lemma ButFlagged(a: seq<Lane>, b: seq<Lane>, i: nat, dispatched: bool)
    requires WorkedBut(a, b, i) && i < |b|
    ensures WorkedBut(a, b[i := b[i].(dispatched := dispatched)], i)
  {
  }

  /** The reservation, taken before anything can fail. */
  method ReserveStream(h: H3Session, i: nat)
    requires h.Mine() && h.Ok() && i < |h.lanes| && h.lanes[i].tracked && !h.lanes[i].dispatched
    modifies h`lanes, h`et, h`trail
    ensures h.Ok() && h.trail == old(h.trail) + [Reserve(i)] && h.et == Reserved(i)
    ensures h.lanes == old(h.lanes)[i := old(h.lanes)[i].(dispatched := true)]
  {
    hide Inv, Run, Told;
    Took(h.limit, h.trail, h.wire, h.View(), Reserve(i));
    h.trail := h.trail + [Reserve(i)];
    h.lanes := h.lanes[i := h.lanes[i].(dispatched := true)];
    h.et := Reserved(i);
  }

  /** set_stream_dispatched(…, 0), when there is no task pool or no queue slot. */
  method Unreserve(h: H3Session, i: nat, ghost counted: bool)
    requires h.Ok() && i < |h.lanes| && h.et == if counted then Counted(i) else Reserved(i)
    modifies h`lanes, h`et, h`trail
    ensures h.Ok() && h.trail == old(h.trail) + [if counted then PushFails else PoolFails]
    ensures h.et == if counted then PushFailed else Idle
    ensures h.lanes == old(h.lanes)[i := old(h.lanes)[i].(dispatched := false)]
  {
    hide Inv, Run, Told;
    ghost var step := if counted then PushFails else PoolFails;
    Took(h.limit, h.trail, h.wire, h.View(), step);
    h.trail := h.trail + [step];
    h.lanes := h.lanes[i := h.lanes[i].(dispatched := false)];
    h.et := if h.et.Counted? then PushFailed else Idle;
  }

  method CountIn(h: H3Session, i: nat)
    requires h.Ok() && i < |h.lanes| && h.et == Reserved(i)
    modifies h`et, h`activeTasks, h`trail
    ensures h.Ok() && h.trail == old(h.trail) + [CountTask] && h.et == Counted(i)
            && h.activeTasks == old(h.activeTasks) + 1
  {
    hide Inv, Run, Told;
    Took(h.limit, h.trail, h.wire, h.View(), CountTask);
    h.trail := h.trail + [CountTask];
    h.activeTasks := h.activeTasks + 1;
    h.et := Counted(i);
  }

  method CountOut(h: H3Session)
    requires h.Ok() && h.et.PushFailed?
    modifies h`et, h`activeTasks, h`trail
    ensures h.Ok() && h.trail == old(h.trail) + [UncountTask] && h.et == Idle && h.activeTasks == old(h.activeTasks) - 1
  {
    hide Inv, Run, Told;
    Took(h.limit, h.trail, h.wire, h.View(), UncountTask);
    h.trail := h.trail + [UncountTask];
    h.activeTasks := h.activeTasks - 1;
    h.et := Idle;
  }

  method Push(h: H3Session, i: nat)
    requires h.Ok() && i < |h.lanes| && h.et == Counted(i)
    modifies h`et, h`tasks, h`trail
    ensures h.Ok() && h.trail == old(h.trail) + [PushTask] && h.et == Idle
            && h.tasks == old(h.tasks) + [Task(i, Queued)]
  {
    hide Inv, Run, Told;
    Took(h.limit, h.trail, h.wire, h.View(), PushTask);
    h.trail := h.trail + [PushTask];
    h.tasks := h.tasks + [Task(i, Queued)];
    h.et := Idle;
  }

  /** Workers, while stream i is changing hands. */
  method LetMove(h: H3Session, i: nat, ghost start: seq<Lane>)
    requires h.Ok() && WorkedBut(start, h.lanes, i)
    modifies h`lanes, h`tasks, h`activeTasks, h`trail
    ensures h.Ok() && |h.lanes| == |old(h.lanes)| && WorkedBut(start, h.lanes, i)
    ensures Handings(h.trail) == Handings(old(h.trail)) && KeepsWhole(h.limit, old(h.trail), h.trail)
  {
    hide H3Session.Ok, Handings, Worked, WorkedBut, ReservedWhole;
    h.Workers();
    ButWorked(start, old(h.lanes), h.lanes, i);
    SameCount(old(h.lanes), h.lanes);
    KeepsSame(h.limit, old(h.trail), h.trail);
  }

  /** The counter and the thread pool, with the workers moving all the while. */
  method QueueTask(h: H3Session, i: nat, slotOk: bool)
    requires h.Ok() && i < |h.lanes| && h.et == Reserved(i)
    modifies h`lanes, h`et, h`tasks, h`activeTasks, h`trail
    ensures h.Ok() && h.et == Idle && WorkedBut(old(h.lanes), h.lanes, i)
    ensures Handings(h.trail) ==
            Handings(old(h.trail)) + if slotOk then [CountTask, PushTask] else [CountTask, PushFails, UncountTask]
    ensures KeepsWhole(h.limit, old(h.trail), h.trail)
  {
    hide H3Session.Ok, Handings, Worked, WorkedBut, ReservedWhole;
    ButRefl(h.lanes, i);
    HandingsSnoc(h.trail, CountTask);
    KeepsSnoc(h.limit, h.trail, CountTask);
    CountIn(h, i);
    LetMove(h, i, old(h.lanes));
    if slotOk {
      HandingsSnoc(h.trail, PushTask);
      KeepsSnoc(h.limit, h.trail, PushTask);
      Push(h, i);
    } else {
      HandingsSnoc(h.trail, PushFails);
      KeepsSnoc(h.limit, h.trail, PushFails);
      ButFlagged(old(h.lanes), h.lanes, i, false);
      Unreserve(h, i, true);
      LetMove(h, i, old(h.lanes));
      HandingsSnoc(h.trail, UncountTask);
      KeepsSnoc(h.limit, h.trail, UncountTask);
      CountOut(h);
    }
    LetMove(h, i, old(h.lanes));
    assert [CountTask] + [PushFails] + [UncountTask] == [CountTask, PushFails, UncountTask];
  }

  lemma SameCount(a: seq<Lane>, b: seq<Lane>)
    requires Worked(a, b)
    ensures |a| == |b|
  {
  }

  /**
   h3_process_request. The stream is reserved before anything can fail; a task for it is counted and
   pushed exactly once when there is memory and a queue slot, and otherwise the reservation and the
   count are taken back. Workers, the new one included, may move at any point in between.
   */
  method ProcessRequest(h: H3Session, i: nat, poolOk: bool, slotOk: bool) returns (out: Dispatch)
    requires h.Mine() && h.Ok() && i < |h.lanes| && h.lanes[i].tracked
    modifies h`lanes, h`et, h`tasks, h`activeTasks, h`trail
    ensures h.Mine() && h.Ok() && WorkedBut(old(h.lanes), h.lanes, i)
    ensures out == if old(h.lanes)[i].dispatched then AlreadyTaken
                   else if !poolOk then NoPool else if slotOk then Handed else NoSlot
    ensures Handings(h.trail) == Handings(old(h.trail)) + Dispatching(i, out)
    ensures WholeRequest(old(h.lanes)[i]) || old(h.lanes)[i].dispatched ==> KeepsWhole(h.limit, old(h.trail), h.trail)
  {
    hide H3Session.Ok, Handings, Worked, WorkedBut, ReservedWhole, WholeRequest;
    ButRefl(h.lanes, i);
    if h.lanes[i].dispatched {
      return AlreadyTaken;
    }
    HandingsSnoc(h.trail, Reserve(i));
    ButFlagged(h.lanes, h.lanes, i, true);
    KeepsReserve(h, i);
    ReserveStream(h, i);
    LetMove(h, i, old(h.lanes));
    if !poolOk {
      HandingsSnoc(h.trail, PoolFails);
      KeepsSnoc(h.limit, h.trail, PoolFails);
      ButFlagged(old(h.lanes), h.lanes, i, false);
      Unreserve(h, i, false);
      return NoPool;
    }
    ghost var lanes0 := h.lanes;
    QueueTask(h, i, slotOk);
    ButTrans(old(h.lanes), lanes0, h.lanes, i);
    out := if slotOk then Handed else NoSlot;
    assert Dispatching(i, out) ==
           [Reserve(i)] + if slotOk then [CountTask, PushTask] else [CountTask, PushFails, UncountTask];
  }

  lemma KeepsReserve(h: H3Session, i: nat)
    requires h.Ok() && i < |h.lanes|
    ensures WholeRequest(h.lanes[i]) ==> KeepsWhole(h.limit, h.trail, h.trail + [Reserve(i)])
  {
    LedRun(h.limit, h.trail, h.wire, h.View());
    hide H3Session.Ok, Led, ReservedWhole, WholeRequest, Run;
    if WholeRequest(h.lanes[i]) && ReservedWhole(h.limit, h.trail) {
      ReservedSnoc(h.limit, h.trail, Reserve(i));
    }
  }

  lemma ButTrans(a: seq<Lane>, b: seq<Lane>, c: seq<Lane>, i: nat)
    requires WorkedBut(a, b, i) && WorkedBut(b, c, i)
    ensures WorkedBut(a, c, i)
  {
    forall j | 0 <= j < |a| && j != i ensures WorkedOn(a[j], c[j]) {
      assert WorkedOn(a[j], b[j]) && WorkedOn(b[j], c[j]);
    }
  }

  /** The dispatches of several streams, one after the other. */
  function Dispatchings(streams: seq<nat>, outs: seq<Dispatch>): seq<Step>
    requires |outs| <= |streams|
  {
    if outs == [] then []
    else
      var k := |outs| - 1;
      Dispatchings(streams, outs[..k]) + Dispatching(streams[k], outs[k])
  }

  lemma DispatchingsNext(streams: seq<nat>, outs: seq<Dispatch>, out: Dispatch)
    requires |outs| < |streams|
    ensures Dispatchings(streams, outs + [out]) == Dispatchings(streams, outs) + Dispatching(streams[|outs|], out)
  {
    assert (outs + [out])[..|outs|] == outs;
  }

  lemma DispatchingsNone(streams: seq<nat>)
    ensures Dispatchings(streams, []) == []
  {
  }

  /** The k-th dispatch ends as memory and the thread pool allow. */
  ghost predicate AsAllowed(outs: seq<Dispatch>, poolOk: nat -> bool, slotOk: nat -> bool) {
    forall k | 0 <= k < |outs| :: outs[k] == if !poolOk(k) then NoPool else if slotOk(k) then Handed else NoSlot
  }

  /** The streams from k on are still to be dispatched. */
  ghost predicate Undispatched(ls: seq<Lane>, streams: seq<nat>, k: nat) {
    forall x | k <= x < |streams| :: streams[x] < |ls| && ls[streams[x]].tracked && !ls[streams[x]].dispatched
  }

  lemma WaitingWorked(a: seq<Lane>, b: seq<Lane>, streams: seq<nat>, k: nat)
    requires Undispatched(a, streams, k) && Worked(a, b)
    ensures Undispatched(b, streams, k)
  {
    forall x | k <= x < |streams| ensures streams[x] < |b| && b[streams[x]].tracked && !b[streams[x]].dispatched {
      assert WorkedOn(a[streams[x]], b[streams[x]]);
    }
  }

  lemma WaitingBut(a: seq<Lane>, b: seq<Lane>, streams: seq<nat>, k: nat)
    requires Undispatched(a, streams, k) && k < |streams| && WorkedBut(a, b, streams[k])
    requires forall x, y | 0 <= x < y < |streams| :: streams[x] != streams[y]
    ensures Undispatched(b, streams, k + 1)
  {
    forall x | k + 1 <= x < |streams| ensures streams[x] < |b| && b[streams[x]].tracked && !b[streams[x]].dispatched {
      assert WorkedOn(a[streams[x]], b[streams[x]]);
    }
  }

  /** The streams from k on are whole requests. */
  ghost predicate AllWhole(ls: seq<Lane>, streams: seq<nat>, k: nat) {
    forall x | k <= x < |streams| :: streams[x] < |ls| && WholeRequest(ls[streams[x]])
  }

  lemma WholeWorked(a: seq<Lane>, b: seq<Lane>, streams: seq<nat>, k: nat)
    requires AllWhole(a, streams, k) && Worked(a, b)
    ensures AllWhole(b, streams, k)
  {
    forall x | k <= x < |streams| ensures streams[x] < |b| && WholeRequest(b[streams[x]]) {
      assert WorkedOn(a[streams[x]], b[streams[x]]);
    }
  }

  lemma WholeNext(ls: seq<Lane>, streams: seq<nat>, k: nat)
    requires AllWhole(ls, streams, k) && k < |streams|
    ensures streams[k] < |ls| && WholeRequest(ls[streams[k]])
  {
  }

  lemma WholeBut(a: seq<Lane>, b: seq<Lane>, streams: seq<nat>, k: nat)
    requires AllWhole(a, streams, k) && k < |streams| && WorkedBut(a, b, streams[k])
    requires forall x, y | 0 <= x < y < |streams| :: streams[x] != streams[y]
    ensures AllWhole(b, streams, k + 1)
  {
    forall x | k + 1 <= x < |streams| ensures streams[x] < |b| && WholeRequest(b[streams[x]]) {
      assert WorkedOn(a[streams[x]], b[streams[x]]);
    }
  }

  /** Every completed request is dispatched, once: no worker can have taken it before. */
  method DispatchAll(h: H3Session, completed: seq<nat>, poolOk: nat -> bool, slotOk: nat -> bool)
    returns (outs: seq<Dispatch>)
    requires h.Mine() && h.Ok() && Undispatched(h.lanes, completed, 0)
    requires forall x, y | 0 <= x < y < |completed| :: completed[x] != completed[y]
    modifies h`lanes, h`et, h`tasks, h`activeTasks, h`trail, h`log
    ensures h.Mine() && h.Ok()
    ensures |outs| == |completed| && AsAllowed(outs, poolOk, slotOk)
    ensures Handings(h.trail) == Handings(old(h.trail)) + Dispatchings(completed, outs)
    ensures h.log == old(h.log) + GoAway.Times(GoAway.Dispatch, |completed|)
    ensures AllWhole(old(h.lanes), completed, 0) ==> KeepsWhole(h.limit, old(h.trail), h.trail)
  {
    hide H3Session.Ok, Handings, Worked, WorkedBut, Dispatchings, ReservedWhole, AllWhole, WholeRequest;
    ghost var whole := AllWhole(h.lanes, completed, 0);
    DispatchingsNone(completed);
    outs := [];
    var k := 0;
    while k < |completed|
      invariant 0 <= k <= |completed| && h.Mine() && h.Ok() && Undispatched(h.lanes, completed, k)
      invariant |outs| == k && AsAllowed(outs, poolOk, slotOk)
      invariant Handings(h.trail) == Handings(old(h.trail)) + Dispatchings(completed, outs)
      invariant h.log == old(h.log) + GoAway.Times(GoAway.Dispatch, k)
      invariant whole ==> AllWhole(h.lanes, completed, k) && KeepsWhole(h.limit, old(h.trail), h.trail)
    {
      ghost var lanes0, trail0 := h.lanes, h.trail;
      h.Workers();
      WaitingWorked(lanes0, h.lanes, completed, k);
      KeepsSame(h.limit, trail0, h.trail);
      if whole {
        WholeWorked(lanes0, h.lanes, completed, k);
        WholeNext(h.lanes, completed, k);
      }
      lanes0 := h.lanes;
      var out := ProcessRequest(h, completed[k], poolOk(k), slotOk(k));
      WaitingBut(lanes0, h.lanes, completed, k);
      if whole {
        WholeBut(lanes0, h.lanes, completed, k);
      }
      DispatchingsNext(completed, outs, out);
      outs := outs + [out];
      OneMore(h.log, old(h.log), GoAway.Dispatch, k);
      h.log := h.log + [GoAway.Dispatch];
      k := k + 1;
    }
  }
}
