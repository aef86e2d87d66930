/**
 One HTTP/3 session as a transition system: the event thread and the request workers,
 interleaved step by step. A section that holds the session lock is one step, an atomic
 counter operation is one step, and what nghttp3, QUIC and the allocator decide comes in
 as arguments of the step.
 */
module Session {
  import opened Options
  import opened ResponseQueue
  import opened SendPath

  type Handle = nat

  /** An h3_stream. A reclaimed stream stays as a lane that is no longer tracked. */
  datatype Lane = Lane(
    sid: nat,
    send: Send,
    qstream: Option<Handle>,
    tracked: bool,          // in session->streams
    poolLive: bool,
    done: bool,
    writeBlocked: bool,
    headersComplete: bool,
    bodyComplete: bool,
    dispatched: bool,
    workerDone: bool,
    submitCalls: nat)       // calls of nghttp3_conn_submit_response

  // Low two bits of a stream id (section 2.1 of RFC 9000).
  predicate IsBidi(sid: nat) { sid / 2 % 2 == 0 }
  predicate IsServer(sid: nat) { sid % 2 == 1 }

  predicate HasStream(l: Lane) { l.tracked && l.qstream.Some? }

  predicate Ready(l: Lane) {
    IsBidi(l.sid) && l.headersComplete && l.bodyComplete && !l.dispatched
  }

  predicate Reclaimable(l: Lane) {
    IsBidi(l.sid) && !IsServer(l.sid) && l.done && l.qstream.None? && l.dispatched && l.workerDone
  }

  /** Where the event thread is inside h3_process_request. */
  datatype EventPc = Idle | Reserved(i: nat) | Counted(i: nat) | PushFailed

  /** Where a worker is inside stream_worker; Leaving has only the counter left to drop. */
  datatype TaskPc = Queued | Setup | Responding | Completed | Leaving

  datatype Task = Task(lane: nat, pc: TaskPc)

  datatype State = State(
    lanes: seq<Lane>,
    blockedStreams: int,
    pendingFree: seq<Handle>,
    freed: seq<Handle>,
    lost: seq<Handle>,      // handles replaced by a stream that came again under the same id
    issued: nat,            // QUIC handles handed out so far
    ngDead: bool,
    aborted: bool,
    et: EventPc,
    tasks: seq<Task>,
    activeTasks: int,
    destroyed: bool,
    limit: nat)

  function Init(limit: nat): State {
    State([], 0, [], [], [], 0, false, false, Idle, [], 0, false, limit)
  }

  datatype Step =
    // event thread
    | Track(sid: nat, frames: nat, poolOk: bool)
    | Retrack(i: nat)
    | PullFrom(i: nat, veccnt: nat, frames: nat)
    | WriteTurn(i: nat, m: nat, accepted: nat, out: WriteOutcome)
    | OwnFrames(i: nat, n: nat)
    | MarkDead
    | UnblockOne(i: nat)
    | FreeOne
    | HeadersDone(i: nat, fin: bool)
    | BodyDone(i: nat)
    | MarkDone(i: nat)
    | StopSending(i: nat)
    | ResetStream(i: nat)
    | CloseStream(i: nat)
    | ReclaimOne(i: nat)
    | Abort
    | Destroy
    // event thread inside h3_process_request
    | Reserve(i: nat)
    | PoolFails
    | CountTask
    | PushTask
    | PushFails
    | UncountTask
    // worker number t
    | Start(t: nat)
    | SetupFails(t: nat)
    | SetupDone(t: nat)
    | Submit(t: nat, ok: bool, frames: nat)
    | AppendSome(t: nat, rest: seq<Byte>, mallocOk: bool)
    | CompleteResponse(t: nat)
    | WorkerDone(t: nat)
    | Leave(t: nat)

  predicate WorkerStep(step: Step) {
    step.Start? || step.SetupFails? || step.SetupDone? || step.Submit? || step.AppendSome?
    || step.CompleteResponse? || step.WorkerDone? || step.Leave?
  }

  predicate DispatchStep(step: Step) {
    step.PoolFails? || step.CountTask? || step.PushTask? || step.PushFails? || step.UncountTask?
  }

  // ---------------------------------------------------------------------------
  // When a step can happen
  // ---------------------------------------------------------------------------

  /** Neither thread checks that memory is still there: that a worker's step finds it alive is proved. */
  ghost predicate Enabled(s: State, step: Step) {
    if WorkerStep(step) then step.t < |s.tasks| && WorkerEnabled(s, step)
    else if DispatchStep(step) then DispatchEnabled(s, step)
    else !s.destroyed && s.et.Idle? && EventEnabled(s, step)
  }

  predicate WorkerEnabled(s: State, step: Step)
    requires WorkerStep(step) && step.t < |s.tasks|
  {
    var pc := s.tasks[step.t].pc;
    s.tasks[step.t].lane < |s.lanes| &&
    match step
    case Start(_) => pc == Queued
    case SetupFails(_) => pc == Setup
    case SetupDone(_) => pc == Setup
    case Submit(_, _, _) => pc == Responding
    case AppendSome(_, rest, _) =>
      // the timed wait is over: there is room, or the response is lost
      var q := s.lanes[s.tasks[step.t].lane].send.q;
      pc == Responding && rest != [] && (!Full(q) || q.cancelled || Down(s))
    case CompleteResponse(_) => pc == Responding || pc == Completed
    case WorkerDone(_) => pc == Completed
    case Leave(_) => pc == Leaving
  }

  ghost predicate DispatchEnabled(s: State, step: Step)
    requires DispatchStep(step)
  {
    match step
    case PoolFails => s.et.Reserved? && s.et.i < |s.lanes|
    case CountTask => s.et.Reserved? && s.et.i < |s.lanes|
    case PushTask => s.et.Counted? && s.et.i < |s.lanes|
    case PushFails => s.et.Counted? && s.et.i < |s.lanes|
    case UncountTask => s.et.PushFailed?
  }

  /** nghttp3 calls back only about streams the module still feeds. */
  ghost predicate EventEnabled(s: State, step: Step)
    requires !WorkerStep(step) && !DispatchStep(step)
  {
    match step
    case Track(sid, _, poolOk) => poolOk ==> Untracked(s.lanes, sid)
    case Retrack(i) => i < |s.lanes| && s.lanes[i].tracked
    case PullFrom(i, veccnt, _) =>
      !s.ngDead && i < |s.lanes| && veccnt > 0 && Pullable(s.lanes[i].send)
      && 0 <= s.lanes[i].send.q.submit <= |s.lanes[i].send.q.chunks|
    case WriteTurn(i, m, accepted, out) =>
      && !s.ngDead && i < |s.lanes| && Offerable(s.lanes[i].send)
      && m <= |s.lanes[i].send.ng.value.outq| && (m > 0 || s.lanes[i].send.ng.value.outq == [])
      && Possible(m, accepted, out)
    case OwnFrames(i, _) => i < |s.lanes| && s.lanes[i].tracked
    case MarkDead => true
    case UnblockOne(i) => i < |s.lanes| && s.lanes[i].tracked && s.lanes[i].writeBlocked
    case FreeOne => s.pendingFree != []
    case HeadersDone(i, _) => i < |s.lanes| && s.lanes[i].tracked
    case BodyDone(i) => i < |s.lanes| && s.lanes[i].tracked
    case MarkDone(i) => i < |s.lanes| && s.lanes[i].tracked
    case StopSending(i) => i < |s.lanes| && s.lanes[i].tracked && s.lanes[i].send.ng.Some?
    case ResetStream(i) => i < |s.lanes| && s.lanes[i].tracked && s.lanes[i].send.ng.Some?
    case CloseStream(i) => i < |s.lanes| && s.lanes[i].tracked && s.lanes[i].send.ng.Some?
    case ReclaimOne(i) => i < |s.lanes| && s.lanes[i].tracked && Reclaimable(s.lanes[i])
    case Abort => true
    // the event loop also waits for the abort; a session that could not be set up goes without one
    case Destroy => s.activeTasks == 0
    case Reserve(i) => i < |s.lanes| && s.lanes[i].tracked && !s.lanes[i].dispatched
  }

  /** The table has no entry for this stream id. */
  predicate Untracked(ls: seq<Lane>, sid: int) {
    forall j | 0 <= j < |ls| && ls[j].tracked :: ls[j].sid != sid
  }

  /** What the producer's guards test: the session is aborted, or nghttp3 is dead or gone. */
  predicate Down(s: State) { s.aborted || s.ngDead || s.destroyed }

  // ---------------------------------------------------------------------------
  // What a step does
  // ---------------------------------------------------------------------------

  ghost function Next(s: State, step: Step): State
    requires Enabled(s, step)
  {
    if WorkerStep(step) then WorkerNext(s, step)
    else if DispatchStep(step) then DispatchNext(s, step)
    else EventNext(s, step)
  }

  function SetLane(s: State, i: nat, l: Lane): State
    requires i < |s.lanes|
  {
    s.(lanes := s.lanes[i := l])
  }

  function SetPc(s: State, t: nat, pc: TaskPc): State
    requires t < |s.tasks|
  {
    s.(tasks := s.tasks[t := s.tasks[t].(pc := pc)])
  }

  function WorkerNext(s: State, step: Step): State
    requires WorkerStep(step) && step.t < |s.tasks| && WorkerEnabled(s, step)
  {
    var t := step.t;
    var i := s.tasks[t].lane;
    var l := s.lanes[i];
    match step
    case Start(_) => SetPc(s, t, Setup)
    case SetupFails(_) => SetPc(SetLane(s, i, l.(dispatched := false)), t, Leaving)
    case SetupDone(_) => SetPc(s, t, Responding)
    case Submit(_, ok, frames) =>
      if l.send.q.submitted || l.send.q.cancelled || Down(s) then s
      else SetLane(s, i, l.(send := SubmitCall(l.send, ok, frames), submitCalls := l.submitCalls + 1))
    case AppendSome(_, rest, mallocOk) =>
      if l.send.q.cancelled || Down(s) then s
      else SetLane(s, i, l.(send := AppendCall(l.send, rest, mallocOk)))
    case CompleteResponse(_) =>
      SetPc(SetLane(s, i, l.(send := Complete(l.send, s.ngDead || s.destroyed))), t, Completed)
    case WorkerDone(_) => SetPc(SetLane(s, i, l.(workerDone := true)), t, Leaving)
    case Leave(_) => s.(tasks := s.tasks[..t] + s.tasks[t + 1..], activeTasks := s.activeTasks - 1)
  }

  ghost function DispatchNext(s: State, step: Step): State
    requires DispatchStep(step) && DispatchEnabled(s, step)
  {
    match step
    case PoolFails => SetLane(s, s.et.i, s.lanes[s.et.i].(dispatched := false)).(et := Idle)
    case CountTask => s.(et := Counted(s.et.i), activeTasks := s.activeTasks + 1)
    case PushTask => s.(et := Idle, tasks := s.tasks + [Task(s.et.i, Queued)])
    case PushFails => SetLane(s, s.et.i, s.lanes[s.et.i].(dispatched := false)).(et := PushFailed)
    case UncountTask => s.(et := Idle, activeTasks := s.activeTasks - 1)
  }

  ghost function EventNext(s: State, step: Step): State
    requires !WorkerStep(step) && !DispatchStep(step) && EventEnabled(s, step)
  {
    match step
    case Track(sid, frames, poolOk) => TrackNext(s, sid, frames, poolOk)
    case Retrack(i) => RetrackNext(s, i)
    case PullFrom(i, veccnt, frames) => SetSend(s, i, Pull(s.lanes[i].send, veccnt, frames))
    case WriteTurn(i, m, accepted, out) => TurnNext(s, i, m, accepted, out)
    case OwnFrames(i, n) => SetSend(s, i, OwnBytes(s.lanes[i].send, n))
    case MarkDead => s.(ngDead := true)
    case UnblockOne(i) =>
      SetLane(s, i, s.lanes[i].(writeBlocked := false, send := Unflow(s.lanes[i].send)))
      .(blockedStreams := s.blockedStreams - 1)
    case FreeOne =>
      var n := |s.pendingFree| - 1;
      s.(pendingFree := s.pendingFree[..n], freed := s.freed + [s.pendingFree[n]])
    case HeadersDone(i, fin) =>
      var l := s.lanes[i];
      if IsBidi(l.sid)
      then SetLane(s, i, l.(headersComplete := true, bodyComplete := l.bodyComplete || fin)) else s
    case BodyDone(i) => SetLane(s, i, s.lanes[i].(bodyComplete := true))
    case MarkDone(i) => SetLane(s, i, s.lanes[i].(done := true))
    case StopSending(i) =>
      QueueHandle(s, i, s.lanes[i].(send := CancelSend(s.lanes[i].send), done := true, bodyComplete := true))
    case ResetStream(i) => SetLane(s, i, s.lanes[i].(send := CancelSend(s.lanes[i].send), done := true))
    case CloseStream(i) => QueueHandle(s, i, s.lanes[i].(send := CloseSend(s.lanes[i].send), done := true))
    case ReclaimOne(i) => ReclaimNext(s, i)
    case Abort => s.(aborted := true)
    case Destroy => DestroyNext(s)
    case Reserve(i) => SetLane(s, i, s.lanes[i].(dispatched := true)).(et := Reserved(i))
  }

  function SetSend(s: State, i: nat, send: Send): State
    requires i < |s.lanes|
  {
    SetLane(s, i, s.lanes[i].(send := send))
  }

  function NewLane(sid: nat, handle: Handle, limit: nat, frames: nat): Lane {
    Lane(sid, NewSend(limit, frames), Some(handle), true, true, false, false, false, false, false, false, 0)
  }

  /** track_stream on a new stream id; a stream that cannot be tracked has its handle freed at once. */
  function TrackNext(s: State, sid: nat, frames: nat, poolOk: bool): State {
    if poolOk
    then s.(lanes := s.lanes + [NewLane(sid, s.issued, s.limit, frames)], issued := s.issued + 1)
    else s.(freed := s.freed + [s.issued], issued := s.issued + 1)
  }

  /**
   track_stream on an id already in the table: the entry gets the new handle, and the one it had is
   in no place any more.
   */
  function RetrackNext(s: State, i: nat): State
    requires i < |s.lanes|
  {
    var l := s.lanes[i];
    SetLane(s, i, l.(qstream := Some(s.issued)))
    .(issued := s.issued + 1, lost := if l.qstream.Some? then s.lost + [l.qstream.value] else s.lost)
  }

  /** What one turn of the loop in flush_nghttp3 does to the stream it is about. */
  function TurnSend(l: Lane, m: nat, accepted: nat, out: WriteOutcome): Send
    requires l.send.ng.Some? && accepted <= m <= |l.send.ng.value.outq|
  {
    if !HasStream(l) then Swallow(l.send, m)
    else match out
      case BrokenAfter => Break(l.send, m, accepted)
      case Taken => Take(l.send, m)
      case BlockedAfter => Block(l.send, accepted, l.writeBlocked)
  }

  /** A write that blocks flags the stream. */
  predicate Flags(l: Lane, out: WriteOutcome) { HasStream(l) && out.BlockedAfter? }

  function TurnLane(l: Lane, m: nat, accepted: nat, out: WriteOutcome): Lane
    requires l.send.ng.Some? && accepted <= m <= |l.send.ng.value.outq|
  {
    l.(send := TurnSend(l, m, accepted, out), writeBlocked := l.writeBlocked || Flags(l, out))
  }

  /** The count goes up only for a stream that was not flagged yet. */
  function TurnNext(s: State, i: nat, m: nat, accepted: nat, out: WriteOutcome): State
    requires i < |s.lanes| && s.lanes[i].send.ng.Some?
    requires accepted <= m <= |s.lanes[i].send.ng.value.outq|
  {
    var l := s.lanes[i];
    SetLane(s, i, TurnLane(l, m, accepted, out))
    .(blockedStreams := if Flags(l, out) && !l.writeBlocked then s.blockedStreams + 1 else s.blockedStreams)
  }

  /** h3_session_queue_free, and the stream lets go of its handle. */
  function QueueHandle(s: State, i: nat, l: Lane): State
    requires i < |s.lanes|
  {
    var r := SetLane(s, i, l.(qstream := None));
    if l.qstream.Some? then r.(pendingFree := s.pendingFree + [l.qstream.value]) else r
  }

  /** The reclaim branch of drain_ready_streams. */
  function ReclaimNext(s: State, i: nat): State
    requires i < |s.lanes|
  {
    var l := s.lanes[i];
    SetLane(s, i, l.(writeBlocked := false, tracked := false, send := CleanSend(l.send), poolLive := false))
    .(blockedStreams := if l.writeBlocked then s.blockedStreams - 1 else s.blockedStreams)
  }

  /** What h3_session_destroy leaves of a stream: nghttp3 is gone, tracked streams are cancelled and cleaned. */
  function DestroyLane(l: Lane): Lane {
    if l.tracked then l.(send := CleanSend(CloseSend(l.send)), poolLive := false)
    else l.(send := l.send.(ng := None))
  }

  function DestroyAll(ls: seq<Lane>): (r: seq<Lane>)
    ensures |r| == |ls| && forall i | 0 <= i < |ls| :: r[i] == DestroyLane(ls[i])
  {
    if ls == [] then [] else [DestroyLane(ls[0])] + DestroyAll(ls[1..])
  }

  function Reverse<T>(xs: seq<T>): seq<T> {
    if xs == [] then [] else [xs[|xs| - 1]] + Reverse(xs[..|xs| - 1])
  }

  function DestroyNext(s: State): State {
    s.(lanes := DestroyAll(s.lanes), pendingFree := [], freed := s.freed + Reverse(s.pendingFree), destroyed := true)
  }

  // ---------------------------------------------------------------------------
  // Runs
  // ---------------------------------------------------------------------------

  /** The state after a run of steps, if each was possible when its turn came. */
  ghost function Run(s: State, steps: seq<Step>): Option<State> {
    if steps == [] then Some(s)
    else
      var before := Run(s, steps[..|steps| - 1]);
      var step := steps[|steps| - 1];
      if before.Some? && Enabled(before.value, step) then Some(Next(before.value, step)) else None
  }
}
