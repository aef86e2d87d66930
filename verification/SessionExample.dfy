/**
 The life of one request in the transition system, start to end: what `SessionSafety` says of
 every run is not said of none.
 */
module SessionExample {
  import opened Options
  import opened ResponseQueue
  import opened SendPath
  import opened Session
  import opened SessionSafety

  const LIMIT := 4096

  /** A session with one stream. */
  function One(l: Lane, tasks: seq<Task>): State {
    State([l], 0, [], [], [], 1, false, false, Idle, tasks, |tasks|, false, LIMIT)
  }

  ghost predicate Reached(steps: seq<Step>, s: State) { Run(Init(LIMIT), steps) == Some(s) }

  lemma ReachedIs(steps: seq<Step>, s: State)
    requires Reached(steps, s)
    ensures Reachable(s)
  {
    hide Run;
  }

  lemma Onward(steps: seq<Step>, s: State, step: Step)
    requires Reached(steps, s) && Enabled(s, step)
    ensures Reached(steps + [step], Next(s, step))
  {
    assert (steps + [step])[..|steps|] == steps;
  }

  const ASKED := NewLane(0, 0, LIMIT, 0).(headersComplete := true, bodyComplete := true)

  const OPENED := NewLane(0, 0, LIMIT, 0)

  lemma Opened()
    ensures Enabled(Init(LIMIT), Track(0, 0, true)) && Next(Init(LIMIT), Track(0, 0, true)) == One(OPENED, [])
  {
    hide NewLane;
    assert [] + [OPENED] == [OPENED];
  }

  lemma Arrived()
    ensures Enabled(One(OPENED, []), HeadersDone(0, true))
    ensures Next(One(OPENED, []), HeadersDone(0, true)) == One(ASKED, [])
  {
  }

  /** QUIC opens a stream and a whole request arrives on it. */
  lemma Asked() returns (steps: seq<Step>)
    ensures Reached(steps, One(ASKED, []))
  {
    assert Reached([], Init(LIMIT));
    Opened();
    Arrived();
    hide Reached, Enabled, Next, One, NewLane;
    Onward([], Init(LIMIT), Track(0, 0, true));
    steps := [] + [Track(0, 0, true)];
    Onward(steps, One(OPENED, []), HeadersDone(0, true));
    steps := steps + [HeadersDone(0, true)];
  }

  /** The event thread hands the request over. */
  lemma Dispatched() returns (steps: seq<Step>)
    ensures Reached(steps, One(ASKED.(dispatched := true), [Task(0, Queued)]))
  {
    hide Reached;
    steps := Asked();
    var s := One(ASKED, []);
    Onward(steps, s, Reserve(0));
    steps, s := steps + [Reserve(0)], Next(s, Reserve(0));
    Onward(steps, s, CountTask);
    steps, s := steps + [CountTask], Next(s, CountTask);
    Onward(steps, s, PushTask);
    steps, s := steps + [PushTask], Next(s, PushTask);
    assert s.lanes == [ASKED.(dispatched := true)] && s.tasks == [Task(0, Queued)];
  }

  lemma Responds() returns (steps: seq<Step>)
    ensures Reached(steps, One(ASKED.(dispatched := true), [Task(0, Responding)]))
  {
    hide Reached;
    steps := Dispatched();
    var s := One(ASKED.(dispatched := true), [Task(0, Queued)]);
    Onward(steps, s, Start(0));
    steps, s := steps + [Start(0)], Next(s, Start(0));
    Onward(steps, s, SetupDone(0));
    steps, s := steps + [SetupDone(0)], Next(s, SetupDone(0));
    assert s.tasks == [Task(0, Responding)];
  }

  // The response on its way: submitted, appended, complete, pulled, sent.
  function Submitted(): Send { SubmitCall(NewSend(LIMIT, 0), true, 1) }
  function Appended(data: seq<Byte>): Send { AppendCall(Submitted(), data, true) }
  function Finished(data: seq<Byte>): Send { Complete(Appended(data), false) }

  lemma FinishedIs(data: seq<Byte>)
    requires 0 < |data| <= LIMIT
    ensures Finished(data) ==
            Send(Queue([Chunk(data, 0)], 0, |data|, |data|, LIMIT, true, true, false),
                 Some(Ng([Frame], true, false, false, false, false)),
                 Log(data, 0, [], false, false, false, false, false))
    ensures Appended(data) == Finished(data).(q := Finished(data).q.(complete := false))
  {
    assert [] + Framed(1) == [Frame];
    assert data[..|data|] == data && [] + data == data && [] + [Chunk(data, 0)] == [Chunk(data, 0)];
  }

  /** What QUIC has got in the end. */
  function Bytes(data: seq<Byte>): seq<Wire> { [Frame] + (Framed(1) + AsBody(data)) }

  function Pulled16(data: seq<Byte>): Send {
    Send(Queue([Chunk(data, 0)], 1, |data|, |data|, LIMIT, true, true, false),
         Some(Ng(Bytes(data), true, false, false, true, false)), Log(data, 0, [], false, false, false, false, false))
  }

  lemma PulledIs(data: seq<Byte>)
    requires 0 < |data| <= LIMIT
    ensures Pullable(Finished(data)) && 0 <= Finished(data).q.submit <= |Finished(data).q.chunks|
    ensures Pull(Finished(data), 16, 1) == Pulled16(data)
  {
    FinishedIs(data);
    hide Finished;
    var q := Finished(data).q;
    assert q.chunks[0..1] == [Chunk(data, 0)];
    assert Datas([Chunk(data, 0)]) == [data];
    assert Flatten([data]) == data;
  }

  function Sent(data: seq<Byte>): Send { Take(Pulled16(data), |Bytes(data)|) }

  lemma SentIs(data: seq<Byte>)
    ensures Sent(data).log.concluded && Sent(data).log.wire == Bytes(data) && BodyOf(Bytes(data)) == data
    ensures !Sent(data).q.cancelled && Sent(data).ng.Some?
  {
    var g := Pulled16(data).ng.value;
    assert g.outq[..|Bytes(data)|] == Bytes(data);
    BodyOfConcat([Frame], Framed(1) + AsBody(data));
    BodyOfConcat(Framed(1), AsBody(data));
    BodyOfFrames([Frame]);
    BodyOfFrames(Framed(1));
    BodyOfBody(AsBody(data), data);
  }

  function Answering(send: Send): Lane { ASKED.(dispatched := true, submitCalls := 1, send := send) }

  lemma Appends(data: seq<Byte>) returns (steps: seq<Step>)
    requires 0 < |data| <= LIMIT
    ensures Reached(steps, One(Answering(Appended(data)), [Task(0, Responding)]))
  {
    hide Reached;
    steps := Responds();
    var s := One(ASKED.(dispatched := true), [Task(0, Responding)]);
    Onward(steps, s, Submit(0, true, 1));
    steps, s := steps + [Submit(0, true, 1)], Next(s, Submit(0, true, 1));
    assert s.lanes == [Answering(Submitted())];
    Onward(steps, s, AppendSome(0, data, true));
    steps, s := steps + [AppendSome(0, data, true)], Next(s, AppendSome(0, data, true));
    assert s.lanes == [Answering(Appended(data))];
  }

  lemma Finishes(data: seq<Byte>) returns (steps: seq<Step>)
    requires 0 < |data| <= LIMIT
    ensures Reached(steps, One(Answering(Finished(data)), [Task(0, Completed)]))
  {
    hide Reached, Appended;
    steps := Appends(data);
    var s := One(Answering(Appended(data)), [Task(0, Responding)]);
    Onward(steps, s, CompleteResponse(0));
    steps, s := steps + [CompleteResponse(0)], Next(s, CompleteResponse(0));
    assert s.lanes == [Answering(Finished(data))] && s.tasks == [Task(0, Completed)];
  }

  /** nghttp3 pulls the response and QUIC takes all of it. */
  lemma Delivers(data: seq<Byte>) returns (steps: seq<Step>)
    requires 0 < |data| <= LIMIT
    ensures Reached(steps, One(Answering(Sent(data)), [Task(0, Completed)]))
  {
    hide Reached, Finished, Take;
    steps := Finishes(data);
    var s := One(Answering(Finished(data)), [Task(0, Completed)]);
    PulledIs(data);
    Onward(steps, s, PullFrom(0, 16, 1));
    steps, s := steps + [PullFrom(0, 16, 1)], Next(s, PullFrom(0, 16, 1));
    assert s.lanes == [Answering(Pulled16(data))];
    hide Pull;
    var n := |Bytes(data)|;
    Onward(steps, s, WriteTurn(0, n, n, Taken));
    steps, s := steps + [WriteTurn(0, n, n, Taken)], Next(s, WriteTurn(0, n, n, Taken));
    assert s.lanes == [Answering(Sent(data))];
  }

  /**
   For every response of one chunk there is a run that takes in the request, dispatches it, hands
   exactly those bytes to QUIC and concludes the stream.
   */
  lemma ServedWhole(data: seq<Byte>) returns (s: State)
    requires 0 < |data| <= LIMIT
    ensures Reachable(s) && |s.lanes| == 1
    ensures var send := s.lanes[0].send; send.log.concluded && !send.q.cancelled && BodyOf(send.log.wire) == data
  {
    hide Reached, Reachable;
    var steps := Delivers(data);
    s := One(Answering(Sent(data)), [Task(0, Completed)]);
    SentIs(data);
    ReachedIs(steps, s);
  }

  lemma Leaves(data: seq<Byte>) returns (steps: seq<Step>)
    requires 0 < |data| <= LIMIT
    ensures Reached(steps, One(Answering(Sent(data)).(workerDone := true), []))
  {
    hide Reached, Sent;
    steps := Delivers(data);
    var s := One(Answering(Sent(data)), [Task(0, Completed)]);
    Onward(steps, s, WorkerDone(0));
    steps, s := steps + [WorkerDone(0)], Next(s, WorkerDone(0));
    Onward(steps, s, Leave(0));
    steps, s := steps + [Leave(0)], Next(s, Leave(0));
    assert s.lanes == [Answering(Sent(data)).(workerDone := true)] && s.tasks == [];
  }

  /** And after its worker has left and nghttp3 has closed it, such a stream can be reclaimed. */
  lemma ReclaimedAfterwards(data: seq<Byte>) returns (s: State)
    requires 0 < |data| <= LIMIT
    ensures Reachable(s) && Enabled(s, ReclaimOne(0)) && s.tasks == [] && s.lanes[0].send.log.concluded
  {
    hide Reached, Reachable, Enabled, Next, Sent, CloseSend;
    var steps := Leaves(data);
    var l := Answering(Sent(data)).(workerDone := true);
    SentIs(data);
    CloseKeepsLog(Sent(data));
    CloseShape(l);
    Onward(steps, One(l, []), CloseStream(0));
    s := Next(One(l, []), CloseStream(0));
    MayReclaim(s);
    ReachedIs(steps + [CloseStream(0)], s);
  }

  lemma CloseShape(l: Lane)
    requires l.tracked && l.send.ng.Some? && l.qstream.Some?
    ensures Enabled(One(l, []), CloseStream(0))
    ensures Next(One(l, []), CloseStream(0)) ==
            One(l.(send := CloseSend(l.send), done := true, qstream := None), []).(pendingFree := [l.qstream.value])
  {
    hide CloseSend;
    assert [l][0 := l.(send := CloseSend(l.send), done := true, qstream := None)] ==
           [l.(send := CloseSend(l.send), done := true, qstream := None)];
  }

  lemma MayReclaim(s: State)
    requires |s.lanes| == 1 && s.lanes[0].tracked && Reclaimable(s.lanes[0]) && !s.destroyed && s.et.Idle?
    ensures Enabled(s, ReclaimOne(0))
  {
  }

  lemma CloseKeepsLog(s: Send)
    ensures CloseSend(s).log == s.log
  {
  }
}
