/**
 The receive side of a pass: nghttp3's callbacks (mod_http3/src/h3_callbacks.c) and
 drain_ready_streams (mod_http3/src/h3_stream.c), as runs of the transition system in `Session`.
 The session lock is held throughout. What QUIC has to read and which callbacks nghttp3 makes while
 it is fed are free choices; both are logged where they are made.
 */
module DrainPass {
  import opened Options
  import opened ResponseQueue
  import opened SendPath
  import opened Session
  import opened SessionSafety
  import opened SessionRun
  import opened StreamIo
  import opened FlushLoop
  import opened DrainScheduler
  import opened DrainRecord

  ghost predicate Grew(a: seq<Lane>, b: seq<Lane>) {
    |a| == |b| && forall i | 0 <= i < |a| :: LaneGrew(a[i], b[i])
  }

  lemma GrewSelf(a: seq<Lane>)
    ensures Grew(a, a)
  {
  }

  lemma GrewAt(a: seq<Lane>, i: nat, l: Lane)
    requires i < |a| && LaneGrew(a[i], l)
    ensures Grew(a, a[i := l])
  {
  }

  lemma GrewOn(a: seq<Lane>, b: seq<Lane>, c: seq<Lane>)
    requires Grew(a, b) && Grew(b, c)
    ensures Grew(a, c)
  {
    forall i | 0 <= i < |a| ensures LaneGrew(a[i], c[i]) {
      assert LaneGrew(a[i], b[i]) && LaneGrew(b[i], c[i]);
    }
  }

  lemma GrewIn(a: seq<Lane>, b: seq<Lane>, k: nat)
    requires Grew(a, b) && k < |a|
    ensures k < |b| && LaneGrew(a[k], b[k])
  {
  }

  // ---------------------------------------------------------------------------
  // Callbacks; nghttp3 may have no stream of ours to pass
  // ---------------------------------------------------------------------------

  method OnEndHeaders(h: H3Session, stream: Option<nat>, fin: bool)
    requires h.Mine() && h.Ok() && (stream.Some? ==> stream.value < |h.lanes| && h.lanes[stream.value].tracked)
    modifies h`lanes, h`trail
    ensures h.Ok() && h.trail == old(h.trail) + if stream.Some? then [HeadersDone(stream.value, fin)] else []
    ensures Grew(old(h.lanes), h.lanes) && (stream.None? ==> h.lanes == old(h.lanes))
  {
    hide Inv, Run, Told;
    if stream.None? {
      return;
    }
    var i := stream.value;
    Took(h.limit, h.trail, h.wire, h.View(), HeadersDone(i, fin));
    h.trail := h.trail + [HeadersDone(i, fin)];
    var l := h.lanes[i];
    if IsBidi(l.sid) {
      h.lanes := h.lanes[i := l.(headersComplete := true, bodyComplete := l.bodyComplete || fin)];
    }
  }

  /** The two callbacks that let go of the handle change one stream and the list of handles to free. */
  lemma LetGoShape(s: State, step: Step, l: Lane)
    requires step.StopSending? || step.CloseStream?
    requires !s.destroyed && s.et.Idle? && step.i < |s.lanes| && s.lanes[step.i].tracked
             && s.lanes[step.i].send.ng.Some?
    requires step.StopSending? ==>
               l == s.lanes[step.i].(send := CancelSend(s.lanes[step.i].send), qstream := None, done := true,
                                     bodyComplete := true)
    requires step.CloseStream? ==>
               l == s.lanes[step.i].(send := CloseSend(s.lanes[step.i].send), qstream := None, done := true)
    ensures Enabled(s, step)
    ensures Next(s, step) ==
            s.(lanes := s.lanes[step.i := l],
               pendingFree := if s.lanes[step.i].qstream.Some?
                              then s.pendingFree + [s.lanes[step.i].qstream.value] else s.pendingFree)
  {
    hide CancelSend, CloseSend;
  }

  /** Both write the stream back and queue the handle it had. */
  method LetGo(h: H3Session, step: Step, r: Lane)
    requires h.Mine() && h.Ok() && Enabled(h.View(), step) && (step.StopSending? || step.CloseStream?)
    requires step.i < |h.lanes| && LaneGrew(h.lanes[step.i], r)
    requires Next(h.View(), step) ==
             h.View().(lanes := h.lanes[step.i := r],
                       pendingFree := if h.lanes[step.i].qstream.Some?
                                      then h.pendingFree + [h.lanes[step.i].qstream.value] else h.pendingFree)
    modifies h`lanes, h`pendingFree, h`trail
    ensures h.Ok() && h.trail == old(h.trail) + [step] && Grew(old(h.lanes), h.lanes)
    ensures h.lanes == old(h.lanes)[step.i := r]
  {
    hide Inv, Run, Told, Next, Enabled, Grew;
    Took(h.limit, h.trail, h.wire, h.View(), step);
    GrewAt(h.lanes, step.i, r);
    h.trail := h.trail + [step];
    if h.lanes[step.i].qstream.Some? {
      h.pendingFree := h.pendingFree + [h.lanes[step.i].qstream.value];
    }
    h.lanes := h.lanes[step.i := r];
  }

  /** nghttp3 knows this stream of ours. */
  predicate Known(h: H3Session, stream: Option<nat>)
    reads h`lanes
  {
    stream.Some? ==> stream.value < |h.lanes| && h.lanes[stream.value].tracked && h.lanes[stream.value].send.ng.Some?
  }

  method OnStopSending(h: H3Session, stream: Option<nat>)
    requires h.Mine() && h.Ok() && Known(h, stream)
    modifies h`lanes, h`pendingFree, h`trail
    ensures h.Ok() && h.trail == old(h.trail) + if stream.Some? then [StopSending(stream.value)] else []
    ensures Grew(old(h.lanes), h.lanes)
            && (stream.None? ==> h.lanes == old(h.lanes) && h.pendingFree == old(h.pendingFree))
  {
    if stream.None? {
      return;
    }
    hide H3Session.Ok, Enabled, Next, CancelSend;
    var l := h.lanes[stream.value];
    var r := l.(send := CancelSend(l.send), qstream := None, done := true, bodyComplete := true);
    LetGoShape(h.View(), StopSending(stream.value), r);
    LetGo(h, StopSending(stream.value), r);
  }

  method OnResetStream(h: H3Session, stream: Option<nat>)
    requires h.Mine() && h.Ok() && Known(h, stream)
    modifies h`lanes, h`trail
    ensures h.Ok() && h.trail == old(h.trail) + if stream.Some? then [ResetStream(stream.value)] else []
    ensures Grew(old(h.lanes), h.lanes) && (stream.None? ==> h.lanes == old(h.lanes))
  {
    hide Inv, Run, Told;
    if stream.None? {
      return;
    }
    var i := stream.value;
    Took(h.limit, h.trail, h.wire, h.View(), ResetStream(i));
    h.trail := h.trail + [ResetStream(i)];
    var l := h.lanes[i];
    h.lanes := h.lanes[i := l.(send := CancelSend(l.send), done := true)];
  }

  method OnStreamClose(h: H3Session, stream: Option<nat>)
    requires h.Mine() && h.Ok() && Known(h, stream)
    modifies h`lanes, h`pendingFree, h`trail
    ensures h.Ok() && h.trail == old(h.trail) + if stream.Some? then [CloseStream(stream.value)] else []
    ensures stream.Some? ==> stream.value < |h.lanes| && h.lanes[stream.value].qstream.None?
    ensures Grew(old(h.lanes), h.lanes)
            && (stream.None? ==> h.lanes == old(h.lanes) && h.pendingFree == old(h.pendingFree))
  {
    if stream.None? {
      return;
    }
    hide H3Session.Ok, Enabled, Next, CloseSend;
    var l := h.lanes[stream.value];
    var r := l.(send := CloseSend(l.send), qstream := None, done := true);
    LetGoShape(h.View(), CloseStream(stream.value), r);
    LetGo(h, CloseStream(stream.value), r);
  }

  // ---------------------------------------------------------------------------
  // QUIC and nghttp3
  // ---------------------------------------------------------------------------

  /** h3q_stream_is_read_finished. */
  method AskFinished(h: H3Session, i: nat) returns (readFinished: bool, writeFinished: bool)
    modifies h`io
    ensures h.io == old(h.io) + [Asked(i, readFinished, writeFinished)]
  {
    readFinished, writeFinished := *, *;
    h.io := h.io + [Asked(i, readFinished, writeFinished)];
  }

  /** h3q_stream_read: at most `room` bytes, or none, and then perhaps the end. */
  method StreamRead(h: H3Session, i: nat, room: nat) returns (data: seq<Byte>, fin: bool)
    modifies h`io
    ensures |data| <= room && h.io == old(h.io) + [Read(i, room, data, fin)]
  {
    data, fin := *, *;
    if |data| > room {
      data := data[..room];
    }
    h.io := h.io + [Read(i, room, data, fin)];
  }

  /** One callback of nghttp3's choice, about a stream of its choice. */
  method Callback(h: H3Session)
    requires h.Mine() && h.Ok()
    modifies h`lanes, h`pendingFree, h`trail
    ensures h.Ok() && OwnGrew(old(h.trail), h.trail) && Grew(old(h.lanes), h.lanes)
  {
    hide H3Session.Ok, Grew;
    GrewSelf(h.lanes);
    var i: int := *;
    var none: bool := *;
    if none || !(0 <= i < |h.lanes| && h.lanes[i].tracked) {
      var fin: bool := *;
      OnEndHeaders(h, None, fin);
      OnStopSending(h, None);
      OnResetStream(h, None);
      OnStreamClose(h, None);
    } else if * {
      var fin: bool := *;
      OnEndHeaders(h, Some(i), fin);
    } else if h.lanes[i].send.ng.Some? {
      if * {
        OnStopSending(h, Some(i));
      } else if * {
        OnResetStream(h, Some(i));
      } else {
        OnStreamClose(h, Some(i));
      }
    }
  }

  /** nghttp3_conn_read_stream: any callbacks, then success or an error. */
  method FeedNghttp3(h: H3Session, i: nat, data: seq<Byte>, fin: bool) returns (failed: bool)
    requires h.Mine() && h.Ok()
    modifies h`lanes, h`pendingFree, h`ngDead, h`trail, h`io
    ensures h.Ok() && OwnGrew(old(h.trail), h.trail) && Grew(old(h.lanes), h.lanes)
    ensures h.ngDead == (old(h.ngDead) || failed)
    ensures h.io == old(h.io) + [Fed(i, data, fin, failed)]
  {
    hide H3Session.Ok, Grew, OwnGrew;
    GrewSelf(h.lanes);
    GrewRefl(h.trail);
    var turns: int := *;
    while turns > 0
      invariant h.Ok() && OwnGrew(old(h.trail), h.trail) && Grew(old(h.lanes), h.lanes)
      invariant h.ngDead == old(h.ngDead) && h.io == old(h.io)
    {
      ghost var lanes0, trail0 := h.lanes, h.trail;
      Callback(h);
      GrewOn(old(h.lanes), lanes0, h.lanes);
      GrewTrans(old(h.trail), trail0, h.trail);
      turns := turns - 1;
    }
    failed := *;
    h.io := h.io + [Fed(i, data, fin, failed)];
    if failed {
      GrewStep(old(h.trail), h.trail, MarkDead);
      h.Die();
    }
  }

  /** feed_stream_fin. */
  method FeedStreamFin(h: H3Session, i: nat) returns (ghost failed: bool)
    requires h.Mine() && h.Ok() && i < |h.lanes| && h.lanes[i].tracked
    modifies h`lanes, h`pendingFree, h`ngDead, h`trail, h`io
    ensures h.Ok() && OwnGrew(old(h.trail), h.trail) && Grew(old(h.lanes), h.lanes)
    ensures h.lanes[i].bodyComplete && (old(h.ngDead) ==> h.ngDead)
    ensures h.io == old(h.io) + [Fed(i, [], true, failed)]
  {
    hide H3Session.Ok, Grew, OwnGrew;
    var failure := FeedNghttp3(h, i, [], true);
    failed := failure;
    ghost var lanes0, trail0 := h.lanes, h.trail;
    GrewIn(old(h.lanes), h.lanes, i);
    CompleteBody(h, i);
    GrewOn(old(h.lanes), lanes0, h.lanes);
    GrewTrans(old(h.trail), trail0, h.trail);
  }

  method CompleteBody(h: H3Session, i: nat)
    requires h.Mine() && h.Ok() && i < |h.lanes| && h.lanes[i].tracked
    modifies h`lanes, h`trail
    ensures h.Ok() && OwnGrew(old(h.trail), h.trail) && Grew(old(h.lanes), h.lanes)
    ensures h.lanes[i].bodyComplete
  {
    hide Inv, Run, Told, Grew, OwnGrew;
    Took(h.limit, h.trail, h.wire, h.View(), BodyDone(i));
    GrewRefl(h.trail);
    GrewStep(h.trail, h.trail, BodyDone(i));
    GrewAt(h.lanes, i, h.lanes[i].(bodyComplete := true));
    h.trail := h.trail + [BodyDone(i)];
    h.lanes := h.lanes[i := h.lanes[i].(bodyComplete := true)];
  }

  method MarkStreamDone(h: H3Session, i: nat)
    requires h.Mine() && h.Ok() && i < |h.lanes| && h.lanes[i].tracked
    modifies h`lanes, h`trail
    ensures h.Ok() && OwnGrew(old(h.trail), h.trail) && Grew(old(h.lanes), h.lanes)
    ensures h.lanes[i].done
  {
    hide Inv, Run, Told, Grew, OwnGrew;
    Took(h.limit, h.trail, h.wire, h.View(), MarkDone(i));
    GrewRefl(h.trail);
    GrewStep(h.trail, h.trail, MarkDone(i));
    GrewAt(h.lanes, i, h.lanes[i].(done := true));
    h.trail := h.trail + [MarkDone(i)];
    h.lanes := h.lanes[i := h.lanes[i].(done := true)];
  }

  // ---------------------------------------------------------------------------
  // Draining one stream
  // ---------------------------------------------------------------------------

  /** The branch of drain_one_stream for a stream whose receive side is over. */
  method FinishReading(h: H3Session, i: nat, writeFinished: bool) returns (ghost failed: bool)
    requires h.Mine() && h.Ok() && i < |h.lanes| && h.lanes[i].tracked
    modifies h`lanes, h`pendingFree, h`ngDead, h`trail, h`io
    ensures h.Ok() && OwnGrew(old(h.trail), h.trail) && Grew(old(h.lanes), h.lanes) && (old(h.ngDead) ==> h.ngDead)
    ensures h.lanes[i].bodyComplete
    ensures h.io == old(h.io) + if old(h.lanes)[i].bodyComplete then [] else [Fed(i, [], true, failed)]
    ensures writeFinished && old(h.lanes)[i].send.ng.Some? ==> h.lanes[i].qstream.None?
  {
    hide H3Session.Ok, Grew, OwnGrew;
    failed := false;
    GrewSelf(h.lanes);
    GrewRefl(h.trail);
    if !h.lanes[i].bodyComplete {
      failed := FeedStreamFin(h, i);
    }
    GrewIn(old(h.lanes), h.lanes, i);
    if h.lanes[i].qstream.Some? && writeFinished && h.lanes[i].send.ng.Some? {
      ghost var lanes0 := h.lanes;
      GrewStep(old(h.trail), h.trail, CloseStream(i));
      OnStreamClose(h, Some(i));
      GrewOn(old(h.lanes), lanes0, h.lanes);
      GrewIn(lanes0, h.lanes, i);
    }
  }

  /** One read that brought bytes: they are fed to nghttp3. */
  method TakeBytes(h: H3Session, i: nat, data: seq<Byte>) returns (more: bool, ghost failure: bool)
    requires h.Mine() && h.Ok() && i < |h.lanes| && h.lanes[i].tracked
    modifies h`lanes, h`pendingFree, h`ngDead, h`trail, h`io
    ensures h.Ok() && OwnGrew(old(h.trail), h.trail) && Grew(old(h.lanes), h.lanes) && (old(h.ngDead) ==> h.ngDead)
    ensures h.io == old(h.io) + [Fed(i, data, false, failure)] && (failure ==> h.lanes[i].done)
    ensures more <==> !h.lanes[i].done
  {
    hide H3Session.Ok, Grew, OwnGrew;
    var failed := FeedNghttp3(h, i, data, false);
    failure := failed;
    GrewIn(old(h.lanes), h.lanes, i);
    if failed {
      ghost var lanes0, trail0 := h.lanes, h.trail;
      MarkStreamDone(h, i);
      GrewOn(old(h.lanes), lanes0, h.lanes);
      GrewTrans(old(h.trail), trail0, h.trail);
    }
    more := !h.lanes[i].done;
  }

  /**
   drain_one_stream: read until the stream has nothing more, is done, or the pass has spent its
   reads or bytes. Reports whether the stream is now a complete request nobody works on.
   */
  method DrainOne(h: H3Session, i: nat, bufSize: nat, readBudget: nat, byteBudget: nat)
    returns (ready: bool, readsLeft: nat, bytesLeft: nat, ghost io: seq<IoEvent>)
    requires h.Mine() && h.Ok() && i < |h.lanes| && h.lanes[i].tracked
    modifies h`lanes, h`pendingFree, h`ngDead, h`trail, h`io
    ensures h.Ok() && OwnGrew(old(h.trail), h.trail) && Grew(old(h.lanes), h.lanes) && (old(h.ngDead) ==> h.ngDead)
    ensures var l := h.lanes[i]; ready <==> IsBidi(l.sid) && l.headersComplete && l.bodyComplete && !l.dispatched
    ensures h.io == old(h.io) + io
    ensures Drained(i, old(h.lanes)[i], h.lanes[i], Purse(bufSize, readBudget, byteBudget, readsLeft, bytesLeft), io)
  {
    hide H3Session.Ok, Grew, OwnGrew, Charged, ReadCount;
    var purse := Purse(bufSize, readBudget, byteBudget, readBudget, byteBudget);
    GrewSelf(h.lanes);
    GrewRefl(h.trail);
    readsLeft, bytesLeft, io := readBudget, byteBudget, [];
    ChargedNone(i, purse);
    var readFinished, writeFinished := false, false;
    if h.lanes[i].qstream.Some? {
      readFinished, writeFinished := AskFinished(h, i);
      io := [Asked(i, readFinished, writeFinished)];
      ChargedAsked(i, purse, readFinished, writeFinished);
    }
    if readFinished {
      var complete := h.lanes[i].bodyComplete;
      ghost var failed := FinishReading(h, i, writeFinished);
      if !complete {
        ChargedFin(i, purse, io, failed);
        io := io + [Fed(i, [], true, failed)];
      }
      GrewIn(old(h.lanes), h.lanes, i);
      ready := Ready(h.lanes[i]);
      return;
    }
    readsLeft, bytesLeft, io := ReadLoop(h, i, purse, io);
    GrewIn(old(h.lanes), h.lanes, i);
    ready := Ready(h.lanes[i]);
  }

  lemma TailTwo(io0: seq<IoEvent>, io: seq<IoEvent>, a: IoEvent, b: IoEvent)
    requires io0 <= io
    ensures io0 <= io + [a] && (io + [a])[|io0|..] == io[|io0|..] + [a]
    ensures io0 <= io + [a] + [b] && (io + [a] + [b])[|io0|..] == io[|io0|..] + [a] + [b]
  {
  }

  /** The reading loop of drain_one_stream. */
  method ReadLoop(h: H3Session, i: nat, p: Purse, ghost io0: seq<IoEvent>)
    returns (readsLeft: nat, bytesLeft: nat, ghost io: seq<IoEvent>)
    requires h.Mine() && h.Ok() && i < |h.lanes| && h.lanes[i].tracked
    requires Charged(i, p, io0) && (h.lanes[i].qstream.Some? <==> io0 != [] && io0[0].Asked?)
    requires io0 != [] && io0[0].Asked? ==> !io0[0].readFinished
    requires FailedIsDone(io0, h.lanes[i])
    modifies h`lanes, h`pendingFree, h`ngDead, h`trail, h`io
    ensures h.Ok() && OwnGrew(old(h.trail), h.trail) && Grew(old(h.lanes), h.lanes) && (old(h.ngDead) ==> h.ngDead)
    ensures io0 <= io && (io0 == [] ==> io == []) && h.io == old(h.io) + io[|io0|..]
    ensures Charged(i, p.(readsLeft := readsLeft, bytesLeft := bytesLeft), io)
    ensures Stopped(p.(readsLeft := readsLeft, bytesLeft := bytesLeft), io, h.lanes[i])
    ensures FailedIsDone(io, h.lanes[i])
  {
    hide H3Session.Ok, Grew, OwnGrew, Charged, ReadCount;
    GrewSelf(h.lanes);
    GrewRefl(h.trail);
    readsLeft, bytesLeft, io := p.readsLeft, p.bytesLeft, io0;
    while readsLeft > 0 && bytesLeft > 0
      invariant h.Ok() && OwnGrew(old(h.trail), h.trail) && Grew(old(h.lanes), h.lanes) && (old(h.ngDead) ==> h.ngDead)
      invariant io0 <= io && (io0 == [] ==> io == []) && h.io == old(h.io) + io[|io0|..]
      invariant Charged(i, p.(readsLeft := readsLeft, bytesLeft := bytesLeft), io)
      invariant i < |h.lanes| && FailedIsDone(io, h.lanes[i])
      decreases readsLeft
    {
      GrewIn(old(h.lanes), h.lanes, i);
      ghost var lanes0, trail0 := h.lanes, h.trail;
      if h.lanes[i].qstream.None? {
        MarkStreamDone(h, i);
        GrewOn(old(h.lanes), lanes0, h.lanes);
        GrewTrans(old(h.trail), trail0, h.trail);
        GrewIn(old(h.lanes), h.lanes, i);
        break;
      }
      ghost var q := p.(readsLeft := readsLeft, bytesLeft := bytesLeft);
      ChargedBound(i, q, io);
      var room := if p.bufSize < bytesLeft then p.bufSize else bytesLeft;
      var data, fin := StreamRead(h, i, room);
      if data != [] {
        var more;
        ghost var failed;
        more, failed := TakeBytes(h, i, data);
        GrewIn(lanes0, h.lanes, i);
        GrewOn(old(h.lanes), lanes0, h.lanes);
        GrewTrans(old(h.trail), trail0, h.trail);
        ChargedRead(i, q, io, room, data, fin, failed);
        TailTwo(io0, io, Read(i, room, data, fin), Fed(i, data, false, failed));
        io := io + [Read(i, room, data, fin)] + [Fed(i, data, false, failed)];
        readsLeft := readsLeft - 1;
        bytesLeft := bytesLeft - |data|;
        if !more {
          break;
        }
        continue;
      }
      ghost var failed := false;
      if fin {
        failed := FeedStreamFin(h, i);
        GrewIn(lanes0, h.lanes, i);
      }
      ChargedDry(i, q, io, room, fin, failed);
      TailTwo(io0, io, Read(i, room, [], fin), Fed(i, [], true, failed));
      io := io + [Read(i, room, [], fin)];
      if fin {
        io := io + [Fed(i, [], true, failed)];
        GrewOn(old(h.lanes), lanes0, h.lanes);
        GrewTrans(old(h.trail), trail0, h.trail);
      }
      break;
    }
  }

  // ---------------------------------------------------------------------------
  // One pass
  // ---------------------------------------------------------------------------

  /** The tracked streams, in the order the table lists them. */
  method Snapshot(h: H3Session) returns (snapshot: seq<nat>)
    ensures Increasing(snapshot)
    ensures forall i :: i in snapshot <==> 0 <= i < |h.lanes| && h.lanes[i].tracked
  {
    snapshot := [];
    var i := 0;
    while i < |h.lanes|
      invariant 0 <= i <= |h.lanes| && Increasing(snapshot)
      invariant forall a | 0 <= a < |snapshot| :: snapshot[a] < i
      invariant forall k :: k in snapshot <==> 0 <= k < i && h.lanes[k].tracked
    {
      if h.lanes[i].tracked {
        snapshot := snapshot + [i];
      }
      i := i + 1;
    }
  }

  /** A stream the dispatcher may take: a client's request with all its headers and body, which nobody has taken. */
  ghost predicate Dispatchable(ls: seq<Lane>, k: nat) {
    && k < |ls| && ls[k].tracked && IsBidi(ls[k].sid) && !IsServer(ls[k].sid)
    && ls[k].headersComplete && ls[k].bodyComplete && !ls[k].dispatched
  }

  lemma DispatchableStill(a: seq<Lane>, b: seq<Lane>, found: seq<nat>)
    requires Grew(a, b) && forall x | 0 <= x < |found| :: Dispatchable(a, found[x])
    ensures forall x | 0 <= x < |found| :: Dispatchable(b, found[x])
  {
    forall x | 0 <= x < |found| ensures Dispatchable(b, found[x]) {
      assert LaneGrew(a[found[x]], b[found[x]]);
    }
  }

  /** One visit: streams that are done, without a handle, or the server's own are passed over. */
  method VisitOne(h: H3Session, k: nat, ghost index: nat, bufSize: nat, readBudget: nat, byteBudget: nat)
    returns (hit: bool, readsLeft: nat, bytesLeft: nat, ghost v: Visit)
    requires h.Mine() && h.Ok() && k < |h.lanes| && h.lanes[k].tracked && readBudget > 0 && byteBudget > 0
    modifies h`lanes, h`pendingFree, h`ngDead, h`trail, h`io
    ensures h.Ok() && OwnGrew(old(h.trail), h.trail) && Grew(old(h.lanes), h.lanes) && (old(h.ngDead) ==> h.ngDead)
    ensures VisitOk(v, k) && v.index == index && v.found == old(h.lanes)[k] && v.left == h.lanes[k]
    ensures v.hit == hit && v.dead == h.ngDead && h.io == old(h.io) + v.io
    ensures v.purse == Purse(bufSize, readBudget, byteBudget, readsLeft, bytesLeft)
    ensures var a, b := old(h.lanes)[k], h.lanes[k];
            hit <==> && !a.done && a.qstream.Some? && !IsServer(a.sid) && !h.ngDead
                     && IsBidi(b.sid) && b.headersComplete && b.bodyComplete && !b.dispatched
    ensures hit ==> Dispatchable(h.lanes, k)
  {
    hide H3Session.Ok, Grew, OwnGrew, Charged, Stopped;
    GrewSelf(h.lanes);
    GrewRefl(h.trail);
    hit, readsLeft, bytesLeft := false, readBudget, byteBudget;
    var l := h.lanes[k];
    if l.done || l.qstream.None? || IsServer(l.sid) {
      v := Visit(index, l, l, false, false, h.ngDead, Purse(bufSize, readBudget, byteBudget, readsLeft, bytesLeft), []);
      return;
    }
    var ready;
    ghost var io;
    ready, readsLeft, bytesLeft, io := DrainOne(h, k, bufSize, readBudget, byteBudget);
    GrewIn(old(h.lanes), h.lanes, k);
    hit := ready && !h.ngDead;
    v := Visit(index, l, h.lanes[k], true, hit, h.ngDead,
               Purse(bufSize, readBudget, byteBudget, readsLeft, bytesLeft), io);
  }

  /** Each visited stream was found as the streams before it had left it. */
  ghost predicate FoundFrom(ls: seq<Lane>, snapshot: seq<nat>, visits: seq<Visit>) {
    forall o | 0 <= o < |visits| ::
      var v := visits[o];
      v.index < |snapshot| && snapshot[v.index] < |ls| && LaneGrew(ls[snapshot[v.index]], v.found)
  }

  /** The visiting loop of drain_ready_streams. `end` says how the pass ended on a live connection. */
  method VisitStreams(h: H3Session, snapshot: seq<nat>, bufSize: nat)
    returns (found: seq<nat>, readsLeft: nat, bytesLeft: nat, end: PassEnd, ghost visits: seq<Visit>)
    requires h.Mine() && h.Ok() && snapshot != []
    requires forall i | 0 <= i < |snapshot| :: snapshot[i] < |h.lanes| && h.lanes[snapshot[i]].tracked
    modifies h`lanes, h`pendingFree, h`ngDead, h`drainCursor, h`trail, h`io
    ensures h.Ok() && OwnGrew(old(h.trail), h.trail) && Grew(old(h.lanes), h.lanes) && (old(h.ngDead) ==> h.ngDead)
    ensures Visited(snapshot, bufSize, old(h.drainCursor), visits, readsLeft, bytesLeft)
            && h.io == old(h.io) + IoOf(visits)
    ensures FoundFrom(old(h.lanes), snapshot, visits)
    ensures found == Hits(snapshot, visits) && forall x | 0 <= x < |found| :: Dispatchable(h.lanes, found[x])
    ensures !h.ngDead ==> EndOk(|snapshot|, end) && h.drainCursor == NextCursor(|snapshot|, old(h.drainCursor), end)
    ensures !h.ngDead ==> |visits| == Length(|snapshot|, end) && forall o | 0 <= o < |visits| :: !visits[o].dead
    ensures end.SpentAt? <==> readsLeft == 0 || bytesLeft == 0
  {
    hide H3Session.Ok, Grew, OwnGrew, VisitAt, NextCursor, Visited, VisitOk, IoOf, Hits, LaneGrew, Dispatchable;
    var n := |snapshot|;
    GrewSelf(h.lanes);
    GrewRefl(h.trail);
    found, visits := [], [];
    readsLeft, bytesLeft, end := READ_BUDGET, BYTE_BUDGET, AllVisited;
    VisitedNone(snapshot, bufSize, h.drainCursor);
    var offset := 0;
    while offset < n
      invariant 0 <= offset <= n && h.drainCursor == old(h.drainCursor) && end == AllVisited
      invariant h.Ok() && OwnGrew(old(h.trail), h.trail) && Grew(old(h.lanes), h.lanes) && (old(h.ngDead) ==> h.ngDead)
      invariant |visits| == offset && Visited(snapshot, bufSize, h.drainCursor, visits, readsLeft, bytesLeft)
      invariant h.io == old(h.io) + IoOf(visits) && FoundFrom(old(h.lanes), snapshot, visits)
      invariant found == Hits(snapshot, visits) && forall x | 0 <= x < |found| :: Dispatchable(h.lanes, found[x])
      invariant readsLeft > 0 && bytesLeft > 0
      invariant !h.ngDead ==> forall o | 0 <= o < |visits| :: !visits[o].dead
    {
      if h.ngDead {
        break;
      }
      var i := VisitAt(n, h.drainCursor, offset);
      var k := snapshot[i];
      GrewIn(old(h.lanes), h.lanes, k);
      GrewTracked(old(h.lanes)[k], h.lanes[k]);
      ghost var lanes0, trail0 := h.lanes, h.trail;
      var hit;
      ghost var v;
      hit, readsLeft, bytesLeft, v := VisitOne(h, k, i, bufSize, readsLeft, bytesLeft);
      VisitedNext(snapshot, bufSize, h.drainCursor, visits, v);
      IoOfSnoc(visits, v);
      HitsSnoc(snapshot, visits, v);
      DispatchableStill(lanes0, h.lanes, found);
      GrewOn(old(h.lanes), lanes0, h.lanes);
      GrewTrans(old(h.trail), trail0, h.trail);
      visits := visits + [v];
      if hit {
        found := found + [k];
      }
      offset := offset + 1;
      if readsLeft == 0 || bytesLeft == 0 {
        end := SpentAt(offset - 1);
        h.drainCursor := NextCursor(n, h.drainCursor, end);
        return;
      }
    }
    UnspentKeepsCursor(n, h.drainCursor);
  }

  lemma GrewTracked(a: Lane, b: Lane)
    requires LaneGrew(a, b) && a.tracked
    ensures b.tracked
  {
  }

  /** What the reclaim loop leaves of a stream. */
  ghost predicate Kept(a: Lane, b: Lane) {
    if a.tracked && Finished(a) then !b.tracked && b.sid == a.sid else b == a
  }

  /** A client's request stream that is done, has let go of its handle, and whose worker is through with it. */
  ghost predicate Finished(l: Lane) {
    l.sid % 4 == 0 && l.done && l.qstream.None? && l.dispatched && l.workerDone
  }

  lemma ReclaimShape(s: State, k: nat)
    requires !s.destroyed && s.et.Idle? && k < |s.lanes| && s.lanes[k].tracked && Reclaimable(s.lanes[k])
    ensures Enabled(s, ReclaimOne(k)) && Next(s, ReclaimOne(k)) == ReclaimNext(s, k)
  {
    hide ReclaimNext;
  }

  /** The reclaim branch for one stream. */
  method ReclaimStream(h: H3Session, k: nat)
    requires h.Mine() && h.Ok() && k < |h.lanes| && h.lanes[k].tracked && Reclaimable(h.lanes[k])
    modifies h`lanes, h`blockedStreams, h`trail
    ensures h.Ok() && h.trail == old(h.trail) + [ReclaimOne(k)]
    ensures |h.lanes| == |old(h.lanes)| && h.lanes == old(h.lanes)[k := h.lanes[k]]
    ensures !h.lanes[k].tracked && h.lanes[k].sid == old(h.lanes)[k].sid
  {
    hide Inv, Run, Told, Enabled, Next;
    ReclaimShape(h.View(), k);
    Took(h.limit, h.trail, h.wire, h.View(), ReclaimOne(k));
    h.trail := h.trail + [ReclaimOne(k)];
    var l := h.lanes[k];
    if l.writeBlocked {
      h.blockedStreams := h.blockedStreams - 1;
    }
    h.lanes := h.lanes[k := l.(writeBlocked := false, tracked := false, send := CleanSend(l.send), poolLive := false)];
  }

  /** The reclaim loop: exactly the streams that are closed, without a handle and done with by their worker go. */
  method ReclaimStreams(h: H3Session, snapshot: seq<nat>)
    requires h.Mine() && h.Ok() && Increasing(snapshot)
    requires forall i :: i in snapshot <==> 0 <= i < |h.lanes| && h.lanes[i].tracked
    modifies h`lanes, h`blockedStreams, h`trail
    ensures h.Ok() && OwnGrew(old(h.trail), h.trail) && |h.lanes| == |old(h.lanes)|
    ensures forall i | 0 <= i < |h.lanes| :: Kept(old(h.lanes)[i], h.lanes[i])
  {
    hide H3Session.Ok, OwnGrew;
    GrewRefl(h.trail);
    var x := 0;
    while x < |snapshot|
      invariant 0 <= x <= |snapshot| && |h.lanes| == |old(h.lanes)| && h.Ok() && OwnGrew(old(h.trail), h.trail)
      invariant forall i | 0 <= i < |h.lanes| ::
                  if i in snapshot[..x] then Kept(old(h.lanes)[i], h.lanes[i]) else h.lanes[i] == old(h.lanes)[i]
    {
      var k := snapshot[x];
      assert k in snapshot;
      if Reclaimable(h.lanes[k]) {
        GrewStep(old(h.trail), h.trail, ReclaimOne(k));
        ReclaimStream(h, k);
      }
      assert snapshot[..x + 1] == snapshot[..x] + [k];
      x := x + 1;
    }
    assert snapshot[..x] == snapshot;
  }

  /** Visit o of the pass found stream k open and left it, on a live connection, a whole request nobody has taken. */
  ghost predicate ReturnedBy(p: Pass, o: nat, k: nat)
    requires o < |p.visits|
  {
    var v := p.visits[o];
    && v.index < |p.snapshot| && p.snapshot[v.index] == k
    && !v.found.done && v.found.qstream.Some? && !IsServer(v.found.sid) && !v.dead
    && IsBidi(v.left.sid) && v.left.headersComplete && v.left.bodyComplete && !v.left.dispatched
  }

  /** What a pass returns, visit by visit. */
  lemma ReturnsExactly(p: Pass, k: nat)
    requires PassOk(p)
    ensures k in Hits(p.snapshot, p.visits) <==> exists o :: 0 <= o < |p.visits| && ReturnedBy(p, o, k)
  {
    HitsAre(p.snapshot, p.visits, k);
    forall o | 0 <= o < |p.visits| ensures ReturnedBy(p, o, k) <==> k in HitOf(p.snapshot, p.visits[o]) {
      assert VisitedAt(p.snapshot, p.bufSize, p.cursor, p.visits, o);
      hide Drained;
    }
    hide PassOk, Hits, ReturnedBy, HitOf;
  }

  /**
   drain_ready_streams. The pass is one `PassOk` describes, over the streams tracked when it began;
   what it returns are its hits: distinct complete requests nobody works on. None of them is
   reclaimed, and no reclaimable stream is left behind.
   */
  method DrainReadyStreams(h: H3Session, bufSize: nat) returns (completed: seq<nat>, ghost pass: Pass)
    requires h.Mine() && h.Ok()
    modifies h`lanes, h`pendingFree, h`ngDead, h`drainCursor, h`blockedStreams, h`trail, h`io
    ensures h.Ok() && OwnGrew(old(h.trail), h.trail) && (old(h.ngDead) ==> h.ngDead)
    ensures PassOk(pass) && pass.bufSize == bufSize && pass.live == !h.ngDead
    ensures pass.cursor == old(h.drainCursor) && pass.next == h.drainCursor
    ensures forall i :: i in pass.snapshot <==> 0 <= i < |old(h.lanes)| && old(h.lanes)[i].tracked
    ensures FoundFrom(old(h.lanes), pass.snapshot, pass.visits)
    ensures h.io == old(h.io) + IoOf(pass.visits)
    ensures completed == Hits(pass.snapshot, pass.visits)
    ensures forall x, y | 0 <= x < y < |completed| :: completed[x] != completed[y]
    ensures forall x | 0 <= x < |completed| :: Dispatchable(h.lanes, completed[x])
    ensures forall i | 0 <= i < |h.lanes| && h.lanes[i].tracked :: !Finished(h.lanes[i])
    ensures forall k :: k in completed <==> exists o :: 0 <= o < |pass.visits| && ReturnedBy(pass, o, k)
    ensures |h.lanes| == |old(h.lanes)| && forall j | 0 <= j < |h.lanes| :: h.lanes[j].sid == old(h.lanes)[j].sid
  {
    hide H3Session.Ok, OwnGrew, Visited, IoOf, Hits, Increasing;
    completed := [];
    GrewRefl(h.trail);
    var snapshot := Snapshot(h);
    pass := Pass(snapshot, bufSize, h.drainCursor, [], READ_BUDGET, BYTE_BUDGET, AllVisited, h.drainCursor, !h.ngDead);
    VisitedNone([0], bufSize, 0);
    HitsNone(snapshot);
    if snapshot != [] {
      assert forall i | 0 <= i < |snapshot| :: snapshot[i] in snapshot;
      var readsLeft, bytesLeft, end;
      ghost var visits;
      completed, readsLeft, bytesLeft, end, visits := VisitStreams(h, snapshot, bufSize);
      pass := Pass(snapshot, bufSize, old(h.drainCursor), visits, readsLeft, bytesLeft, end, h.drainCursor, !h.ngDead);
      VisitedIndices(snapshot, bufSize, old(h.drainCursor), visits, readsLeft, bytesLeft);
      HitsDistinct(snapshot, old(h.drainCursor), visits);
      assert forall i | 0 <= i < |h.lanes| :: LaneGrew(old(h.lanes)[i], h.lanes[i]);
    }
    assert PassOk(pass) && completed == Hits(pass.snapshot, pass.visits);
    forall k ensures k in completed <==> exists o :: 0 <= o < |pass.visits| && ReturnedBy(pass, o, k) {
      ReturnsExactly(pass, k);
    }
    ghost var lanes0, trail0 := h.lanes, h.trail;
    ReclaimStreams(h, snapshot);
    GrewTrans(old(h.trail), trail0, h.trail);
    forall x | 0 <= x < |completed| ensures Dispatchable(h.lanes, completed[x]) {
      assert Dispatchable(lanes0, completed[x]);
    }
    forall i | 0 <= i < |h.lanes| ensures h.lanes[i].sid == old(h.lanes)[i].sid {
      assert Kept(lanes0[i], h.lanes[i]);
    }
  }
}
