/**
 The send loop of mod_http3/src/h3_stream.c as code: unblock, flush, and the QUIC write
 under it. Each method is a run of the transition system in `Session`; nghttp3 and QUIC
 choose freely within their contracts.
 */
module FlushLoop {
  import opened Options
  import opened ResponseQueue
  import opened SendPath
  import opened Session
  import opened SessionSafety
  import opened WireLog
  import opened SessionRun
  import opened StreamIo
  import GoAway

  const MAX_VECS := 16

  // ---------------------------------------------------------------------------
  // Work left
  // ---------------------------------------------------------------------------

  function PullTotal(ls: seq<Lane>): nat {
    if ls == [] then 0 else PullWork(ls[0].send) + PullTotal(ls[1..])
  }

  function WriteTotal(ls: seq<Lane>): nat {
    if ls == [] then 0 else WriteWork(ls[0].send) + WriteTotal(ls[1..])
  }

  lemma {:induction false} TotalUpdate(ls: seq<Lane>, i: nat, l: Lane)
    requires i < |ls|
    ensures PullTotal(ls[i := l]) == PullTotal(ls) - PullWork(ls[i].send) + PullWork(l.send)
    ensures WriteTotal(ls[i := l]) == WriteTotal(ls) - WriteWork(ls[i].send) + WriteWork(l.send)
  {
    hide PullWork, WriteWork;
    if i == 0 {
      assert ls[i := l][1..] == ls[1..];
    } else {
      assert ls[i := l][1..] == ls[1..][i - 1 := l];
      assert ls[i := l][0] == ls[0];
      TotalUpdate(ls[1..], i - 1, l);
    }
  }

  /** Every turn of the flush loop makes progress. */
  lemma TurnWork(s: State, i: nat, m: nat, accepted: nat, out: WriteOutcome)
    requires Inv(s) && Enabled(s, WriteTurn(i, m, accepted, out))
    ensures var send := TurnSend(s.lanes[i], m, accepted, out);
            PullWork(send) == PullWork(s.lanes[i].send) && WriteWork(send) < WriteWork(s.lanes[i].send)
  {
    LaneIn(s, i);
    hide Inv, SendInv;
    TurnShrinks(s.lanes[i].send, m, accepted);
  }

  lemma TurnTotals(s: State, i: nat, m: nat, accepted: nat, out: WriteOutcome)
    requires Inv(s) && Enabled(s, WriteTurn(i, m, accepted, out))
    ensures var ls := s.lanes[i := TurnLane(s.lanes[i], m, accepted, out)];
            SendOnly(s.lanes, ls) && PullTotal(ls) == PullTotal(s.lanes) && WriteTotal(ls) < WriteTotal(s.lanes)
  {
    hide Inv, PullWork, WriteWork, SendOnly, TurnSend;
    var l := TurnLane(s.lanes[i], m, accepted, out);
    TurnWork(s, i, m, accepted, out);
    SendOnlyAt(s.lanes, i, l);
    TotalUpdate(s.lanes, i, l);
  }

  lemma PullTotals(ls: seq<Lane>, j: nat, veccnt: nat, frames: nat)
    requires j < |ls| && Pullable(ls[j].send) && veccnt > 0 && 0 <= ls[j].send.q.submit <= |ls[j].send.q.chunks|
    ensures var r := ls[j := ls[j].(send := Pull(ls[j].send, veccnt, frames))];
            SendOnly(ls, r) && PullTotal(r) < PullTotal(ls)
  {
    hide Pull, PullWork, WriteWork, SendOnly;
    var l := ls[j].(send := Pull(ls[j].send, veccnt, frames));
    PullShrinks(ls[j].send, veccnt, frames);
    TotalUpdate(ls, j, l);
    SendOnlyAt(ls, j, l);
  }

  lemma PullShape(s: State, j: nat, veccnt: nat, frames: nat)
    requires Inv(s) && !s.destroyed && s.et.Idle? && !s.ngDead
    requires j < |s.lanes| && Pullable(s.lanes[j].send) && veccnt > 0
    ensures 0 <= s.lanes[j].send.q.submit <= |s.lanes[j].send.q.chunks|
    ensures Enabled(s, PullFrom(j, veccnt, frames))
    ensures Next(s, PullFrom(j, veccnt, frames)) ==
            s.(lanes := s.lanes[j := s.lanes[j].(send := Pull(s.lanes[j].send, veccnt, frames))])
  {
    LaneIn(s, j);
    hide Inv, Pull;
  }

  lemma TurnShape(s: State, i: nat, m: nat, accepted: nat, out: WriteOutcome)
    requires !s.destroyed && s.et.Idle? && !s.ngDead
    requires i < |s.lanes| && Offerable(s.lanes[i].send) && Possible(m, accepted, out)
    requires m <= |s.lanes[i].send.ng.value.outq| && (m > 0 || s.lanes[i].send.ng.value.outq == [])
    ensures Enabled(s, WriteTurn(i, m, accepted, out))
    ensures var l := TurnLane(s.lanes[i], m, accepted, out);
            Next(s, WriteTurn(i, m, accepted, out)) ==
            s.(lanes := s.lanes[i := l],
               blockedStreams := if l.writeBlocked && !s.lanes[i].writeBlocked
                                 then s.blockedStreams + 1 else s.blockedStreams)
  {
    hide TurnSend;
  }

  lemma UnblockShape(s: State, i: nat)
    requires !s.destroyed && s.et.Idle? && i < |s.lanes| && s.lanes[i].tracked && s.lanes[i].writeBlocked
    ensures Enabled(s, UnblockOne(i))
    ensures Next(s, UnblockOne(i)) ==
            s.(lanes := s.lanes[i := Unblocked(s.lanes[i])], blockedStreams := s.blockedStreams - 1)
  {
    hide Unflow;
  }

  lemma FreeShape(s: State)
    requires !s.destroyed && s.et.Idle? && s.pendingFree != []
    ensures var n := |s.pendingFree| - 1;
            && Enabled(s, FreeOne)
            && Next(s, FreeOne) == s.(pendingFree := s.pendingFree[..n], freed := s.freed + [s.pendingFree[n]])
  {
  }

  lemma ReverseNone()
    ensures Reverse<Handle>([]) == []
  {
  }

  lemma {:induction false} ReverseTurn(freed: seq<Handle>, queued: seq<Handle>)
    requires queued != []
    ensures var n := |queued| - 1; freed + [queued[n]] + Reverse(queued[..n]) == freed + Reverse(queued)
  {
  }

  lemma {:induction false} FlattenSplit<T>(vs: seq<seq<T>>, k: nat)
    requires k <= |vs|
    ensures Flatten(vs) == Flatten(vs[..k]) + Flatten(vs[k..])
  {
    if k > 0 {
      assert vs[..k][1..] == vs[1..][..k - 1];
      assert vs[1..][k - 1..] == vs[k..];
      FlattenSplit(vs[1..], k - 1);
    }
  }

  // ---------------------------------------------------------------------------
  // unblock_writable_streams, on values
  // ---------------------------------------------------------------------------

  function Unblocked(l: Lane): Lane { l.(writeBlocked := false, send := Unflow(l.send)) }

  /** The send loop touches what is being sent and the blocked flag, nothing else of a stream. */
  ghost predicate SendOnly(a: seq<Lane>, b: seq<Lane>) {
    |a| == |b| && forall i | 0 <= i < |a| :: b[i] == a[i].(send := b[i].send, writeBlocked := b[i].writeBlocked)
  }

  lemma SendOnlyAt(ls: seq<Lane>, i: nat, l: Lane)
    requires i < |ls| && l == ls[i].(send := l.send, writeBlocked := l.writeBlocked)
    ensures SendOnly(ls, ls[i := l])
  {
  }

  lemma SendOnlyRefl(ls: seq<Lane>)
    ensures SendOnly(ls, ls)
  {
  }

  lemma SendOnlyTrans(a: seq<Lane>, b: seq<Lane>, c: seq<Lane>)
    requires SendOnly(a, b) && SendOnly(b, c)
    ensures SendOnly(a, c)
  {
  }

  /** A flagged stream is released when its send buffer has room, or when it has no handle any more. */
  predicate Releasable(l: Lane, room: bool) { l.tracked && l.writeBlocked && (l.qstream.None? || room) }

  /** The full scan over the stream table; `room(i)` is QUIC's answer for the i-th stream. */
  function Scan(ls: seq<Lane>, room: nat -> bool): (r: seq<Lane>)
    ensures |r| == |ls|
    ensures forall i | 0 <= i < |ls| :: r[i] == if Releasable(ls[i], room(i)) then Unblocked(ls[i]) else ls[i]
  {
    seq(|ls|, i requires 0 <= i < |ls| => if Releasable(ls[i], room(i)) then Unblocked(ls[i]) else ls[i])
  }

  lemma ScanSendOnly(ls: seq<Lane>, room: nat -> bool)
    ensures SendOnly(ls, Scan(ls, room))
  {
  }

  /** After the scan a stream is blocked exactly if it was, and still has a handle without room. */
  lemma ScanFlags(h: H3Session, room: nat -> bool)
    requires h.Ok()
    ensures forall i | 0 <= i < |h.lanes| ::
              Scan(h.lanes, room)[i].writeBlocked <==> h.lanes[i].writeBlocked && h.lanes[i].qstream.Some? && !room(i)
  {
    LedIs(h.limit, h.trail, h.wire, h.View());
    forall i | 0 <= i < |h.lanes|
      ensures Scan(h.lanes, room)[i].writeBlocked <==> h.lanes[i].writeBlocked && h.lanes[i].qstream.Some? && !room(i)
    {
      LaneIn(h.View(), i);
    }
    hide Inv, Led;
  }

  lemma {:induction false} ZeroFlags(ls: seq<Lane>)
    requires CountBlocked(ls) == 0
    ensures forall i | 0 <= i < |ls| :: !ls[i].writeBlocked
  {
    if ls != [] {
      ZeroFlags(ls[1..]);
    }
  }

  /** With the counter at zero the full scan changes nothing, so leaving early is the same. */
  lemma EarlyExitIsFullScan(s: State, room: nat -> bool)
    requires Inv(s) && s.blockedStreams <= 0
    ensures Scan(s.lanes, room) == s.lanes
  {
    ZeroFlags(s.lanes);
  }

  // ---------------------------------------------------------------------------
  // The session object
  // ---------------------------------------------------------------------------

  class H3Session {
    var lanes: seq<Lane>
    var blockedStreams: int
    var pendingFree: seq<Handle>
    var freed: seq<Handle>    // stream handles freed, in order
    var lost: seq<Handle>     // stream handles replaced under a repeated id
    var issued: nat           // stream handles accepted from QUIC
    var ngDead: bool
    var aborted: bool
    var et: EventPc           // where the event thread is in a dispatch
    var tasks: seq<Task>      // the thread pool's
    var activeTasks: int
    var destroyed: bool
    const limit: nat          // response buffer bound of a stream
    var drainCursor: nat
    var goawayDeadline: Option<int>
    ghost var trail: seq<Step>          // every step since the session was created
    ghost var wire: seq<WireEvent>      // what QUIC was given to send, and what it answered
    ghost var log: seq<GoAway.Event>    // what the passes did
    ghost var io: seq<IoEvent>          // what the drain code did with QUIC and nghttp3

    function View(): State
      reads this`lanes, this`blockedStreams, this`pendingFree, this`freed, this`lost, this`issued, this`ngDead,
            this`aborted, this`et, this`tasks, this`activeTasks, this`destroyed
    {
      State(lanes, blockedStreams, pendingFree, freed, lost, issued, ngDead, aborted, et, tasks, activeTasks,
            destroyed, limit)
    }

    /** The session is where its run of the transition system has led, and in order. */
    ghost predicate Ok()
      reads this`lanes, this`blockedStreams, this`pendingFree, this`freed, this`lost, this`issued, this`ngDead,
            this`aborted, this`et, this`tasks, this`activeTasks, this`destroyed, this`trail, this`wire
    {
      Led(limit, trail, wire, View())
    }

    /** The event thread may act: it is not inside a dispatch, and the session is still there. */
    predicate Mine()
      reads this`et, this`destroyed
    {
      et.Idle? && !destroyed
    }

    /** h3_session_create. */
    constructor (bufferLimit: nat)
      requires bufferLimit > 0
      ensures Ok() && Mine() && View() == Init(bufferLimit) && limit == bufferLimit
      ensures trail == [] && log == [] && io == [] && wire == [] && goawayDeadline == None && drainCursor == 0
    {
      lanes, blockedStreams, pendingFree, freed, lost, issued := [], 0, [], [], [], 0;
      ngDead, aborted, et, tasks, activeTasks, destroyed := false, false, Idle, [], 0, false;
      limit, drainCursor, goawayDeadline := bufferLimit, 0, None;
      trail, log, io, wire := [], [], [], [];
    }

    method WorkerMoves(step: Step)
      requires Ok() && WorkerStep(step) && step.t < |tasks| && WorkerEnabled(View(), step)
      modifies this`lanes, this`tasks, this`activeTasks, this`trail
      ensures Ok() && trail == old(trail) + [step] && Worked(old(lanes), lanes)
    {
      hide Inv, Run, Told, Worked, WorkerEnabled, WorkerNext;
      WorkerTouch(View(), step);
      Took(limit, trail, wire, View(), step);
      var next := WorkerNext(View(), step);
      lanes, tasks, activeTasks := next.lanes, next.tasks, next.activeTasks;
      trail := trail + [step];
    }

    /** Whatever the workers do while the event thread does not hold the session lock. */
    method Workers()
      requires Ok()
      modifies this`lanes, this`tasks, this`activeTasks, this`trail
      ensures Ok() && old(trail) <= trail && Handings(trail) == Handings(old(trail)) && Worked(old(lanes), lanes)
    {
      hide Ok, Worked, WorkerEnabled, Handings;
      WorkedRefl(lanes);
      var turns: int := *;
      while turns > 0
        invariant Ok() && old(trail) <= trail && Handings(trail) == Handings(old(trail)) && Worked(old(lanes), lanes)
      {
        var step: Step := *;
        if WorkerStep(step) && step.t < |tasks| && WorkerEnabled(View(), step) {
          ghost var lanes0 := lanes;
          HandingsSnoc(trail, step);
          WorkerMoves(step);
          WorkedTrans(old(lanes), lanes0, lanes);
        }
        turns := turns - 1;
      }
    }

    method UnblockStream(i: nat)
      requires Mine() && Ok() && i < |lanes| && lanes[i].tracked && lanes[i].writeBlocked
      modifies this`lanes, this`blockedStreams, this`trail
      ensures Ok() && trail == old(trail) + [UnblockOne(i)] && lanes == old(lanes)[i := Unblocked(old(lanes)[i])]
    {
      hide Inv, Run, Told, Enabled, Next, Unblocked;
      UnblockShape(View(), i);
      Took(limit, trail, wire, View(), UnblockOne(i));
      lanes := lanes[i := Unblocked(lanes[i])];
      blockedStreams := blockedStreams - 1;
      trail := trail + [UnblockOne(i)];
    }

    /** unblock_writable_streams: the early exit and the scan, against the full scan. */
    method UnblockWritable(room: nat -> bool)
      requires Mine() && Ok()
      modifies this`lanes, this`blockedStreams, this`trail
      ensures Ok() && OwnGrew(old(trail), trail) && Turns(trail) == Turns(old(trail))
      ensures lanes == Scan(old(lanes), room) && SendOnly(old(lanes), lanes)
      ensures forall i | 0 <= i < |lanes| ::
                lanes[i].writeBlocked <==> old(lanes)[i].writeBlocked && old(lanes)[i].qstream.Some? && !room(i)
    {
      ScanSendOnly(lanes, room);
      ScanFlags(this, room);
      hide Led, OwnGrew, Unblocked, Scan, SendOnly, Turns;
      GrewRefl(trail);
      if blockedStreams <= 0 {
        LedIs(limit, trail, wire, View());
        EarlyExitIsFullScan(View(), room);
        return;
      }
      var i := 0;
      while i < |lanes|
        invariant 0 <= i <= |lanes| == |old(lanes)|
        invariant Ok() && OwnGrew(old(trail), trail) && Turns(trail) == Turns(old(trail))
        invariant forall j | 0 <= j < |lanes| :: lanes[j] == if j < i then Scan(old(lanes), room)[j] else old(lanes)[j]
      {
        if Releasable(lanes[i], room(i)) {
          GrewStep(old(trail), trail, UnblockOne(i));
          TurnsSnoc(trail, UnblockOne(i));
          UnblockStream(i);
        }
        i := i + 1;
      }
    }

    /** Free every queued handle, last queued first. */
    method FreeQueued()
      requires Mine() && Ok()
      modifies this`pendingFree, this`freed, this`trail
      ensures Ok() && OwnGrew(old(trail), trail) && Turns(trail) == Turns(old(trail))
      ensures pendingFree == [] && freed == old(freed) + Reverse(old(pendingFree))
    {
      hide Inv, Run, Told, OwnGrew, Enabled, Next, Reverse, Turns;
      GrewRefl(trail);
      ReverseNone();
      while |pendingFree| > 0
        invariant Ok() && OwnGrew(old(trail), trail) && Turns(trail) == Turns(old(trail))
        invariant freed + Reverse(pendingFree) == old(freed) + Reverse(old(pendingFree))
      {
        var n := |pendingFree| - 1;
        FreeShape(View());
        ReverseTurn(freed, pendingFree);
        Took(limit, trail, wire, View(), FreeOne);
        GrewStep(old(trail), trail, FreeOne);
        TurnsSnoc(trail, FreeOne);
        freed := freed + [pendingFree[n]];
        pendingFree := pendingFree[..n];
        trail := trail + [FreeOne];
      }
    }

    /**
     nghttp3_conn_writev_stream. It may pull from any reader it is allowed to, fails, or offers
     the front of some stream's backlog cut into at most 16 buffers; it reports nothing to send
     only when no stream has anything to pull or to offer.
     */
    method Writev() returns (err: bool, found: bool, i: nat, vecs: seq<seq<Wire>>)
      requires Mine() && !ngDead && Ok()
      modifies this`lanes, this`trail
      ensures Ok() && OwnGrew(old(trail), trail) && Turns(trail) == Turns(old(trail))
      ensures SendOnly(old(lanes), lanes) && SameFlags(old(lanes), lanes)
      ensures PullTotal(lanes) < PullTotal(old(lanes)) || lanes == old(lanes)
      ensures !err && !found ==> forall j | 0 <= j < |lanes| :: Quiet(lanes[j].send)
      ensures !err && found ==> i < |lanes| && Offerable(lanes[i].send) && Offered(lanes[i].send.ng.value.outq, vecs)
    {
      hide Ok, SendInv, OwnGrew, Turns;
      GrewRefl(trail);
      i, vecs, found := 0, [], false;
      err := *;
      if err {
        return;
      }
      while true
        invariant Ok() && OwnGrew(old(trail), trail) && Turns(trail) == Turns(old(trail))
        invariant SendOnly(old(lanes), lanes) && SameFlags(old(lanes), lanes)
        invariant PullTotal(lanes) < PullTotal(old(lanes)) || lanes == old(lanes)
        decreases PullTotal(lanes)
      {
        var stop: bool := *;
        if stop && exists o :: 0 <= o < |lanes| && Offerable(lanes[o].send) {
          break;
        }
        ghost var lanes0, trail0 := lanes, trail;
        if j :| 0 <= j < |lanes| && Pullable(lanes[j].send) {
          PullOne(j);
          SendOnlyTrans(old(lanes), lanes0, lanes);
          GrewTrans(old(trail), trail0, trail);
        } else {
          break;
        }
      }
      if o :| 0 <= o < |lanes| && Offerable(lanes[o].send) {
        i, found := o, true;
        vecs := Cut(lanes[i].send.ng.value.outq);
      }
    }

    /** nghttp3 calls one data reader. */
    method PullOne(j: nat)
      requires Mine() && !ngDead && Ok() && j < |lanes| && Pullable(lanes[j].send)
      modifies this`lanes, this`trail
      ensures Ok() && OwnGrew(old(trail), trail) && Turns(trail) == Turns(old(trail))
      ensures SendOnly(old(lanes), lanes) && SameFlags(old(lanes), lanes)
      ensures PullTotal(lanes) < PullTotal(old(lanes))
    {
      hide Inv, Run, Told, PullTotal, SendOnly, Next, Enabled, Pull, OwnGrew, Turns;
      var veccnt: int := *;
      var frames: int := *;
      if veccnt <= 0 {
        veccnt := 1;
      }
      if frames < 0 {
        frames := 0;
      }
      PullShape(View(), j, veccnt, frames);
      PullTotals(lanes, j, veccnt, frames);
      var pulled := lanes[j].(send := Pull(lanes[j].send, veccnt, frames));
      Took(limit, trail, wire, View(), PullFrom(j, veccnt, frames));
      GrewRefl(trail);
      GrewStep(trail, trail, PullFrom(j, veccnt, frames));
      TurnsSnoc(trail, PullFrom(j, veccnt, frames));
      trail := trail + [PullFrom(j, veccnt, frames)];
      lanes := lanes[j := pulled];
    }

    /** SSL_write_ex: part of the buffer, or nothing, and then it may want to be asked again. */
    method SslWrite(i: nat, buf: seq<Wire>) returns (w: nat, want: bool)
      modifies this`wire
      ensures w <= |buf| && wire == old(wire) + [Ssl(i, buf, buf[..w], want)]
    {
      w, want := *, *;
      if w > |buf| {
        w := |buf|;
      }
      wire := wire + [Ssl(i, buf, buf[..w], want)];
    }

    /** SSL_stream_conclude. */
    method SslConclude(i: nat)
      modifies this`wire
      ensures wire == old(wire) + [Conclude(i)]
    {
      wire := wire + [Conclude(i)];
    }

    /** h3q_stream_write over buffers that are not empty. */
    method StreamWrite(i: nat, vecs: seq<seq<Wire>>, fin: bool) returns (res: WriteResult, ghost events: seq<WireEvent>)
      requires forall k | 0 <= k < |vecs| :: vecs[k] != []
      modifies this`wire
      ensures wire == old(wire) + events && WroteAs(i, vecs, fin, events, res)
    {
      hide TakenFor, FailedFor, ConcludedFor, WroteAs, WroteWhole, Flatten;
      var expected := Expected(vecs);
      var taken: seq<Wire> := [];
      var blocked, broken := false, false;
      events := [];
      WroteNone(i, vecs);
      var k := 0;
      while k < |vecs|
        invariant 0 <= k <= |vecs| && !blocked && !broken
        invariant wire == old(wire) + events && taken == Flatten(vecs[..k]) && WroteWhole(i, vecs, k, events)
      {
        var w, want := SslWrite(i, vecs[k]);
        WroteMore(i, vecs, fin, k, events, w, want);
        events := events + [Ssl(i, vecs[k], vecs[k][..w], want)];
        if w == 0 {
          assert taken + vecs[k][..w] == taken;
          blocked, broken := want, !want;
          break;
        }
        taken := taken + vecs[k][..w];
        if w < |vecs[k]| {
          blocked := true;
          break;
        }
        k := k + 1;
      }
      res := WriteResult(taken, blocked, broken, false);
      if !blocked && !broken {
        assert vecs[..k] == vecs;
        WroteAll(i, vecs, fin, events);
      }
      if fin && !blocked && !broken && |taken| == expected {
        SslConclude(i);
        events := events + [Conclude(i)];
        res := res.(concluded := true);
      }
    }

    /**
     What flush_nghttp3 does with one offer. Each turn sends or drops bytes, finishes a fin, or
     blocks one more stream.
     */
    method SendOffer(i: nat, vecs: seq<seq<Wire>>) returns (ghost t: Turn)
      requires Mine() && !ngDead && Ok()
      requires i < |lanes| && Offerable(lanes[i].send) && Offered(lanes[i].send.ng.value.outq, vecs)
      modifies this`lanes, this`blockedStreams, this`trail, this`wire
      ensures Ok() && SendOnly(old(lanes), lanes) && lanes == old(lanes)[i := lanes[i]]
      ensures PullTotal(lanes) == PullTotal(old(lanes)) && WriteTotal(lanes) < WriteTotal(old(lanes))
      ensures TurnOk(t) && t.stream == i && t.vecs == vecs && t.held == HasStream(old(lanes)[i])
      ensures var g := old(lanes)[i].send.ng.value; t.fin == (g.ended && |Flatten(vecs)| == |g.outq|)
      ensures trail == old(trail) + [StepOf(t)] && wire == old(wire) + t.events
      ensures lanes[i].writeBlocked == (old(lanes)[i].writeBlocked || (t.held && t.res.blocked))
    {
      hide Led, PullTotal, WriteTotal, SendOnly, WroteAs, TurnLane, Swallow;
      var l := lanes[i];
      var expected := |Flatten(vecs)|;
      if HasStream(l) {
        t := WriteOffer(i, vecs);
        return;
      }
      // The stream is gone: swallow its queued bytes.
      OfferSize(l.send.ng.value.outq, vecs);
      SwallowedIs(l, expected);
      Settle(i, expected, expected, Taken, l.(send := Swallow(l.send, expected)), wire, []);
      var fin := l.send.ng.value.ended && expected == |l.send.ng.value.outq|;
      t := Turn(i, false, vecs, fin, WriteResult([], false, false, false), []);
    }

    /** The write of an offer, and what is told nghttp3 of it. */
    method WriteOffer(i: nat, vecs: seq<seq<Wire>>) returns (ghost t: Turn)
      requires Mine() && !ngDead && Ok() && i < |lanes| && HasStream(lanes[i])
      requires Offerable(lanes[i].send) && Offered(lanes[i].send.ng.value.outq, vecs)
      modifies this`lanes, this`blockedStreams, this`trail, this`wire
      ensures Ok() && SendOnly(old(lanes), lanes) && lanes == old(lanes)[i := lanes[i]]
      ensures PullTotal(lanes) == PullTotal(old(lanes)) && WriteTotal(lanes) < WriteTotal(old(lanes))
      ensures TurnOk(t) && t.stream == i && t.vecs == vecs && t.held
      ensures var g := old(lanes)[i].send.ng.value; t.fin == (g.ended && |Flatten(vecs)| == |g.outq|)
      ensures trail == old(trail) + [StepOf(t)] && wire == old(wire) + t.events
      ensures lanes[i].writeBlocked == (old(lanes)[i].writeBlocked || t.res.blocked)
    {
      hide Led, PullTotal, WriteTotal, SendOnly, WroteAs, TurnLane, Moved, AnsweredAs, Flatten, Possible, Offered;
      var l := lanes[i];
      var expected := |Flatten(vecs)|;
      var fin := l.send.ng.value.ended && expected == |l.send.ng.value.outq|;
      ghost var wire0 := wire;
      OfferSize(l.send.ng.value.outq, vecs);
      var res;
      ghost var events;
      res, events := StreamWrite(i, vecs, fin);
      t := Turn(i, true, vecs, fin, res, events);
      WroteAnswers(l, i, vecs, fin, events, res);
      MovedIs(l, expected, res);
      Settle(i, expected, |res.taken|, Outcome(res), Moved(l, expected, res), wire0, events);
    }

    /** Write a stream back after its turn, and count it if it has just been flagged. */
    method Settle(i: nat, m: nat, accepted: nat, out: WriteOutcome, l: Lane, ghost wire0: seq<WireEvent>,
                  ghost events: seq<WireEvent>)
      requires Mine() && !ngDead && Led(limit, trail, wire0, View()) && wire == wire0 + events
      requires i < |lanes| && Offerable(lanes[i].send) && Possible(m, accepted, out)
      requires m <= |lanes[i].send.ng.value.outq| && (m > 0 || lanes[i].send.ng.value.outq == [])
      requires l == TurnLane(lanes[i], m, accepted, out) && AnsweredAs(lanes[i], i, m, accepted, out, events)
      modifies this`lanes, this`blockedStreams, this`trail
      ensures Ok() && SendOnly(old(lanes), lanes)
      ensures trail == old(trail) + [WriteTurn(i, m, accepted, out)] && lanes == old(lanes)[i := l]
      ensures PullTotal(lanes) == PullTotal(old(lanes)) && WriteTotal(lanes) < WriteTotal(old(lanes))
    {
      hide Inv, Run, Told, SendOnly, PullTotal, WriteTotal, TurnLane, Enabled, Next, AnsweredAs;
      TurnShape(View(), i, m, accepted, out);
      TurnTotals(View(), i, m, accepted, out);
      TookTurn(limit, trail, wire0, View(), WriteTurn(i, m, accepted, out), events);
      trail := trail + [WriteTurn(i, m, accepted, out)];
      if l.writeBlocked && !lanes[i].writeBlocked {
        blockedStreams := blockedStreams + 1;
      }
      lanes := lanes[i := l];
    }

    /** nghttp3 reported an error on the connection. */
    method Die()
      requires Mine() && Ok()
      modifies this`ngDead, this`trail
      ensures Ok() && ngDead && trail == old(trail) + [MarkDead]
    {
      hide Inv, Run, Told;
      Took(limit, trail, wire, View(), MarkDead);
      trail := trail + [MarkDead];
      ngDead := true;
    }

    /**
     flush_nghttp3. It terminates whatever QUIC accepts, does nothing on a dead connection, and
     when it comes back live no stream has anything left to pull or to send except those that
     flow control holds back; every queued handle has been freed. Its turns are the writes QUIC was
     asked for and answered, and a stream it leaves blocked has no room or was blocked by one of them.
     */
    method Flush(room: nat -> bool) returns (ghost turns: seq<Turn>)
      requires Mine() && Ok()
      modifies this`lanes, this`blockedStreams, this`pendingFree, this`freed, this`ngDead, this`trail, this`wire
      ensures Ok() && OwnGrew(old(trail), trail) && SendOnly(old(lanes), lanes)
      ensures old(ngDead) ==> trail == old(trail) && lanes == old(lanes) && ngDead && turns == []
      ensures !old(ngDead) ==> pendingFree == [] && freed == old(freed) + Reverse(old(pendingFree))
      ensures !ngDead ==> forall i | 0 <= i < |lanes| :: Quiet(lanes[i].send)
      ensures Turns(trail) == Turns(old(trail)) + StepsOf(turns) && wire == old(wire) + EventsOf(turns)
      ensures forall k | 0 <= k < |turns| :: TurnOk(turns[k])
      ensures !old(ngDead) ==> BlockedWhy(old(lanes), lanes, room, turns)
    {
      hide Ok, PullTotal, WriteTotal, Quiet, Sent, SendOnly, OwnGrew, Turns, SameFlags;
      turns := [];
      SendOnlyRefl(lanes);
      GrewRefl(trail);
      if ngDead {
        SentNothing(lanes, trail, wire, room);
        return;
      }
      UnblockFlags(this, room);
      UnblockWritable(room);
      SentUnblocked(old(lanes), lanes, old(trail), trail, wire, room);
      while true
        invariant Mine() && !ngDead && Ok() && Sent(old(lanes), lanes, old(trail), trail, old(wire), wire, room, turns)
        invariant pendingFree == old(pendingFree) && freed == old(freed)
        decreases PullTotal(lanes), WriteTotal(lanes)
      {
        ghost var lanes0, trail0 := lanes, trail;
        var err, found, i, vecs := Writev();
        SentPulled(old(lanes), lanes0, lanes, old(trail), trail0, trail, old(wire), wire, room, turns);
        if err {
          SentStep(old(lanes), lanes, old(trail), trail, old(wire), wire, room, turns, MarkDead);
          Die();
          break;
        }
        if !found {
          break;
        }
        lanes0, trail0 := lanes, trail;
        ghost var wire0 := wire;
        ghost var t := SendOffer(i, vecs);
        SentTurn(old(lanes), lanes0, lanes, old(trail), trail0, old(wire), wire0, room, turns, t);
        turns := turns + [t];
      }
      ghost var trail1 := trail;
      FreeQueued();
      SendOnlyRefl(lanes);
      FlagsRefl(lanes);
      SentPulled(old(lanes), lanes, lanes, old(trail), trail1, trail, old(wire), wire, room, turns);
      SentIs(old(lanes), lanes, old(trail), trail, old(wire), wire, room, turns);
    }
  }

  // ---------------------------------------------------------------------------
  // What a flush has sent so far
  // ---------------------------------------------------------------------------

  /** From table, run and log as they were to as they are, by these turns. */
  ghost predicate Sent(a: seq<Lane>, b: seq<Lane>, trail: seq<Step>, trail': seq<Step>, wire: seq<WireEvent>,
                       wire': seq<WireEvent>, room: nat -> bool, turns: seq<Turn>)
  {
    && SendOnly(a, b) && OwnGrew(trail, trail')
    && Turns(trail') == Turns(trail) + StepsOf(turns) && wire' == wire + EventsOf(turns)
    && (forall k | 0 <= k < |turns| :: TurnOk(turns[k]))
    && BlockedWhy(a, b, room, turns)
  }

  lemma SentIs(a: seq<Lane>, b: seq<Lane>, trail: seq<Step>, trail': seq<Step>, wire: seq<WireEvent>,
               wire': seq<WireEvent>, room: nat -> bool, turns: seq<Turn>)
    requires Sent(a, b, trail, trail', wire, wire', room, turns)
    ensures SendOnly(a, b) && OwnGrew(trail, trail')
    ensures Turns(trail') == Turns(trail) + StepsOf(turns) && wire' == wire + EventsOf(turns)
    ensures (forall k | 0 <= k < |turns| :: TurnOk(turns[k])) && BlockedWhy(a, b, room, turns)
  {
  }

  lemma SentNothing(ls: seq<Lane>, trail: seq<Step>, wire: seq<WireEvent>, room: nat -> bool)
    ensures Turns(trail) == Turns(trail) + StepsOf([]) && wire == wire + EventsOf([])
  {
  }

  lemma SentUnblocked(a: seq<Lane>, b: seq<Lane>, trail: seq<Step>, trail': seq<Step>, wire: seq<WireEvent>,
                      room: nat -> bool)
    requires SendOnly(a, b) && OwnGrew(trail, trail') && Turns(trail') == Turns(trail) && BlockedWhy(a, b, room, [])
    ensures Sent(a, b, trail, trail', wire, wire, room, [])
  {
    hide SendOnly, OwnGrew, Turns, BlockedWhy;
  }

  /** nghttp3 pulled, or handles were freed: no turn, and no flag changed. */
  lemma SentPulled(a: seq<Lane>, b: seq<Lane>, c: seq<Lane>, trail: seq<Step>, mid: seq<Step>, trail': seq<Step>,
                   wire: seq<WireEvent>, wire': seq<WireEvent>, room: nat -> bool, turns: seq<Turn>)
    requires Sent(a, b, trail, mid, wire, wire', room, turns)
    requires SendOnly(b, c) && SameFlags(b, c) && OwnGrew(mid, trail') && Turns(trail') == Turns(mid)
    ensures Sent(a, c, trail, trail', wire, wire', room, turns)
  {
    SendOnlyTrans(a, b, c);
    GrewTrans(trail, mid, trail');
    WhySame(a, b, c, room, turns);
    hide SendOnly, OwnGrew, Turns, BlockedWhy;
  }

  lemma SentStep(a: seq<Lane>, b: seq<Lane>, trail: seq<Step>, mid: seq<Step>, wire: seq<WireEvent>,
                 wire': seq<WireEvent>, room: nat -> bool, turns: seq<Turn>, step: Step)
    requires Sent(a, b, trail, mid, wire, wire', room, turns) && step.MarkDead?
    ensures Sent(a, b, trail, mid + [step], wire, wire', room, turns)
  {
    GrewStep(trail, mid, step);
    TurnsSnoc(mid, step);
    hide SendOnly, OwnGrew, Turns, BlockedWhy;
  }

  lemma SentTurn(a: seq<Lane>, b: seq<Lane>, c: seq<Lane>, trail: seq<Step>, mid: seq<Step>,
                 wire: seq<WireEvent>, wire': seq<WireEvent>, room: nat -> bool, turns: seq<Turn>, t: Turn)
    requires Sent(a, b, trail, mid, wire, wire', room, turns) && SendOnly(b, c) && TurnOk(t)
    requires t.stream < |b| && |c| == |b| && c == b[t.stream := c[t.stream]]
    requires c[t.stream].writeBlocked == (b[t.stream].writeBlocked || (t.held && t.res.blocked))
    ensures Sent(a, c, trail, mid + [StepOf(t)], wire, wire' + t.events, room, turns + [t])
  {
    hide SendOnly, OwnGrew, Turns, BlockedWhy, TurnOk, StepsOf, EventsOf, StepOf;
    SendOnlyTrans(a, b, c);
    GrewTurn(trail, mid, t);
    StepsSnoc(turns, t);
    EventsSnoc(turns, t);
    WhyTurn(a, b, c, room, turns, t);
  }

  lemma GrewTurn(trail: seq<Step>, mid: seq<Step>, t: Turn)
    requires OwnGrew(trail, mid)
    ensures OwnGrew(trail, mid + [StepOf(t)]) && Turns(mid + [StepOf(t)]) == Turns(mid) + [StepOf(t)]
  {
    GrewStep(trail, mid, StepOf(t));
    TurnsSnoc(mid, StepOf(t));
  }

  lemma FlagsRefl(ls: seq<Lane>)
    ensures SameFlags(ls, ls)
  {
  }

  /** What a call of h3q_stream_write expects to send. */
  method Expected(vecs: seq<seq<Wire>>) returns (expected: nat)
    ensures expected == |Flatten(vecs)|
  {
    expected := 0;
    var k := 0;
    while k < |vecs|
      invariant 0 <= k <= |vecs| && expected == |Flatten(vecs[..k])|
    {
      assert vecs[..k + 1] == vecs[..k] + [vecs[k]];
      FlattenSnoc(vecs[..k], vecs[k]);
      expected := expected + |vecs[k]|;
      k := k + 1;
    }
    assert vecs[..k] == vecs;
  }

  /** The buffers up to the k-th and any front of it are a front of all of them, and a proper one if it stops short. */
  lemma PrefixOf(vecs: seq<seq<Wire>>, k: nat)
    requires k < |vecs|
    ensures Flatten(vecs[..k + 1]) == Flatten(vecs[..k]) + vecs[k]
    ensures Flatten(vecs[..k]) + vecs[k] <= Flatten(vecs)
    ensures forall w | 0 <= w <= |vecs[k]| :: Flatten(vecs[..k]) + vecs[k][..w] <= Flatten(vecs)
  {
    assert vecs[..k + 1] == vecs[..k] + [vecs[k]];
    FlattenSnoc(vecs[..k], vecs[k]);
    FlattenSplit(vecs, k + 1);
  }

  /** The first k buffers were offered and taken whole. */
  ghost predicate WroteWhole(i: nat, vecs: seq<seq<Wire>>, k: nat, events: seq<WireEvent>) {
    && k <= |vecs| && |events| == k && OneByOne(i, vecs, k, events)
    && (forall x | 0 <= x < k :: events[x].taken == vecs[x])
    && TakenFor(events, i) == Flatten(vecs[..k]) && !FailedFor(events, i) && !ConcludedFor(events, i)
  }

  lemma WroteNone(i: nat, vecs: seq<seq<Wire>>)
    ensures WroteWhole(i, vecs, 0, []) && Flatten(vecs[..0]) == []
  {
    LogNone(i);
  }

  /** One buffer more: taken whole, or the call stops with it. */
  lemma WroteMore(i: nat, vecs: seq<seq<Wire>>, fin: bool, k: nat, events: seq<WireEvent>, w: nat, want: bool)
    requires WroteWhole(i, vecs, k, events) && k < |vecs| && vecs[k] != [] && w <= |vecs[k]|
    ensures Flatten(vecs[..k + 1]) == Flatten(vecs[..k]) + vecs[k] && vecs[k][..|vecs[k]|] == vecs[k]
    ensures var more := events + [Ssl(i, vecs[k], vecs[k][..w], want)];
            if w == |vecs[k]| then WroteWhole(i, vecs, k + 1, more)
            else WroteAs(i, vecs, fin, more,
                         WriteResult(Flatten(vecs[..k]) + vecs[k][..w], w > 0 || want, w == 0 && !want, false))
  {
    hide TakenFor, FailedFor, ConcludedFor, Flatten;
    PrefixOf(vecs, k);
    LogSnoc(events, Ssl(i, vecs[k], vecs[k][..w], want), i);
    assert Flatten(vecs[..k]) + vecs[k][..w] <= Flatten(vecs);
  }

  lemma WroteAll(i: nat, vecs: seq<seq<Wire>>, fin: bool, events: seq<WireEvent>)
    requires WroteWhole(i, vecs, |vecs|, events)
    ensures var all := if fin then events + [Conclude(i)] else events;
            WroteAs(i, vecs, fin, all, WriteResult(Flatten(vecs), false, false, fin))
  {
    hide TakenFor, FailedFor, ConcludedFor, Flatten;
    assert vecs[..|vecs|] == vecs;
    LogSnoc(events, Conclude(i), i);
  }

  /** The answers to a write are the answers its turn is about. */
  lemma WroteAnswers(l: Lane, i: nat, vecs: seq<seq<Wire>>, fin: bool, events: seq<WireEvent>, res: WriteResult)
    requires HasStream(l) && Offerable(l.send) && Offered(l.send.ng.value.outq, vecs)
             && WroteAs(i, vecs, fin, events, res)
    requires fin == (l.send.ng.value.ended && |Flatten(vecs)| == |l.send.ng.value.outq|)
    ensures var m, accepted := |Flatten(vecs)|, |res.taken|;
            && m <= |l.send.ng.value.outq| && (m > 0 || l.send.ng.value.outq == [])
            && Possible(m, accepted, Outcome(res)) && AnsweredAs(l, i, m, accepted, Outcome(res), events)
            && accepted <= m && (accepted == m <==> !res.blocked && !res.broken) && !(res.blocked && res.broken)
  {
    hide TakenFor, FailedFor, ConcludedFor, OneByOne;
    var outq := l.send.ng.value.outq;
    assert res.taken == outq[..|res.taken|];
    OfferSize(outq, vecs);
  }

  /** What the three ends of a write make of a stream's entry: broken, blocked, or all taken. */
  function Moved(l: Lane, m: nat, res: WriteResult): Lane
    requires l.send.ng.Some? && |res.taken| <= m <= |l.send.ng.value.outq|
  {
    if res.broken then l.(send := Break(l.send, m, |res.taken|))
    else if res.blocked then l.(send := Block(l.send, |res.taken|, l.writeBlocked), writeBlocked := true)
    else l.(send := Take(l.send, |res.taken|))
  }

  lemma MovedIs(l: Lane, m: nat, res: WriteResult)
    requires HasStream(l) && l.send.ng.Some? && |res.taken| <= m <= |l.send.ng.value.outq|
    requires !(res.blocked && res.broken) && (|res.taken| == m <==> !res.blocked && !res.broken)
    ensures Moved(l, m, res) == TurnLane(l, m, |res.taken|, Outcome(res))
    ensures Moved(l, m, res).writeBlocked == (l.writeBlocked || res.blocked)
  {
    hide Break, Take, Block;
  }

  lemma SwallowedIs(l: Lane, m: nat)
    requires !HasStream(l) && l.send.ng.Some? && m <= |l.send.ng.value.outq|
    ensures TurnLane(l, m, m, Taken) == l.(send := Swallow(l.send, m))
  {
    hide Swallow;
  }

  lemma OfferSize(outq: seq<Wire>, vecs: seq<seq<Wire>>)
    requires Offered(outq, vecs)
    ensures |Flatten(vecs)| <= |outq| && (|Flatten(vecs)| > 0 || outq == [])
    ensures forall k | 0 <= k < |vecs| :: vecs[k] != []
  {
    NotNothing(vecs);
  }

  lemma NotNothing(vecs: seq<seq<Wire>>)
    requires forall k | 0 <= k < |vecs| :: vecs[k] != []
    ensures vecs != [] ==> |Flatten(vecs)| > 0
  {
  }

  // ---------------------------------------------------------------------------
  // Why a stream is blocked
  // ---------------------------------------------------------------------------

  ghost predicate SameFlags(a: seq<Lane>, b: seq<Lane>) {
    |a| == |b| && forall i | 0 <= i < |a| :: b[i].writeBlocked == a[i].writeBlocked
  }

  /**
   A stream is blocked because it was, still has its handle and has no room, or because a write of
   these turns was.
   */
  ghost predicate BlockedWhy(a: seq<Lane>, b: seq<Lane>, room: nat -> bool, turns: seq<Turn>) {
    && |a| == |b|
    && forall i | 0 <= i < |b| && b[i].writeBlocked ::
         (a[i].writeBlocked && a[i].qstream.Some? && !room(i)) || BlockedBy(turns, i)
  }

  lemma UnblockFlags(h: H3Session, room: nat -> bool)
    requires h.Ok()
    ensures BlockedWhy(h.lanes, Scan(h.lanes, room), room, [])
  {
    LedIs(h.limit, h.trail, h.wire, h.View());
    hide Led, Reachable, Told;
    forall i | 0 <= i < |h.lanes| && Scan(h.lanes, room)[i].writeBlocked
      ensures h.lanes[i].writeBlocked && h.lanes[i].qstream.Some? && !room(i)
    {
      LaneIn(h.View(), i);
    }
  }

  lemma WhySame(a: seq<Lane>, b: seq<Lane>, c: seq<Lane>, room: nat -> bool, turns: seq<Turn>)
    requires BlockedWhy(a, b, room, turns) && SameFlags(b, c)
    ensures BlockedWhy(a, c, room, turns)
  {
  }

  lemma WhyTurn(a: seq<Lane>, b: seq<Lane>, c: seq<Lane>, room: nat -> bool, turns: seq<Turn>, t: Turn)
    requires BlockedWhy(a, b, room, turns) && t.stream < |b| && |c| == |b| && c == b[t.stream := c[t.stream]]
    requires c[t.stream].writeBlocked == (b[t.stream].writeBlocked || (t.held && t.res.blocked))
    ensures BlockedWhy(a, c, room, turns + [t])
  {
    forall i | 0 <= i < |c| && c[i].writeBlocked
      ensures (a[i].writeBlocked && a[i].qstream.Some? && !room(i)) || BlockedBy(turns + [t], i)
    {
      if i == t.stream && t.held && t.res.blocked {
        assert (turns + [t])[|turns|] == t;
      } else if BlockedBy(turns, i) {
        var k :| 0 <= k < |turns| && turns[k].stream == i && turns[k].held && turns[k].res.blocked;
        assert (turns + [t])[k] == turns[k];
      }
    }
  }

  /**
   After a flush that came back live, a response that was submitted and not cancelled waits only
   for flow control: unless its stream is flagged write-blocked, everything appended so far has
   been released, its producer has room, and a complete response has been concluded.
   */
  lemma FlushLeavesOnlyBlocked(s: State, i: nat)
    requires Inv(s) && !s.ngDead && i < |s.lanes|
    requires forall j | 0 <= j < |s.lanes| :: Quiet(s.lanes[j].send)
    requires var l := s.lanes[i]; l.send.q.submitted && !l.send.q.cancelled && !l.writeBlocked
    ensures var send := s.lanes[i].send;
            && send.log.released == |send.log.appended| && !Full(send.q)
            && (!send.log.broken ==> BodyOf(send.log.wire) == send.log.appended)
            && (!send.log.broken ==> (send.log.concluded <==> send.q.complete))
  {
    LaneIn(s, i);
    QuietMeansDrained(s.lanes[i].send);
  }

  /** What writev may hand out of a backlog: buffers that are not empty and make up its front. */
  ghost predicate Offered(outq: seq<Wire>, vecs: seq<seq<Wire>>) {
    && |vecs| <= MAX_VECS
    && (forall k | 0 <= k < |vecs| :: vecs[k] != [])
    && Flatten(vecs) <= outq
    && (vecs == [] ==> outq == [])
  }

  method Cut(outq: seq<Wire>) returns (vecs: seq<seq<Wire>>)
    ensures Offered(outq, vecs)
  {
    vecs := [];
    var n := 0;
    while n < |outq| && |vecs| < MAX_VECS
      invariant 0 <= n <= |outq| && |vecs| <= MAX_VECS
      invariant forall k | 0 <= k < |vecs| :: vecs[k] != []
      invariant Flatten(vecs) == outq[..n]
      invariant vecs == [] ==> n == 0
    {
      var w: int := *;
      if !(0 < w <= |outq| - n) {
        w := |outq| - n;
      }
      FlattenSnoc(vecs, outq[n..n + w]);
      vecs := vecs + [outq[n..n + w]];
      n := n + w;
      var stop: bool := *;
      if stop {
        break;
      }
    }
  }
}
