/**
 The event thread's own code around one session: the service pass (mod_http3/src/h3_io.c) and
 destruction (mod_http3/src/h3_session.c). Workers move wherever the source does not hold the
 session lock. Each method is a run of the transition system in `Session`, with their steps in it;
 the pass also follows `GoAway`.
 */
module ServicePass {
  import opened Options
  import opened SendPath
  import opened Session
  import opened SessionSafety
  import opened WireLog
  import opened SessionRun
  import opened StreamIo
  import opened FlushLoop
  import opened DrainRecord
  import opened DrainPass
  import opened StreamIntake
  import opened RequestDispatch
  import GoAway

  // ---------------------------------------------------------------------------
  // The pass
  // ---------------------------------------------------------------------------

  ghost function Ctl(h: H3Session): GoAway.Control
    reads h`aborted, h`goawayDeadline, h`log
  {
    GoAway.Control(h.aborted, h.goawayDeadline, h.log)
  }

  /** What the rest of the world answers one pass. */
  datatype Answers = Answers(
    running: bool,              // thread_running
    setAt: int,                 // the clock, when the deadline is set
    checkedAt: int,             // and when it is checked
    drained: bool,              // nghttp3_conn_is_drained2
    closed: bool,               // h3q_conn_is_closed
    scratchOk: bool,            // memory for the pass
    streams: seq<int>,          // ids of the streams QUIC has opened
    memoryOk: nat -> bool,      // memory for the k-th of them
    poolOk: nat -> bool,        // memory for the k-th dispatch
    slotOk: nat -> bool,        // room in the thread pool for it
    room: nat -> bool,          // room in a stream's send buffer
    bufSize: nat)               // H3StreamBufferSize

  function Seen(inp: Answers, dead: bool, dispatched: nat): GoAway.Input {
    GoAway.Input(inp.running, inp.setAt, inp.checkedAt, inp.drained, inp.closed, inp.scratchOk,
                 |inp.streams|, dead, dispatched)
  }

  /** flush_nghttp3, noted in the log. */
  method FlushNoted(h: H3Session, room: nat -> bool)
    requires h.Mine() && h.Ok()
    modifies h`lanes, h`blockedStreams, h`pendingFree, h`freed, h`ngDead, h`wire, h`trail, h`log
    ensures h.Ok() && OwnGrew(old(h.trail), h.trail) && h.log == old(h.log) + [GoAway.Flush]
    ensures SendOnly(old(h.lanes), h.lanes) && (old(h.ngDead) ==> h.ngDead)
    ensures !h.ngDead ==> forall i | 0 <= i < |h.lanes| :: Quiet(h.lanes[i].send)
  {
    hide H3Session.Ok, OwnGrew, SendOnly, Quiet;
    ghost var turns := h.Flush(room);
    h.log := h.log + [GoAway.Flush];
  }

  /** A call that makes nghttp3 queue a frame on one of its own streams, as the two for GOAWAY do: noted in the log. */
  method QueueOwnFrame(h: H3Session, ghost e: GoAway.Event)
    requires h.Mine() && h.Ok()
    modifies h`lanes, h`trail, h`log
    ensures h.Ok() && OwnGrew(old(h.trail), h.trail) && SendOnly(old(h.lanes), h.lanes)
    ensures h.log == old(h.log) + [e]
  {
    hide Inv, Run, Told, OwnGrew, SendOnly;
    GrewRefl(h.trail);
    SendOnlyRefl(h.lanes);
    var i: int := *;
    var n: int := *;
    if 0 <= i < |h.lanes| && h.lanes[i].tracked && 0 <= n {
      Took(h.limit, h.trail, h.wire, h.View(), OwnFrames(i, n));
      GrewStep(h.trail, h.trail, OwnFrames(i, n));
      SendOnlyAt(h.lanes, i, h.lanes[i].(send := OwnBytes(h.lanes[i].send, n)));
      h.trail := h.trail + [OwnFrames(i, n)];
      h.lanes := h.lanes[i := h.lanes[i].(send := OwnBytes(h.lanes[i].send, n))];
    }
    h.log := h.log + [e];
  }

  /** session->aborted = 1, which takes no lock. */
  method AbortSession(h: H3Session)
    requires h.Mine() && h.Ok()
    modifies h`aborted, h`trail
    ensures h.Ok() && h.aborted && OwnGrew(old(h.trail), h.trail)
  {
    hide Inv, Run, Told;
    Took(h.limit, h.trail, h.wire, h.View(), Abort);
    h.trail := h.trail + [Abort];
    h.aborted := true;
  }

  /** A locked section of the shutdown part: perhaps a frame of nghttp3's own, then a flush. */
  method SendLast(h: H3Session, frame: bool, ghost e: GoAway.Event, room: nat -> bool)
    requires h.Mine() && h.Ok()
    modifies h`lanes, h`blockedStreams, h`pendingFree, h`freed, h`ngDead, h`wire, h`trail, h`log
    ensures h.Ok() && Handings(h.trail) == Handings(old(h.trail)) && Entries(h.lanes) == Entries(old(h.lanes))
    ensures KeepsWhole(h.limit, old(h.trail), h.trail)
    ensures h.log == old(h.log) + if frame then [e, GoAway.Flush] else [GoAway.Flush]
  {
    hide H3Session.Ok, OwnGrew, Handings, SendOnly, ReservedWhole;
    SendOnlyRefl(h.lanes);
    GrewRefl(h.trail);
    if frame {
      QueueOwnFrame(h, e);
    }
    ghost var lanes0, trail0 := h.lanes, h.trail;
    FlushNoted(h, room);
    SendOnlyTrans(old(h.lanes), lanes0, h.lanes);
    GrewTrans(old(h.trail), trail0, h.trail);
    HandingsSame(old(h.trail), h.trail);
    GrewKeeps(h.limit, old(h.trail), h.trail);
    EntriesSent(old(h.lanes), h.lanes);
    assert [e] + [GoAway.Flush] == [e, GoAway.Flush];
  }

  lemma EntriesSent(a: seq<Lane>, b: seq<Lane>)
    requires SendOnly(a, b)
    ensures Entries(b) == Entries(a)
  {
  }

  /** Workers, while the event thread holds no lock. */
  method LetWork(h: H3Session)
    requires h.Ok()
    modifies h`lanes, h`tasks, h`activeTasks, h`trail
    ensures h.Ok() && Handings(h.trail) == Handings(old(h.trail)) && Entries(h.lanes) == Entries(old(h.lanes))
    ensures KeepsWhole(h.limit, old(h.trail), h.trail)
  {
    hide H3Session.Ok, Handings, Worked, Entries, ReservedWhole;
    h.Workers();
    KeepsSame(h.limit, old(h.trail), h.trail);
    EntriesWorked(old(h.lanes), h.lanes);
  }

  /** The GOAWAY part of a pass while the server stops. */
  method Wind(h: H3Session, inp: Answers) returns (expired: bool)
    requires h.Mine() && h.Ok() && !h.aborted
    modifies h`lanes, h`blockedStreams, h`pendingFree, h`freed, h`ngDead, h`wire, h`tasks, h`activeTasks,
             h`trail, h`log, h`aborted, h`goawayDeadline
    ensures h.Ok() && Handings(h.trail) == Handings(old(h.trail)) && Entries(h.lanes) == Entries(old(h.lanes))
    ensures KeepsWhole(h.limit, old(h.trail), h.trail)
    ensures var noticed := GoAway.Notify(old(Ctl(h)), inp.setAt);
            && expired == GoAway.Expired(noticed, Seen(inp, false, 0))
            && Ctl(h) == if expired
                         then noticed.(aborted := true, log := noticed.log + [GoAway.FinalShutdown, GoAway.Flush])
                         else noticed
  {
    hide H3Session.Ok, Handings, Entries, OwnGrew, ReservedWhole;
    SendLast(h, h.goawayDeadline.None?, GoAway.Notice, inp.room);
    LetWork(h);
    if h.goawayDeadline.None? {
      h.goawayDeadline := Some(inp.setAt + GoAway.GOAWAY_GRACE);
    }
    assert Ctl(h) == GoAway.Notify(old(Ctl(h)), inp.setAt);
    expired := inp.drained || inp.checkedAt >= h.goawayDeadline.value;
    if expired {
      SendLast(h, true, GoAway.FinalShutdown, inp.room);
        LetWork(h);
        ghost var trail0 := h.trail;
      AbortSession(h);
      HandingsSame(trail0, h.trail);
      GrewKeeps(h.limit, trail0, h.trail);
    }
  }

  /** The locked section that reads and writes: drain_ready_streams, then flush_nghttp3. */
  method ReadAndSend(h: H3Session, bufSize: nat, room: nat -> bool) returns (completed: seq<nat>, ghost pass: Pass)
    requires h.Mine() && h.Ok()
    modifies h`lanes, h`blockedStreams, h`pendingFree, h`freed, h`ngDead, h`drainCursor, h`wire, h`trail, h`io, h`log
    ensures h.Ok() && Handings(h.trail) == Handings(old(h.trail)) && KeepsWhole(h.limit, old(h.trail), h.trail)
    ensures PassFrom(pass, old(h.lanes), bufSize, old(h.drainCursor), h.drainCursor) && (!h.ngDead ==> pass.live)
    ensures h.io == old(h.io) + IoOf(pass.visits)
    ensures completed == Hits(pass.snapshot, pass.visits)
    ensures forall x, y | 0 <= x < y < |completed| :: completed[x] != completed[y]
    ensures Undispatched(h.lanes, completed, 0) && AllWhole(h.lanes, completed, 0)
    ensures h.log == old(h.log) + [GoAway.Drain, GoAway.Flush]
  {
    hide H3Session.Ok, OwnGrew, Handings, PassOk, Hits, IoOf, FoundFrom, ReservedWhole;
    completed, pass := DrainReadyStreams(h, bufSize);
    h.log := h.log + [GoAway.Drain];
    ghost var lanes0, trail0 := h.lanes, h.trail;
    FlushNoted(h, room);
    GrewTrans(old(h.trail), trail0, h.trail);
    HandingsSame(old(h.trail), h.trail);
    GrewKeeps(h.limit, old(h.trail), h.trail);
    forall x | 0 <= x < |completed|
      ensures completed[x] < |h.lanes| && WholeRequest(h.lanes[completed[x]])
    {
      assert Dispatchable(lanes0, completed[x]);
    }
    assert old(h.log) + [GoAway.Drain] + [GoAway.Flush] == old(h.log) + [GoAway.Drain, GoAway.Flush];
  }

  /** A drain pass over the streams these are, from one cursor to the next. */
  ghost predicate PassFrom(p: Pass, ls: seq<Lane>, bufSize: nat, cursor: nat, next: nat) {
    && PassOk(p) && p.bufSize == bufSize && p.cursor == cursor && p.next == next
    && (forall i :: i in p.snapshot <==> 0 <= i < |ls| && ls[i].tracked)
    && FoundFrom(ls, p.snapshot, p.visits)
  }

  /**
   What a pass came to. `before` is the table when it began to accept, `table` when it began to read;
   `dead` says the connection was dead when it would have dispatched.
   */
  datatype Work = Skipped | Did(before: seq<Lane>, table: seq<Lane>, pass: Pass, dead: bool, outs: seq<Dispatch>)

  function Dispatched(w: Work): nat { if w.Did? then |Hits(w.pass.snapshot, w.pass.visits)| else 0 }

  /** A pass that worked took in the streams, drained them once, and dispatched exactly what it found complete. */
  ghost predicate WorkOk(w: Work, inp: Answers, first: Handle, limit: nat, cursor: nat, next: nat) {
    if w.Skipped? then next == cursor
    else
      && TookIn(w.before, w.table, limit)
      && Entries(w.table) == IntakeBy(w.before, inp, first).entries
      && PassFrom(w.pass, w.table, inp.bufSize, cursor, next)
      && (if w.dead then w.outs == []
          else w.pass.live && |w.outs| == Dispatched(w) && AsAllowed(w.outs, inp.poolOk, inp.slotOk))
  }

  /** What a pass takes in, from a table of streams and the next handle on. */
  function IntakeBy(before: seq<Lane>, inp: Answers, first: Handle): Intake {
    TakeAll(Intake(Entries(before), [], [], first), inp.streams, inp.memoryOk)
  }

  ghost function LostBy(w: Work, inp: Answers, first: Handle): seq<Handle> {
    if w.Did? then IntakeBy(w.before, inp, first).lost else []
  }

  ghost function HandedBy(w: Work): seq<Step> {
    if w.Did? && |w.outs| <= Dispatched(w) then Dispatchings(Hits(w.pass.snapshot, w.pass.visits), w.outs) else []
  }

  ghost function IoBy(w: Work): seq<IoEvent> { if w.Did? then IoOf(w.pass.visits) else [] }

  /** The last part of a pass: dispatch what was found complete, and flush. */
  method DispatchAndSend(h: H3Session, completed: seq<nat>, inp: Answers) returns (outs: seq<Dispatch>)
    requires h.Mine() && h.Ok() && Undispatched(h.lanes, completed, 0)
    requires forall x, y | 0 <= x < y < |completed| :: completed[x] != completed[y]
    modifies h`lanes, h`blockedStreams, h`pendingFree, h`freed, h`ngDead, h`et, h`tasks, h`activeTasks,
             h`wire, h`trail, h`log
    ensures h.Mine() && h.Ok()
    ensures |outs| == |completed| && AsAllowed(outs, inp.poolOk, inp.slotOk)
    ensures Handings(h.trail) == Handings(old(h.trail)) + Dispatchings(completed, outs)
    ensures h.log == old(h.log) + GoAway.Times(GoAway.Dispatch, |completed|) + [GoAway.Flush]
    ensures AllWhole(old(h.lanes), completed, 0) ==> KeepsWhole(h.limit, old(h.trail), h.trail)
    ensures !h.ngDead ==> forall i | 0 <= i < |h.lanes| :: Quiet(h.lanes[i].send)
  {
    hide H3Session.Ok, OwnGrew, Handings, Dispatchings, AsAllowed, Quiet, SendOnly, ReservedWhole, AllWhole;
    outs := DispatchAll(h, completed, inp.poolOk, inp.slotOk);
    ghost var lanes0 := h.lanes;
    LetWork(h);
    lanes0 := h.lanes;
    ghost var trail0 := h.trail;
    FlushNoted(h, inp.room);
    HandingsSame(trail0, h.trail);
    GrewKeeps(h.limit, trail0, h.trail);
  }

  /** Take in what QUIC has opened, read, and write. */
  method AcceptAndRead(h: H3Session, inp: Answers)
    returns (completed: seq<nat>, ghost table: seq<Lane>, ghost pass: Pass)
    requires h.Mine() && h.Ok()
    modifies h`lanes, h`blockedStreams, h`pendingFree, h`freed, h`lost, h`issued, h`ngDead, h`wire, h`tasks,
             h`activeTasks, h`drainCursor, h`trail, h`io, h`log
    ensures h.Ok() && Handings(h.trail) == Handings(old(h.trail)) && KeepsWhole(h.limit, old(h.trail), h.trail)
    ensures TookIn(old(h.lanes), table, h.limit)
    ensures var taken := IntakeBy(old(h.lanes), inp, old(h.issued));
            Entries(table) == taken.entries && h.lost == old(h.lost) + taken.lost
    ensures PassFrom(pass, table, inp.bufSize, old(h.drainCursor), h.drainCursor) && (!h.ngDead ==> pass.live)
    ensures h.io == old(h.io) + IoOf(pass.visits)
    ensures completed == Hits(pass.snapshot, pass.visits)
    ensures forall x, y | 0 <= x < y < |completed| :: completed[x] != completed[y]
    ensures Undispatched(h.lanes, completed, 0) && AllWhole(h.lanes, completed, 0)
    ensures h.log == old(h.log) + GoAway.Times(GoAway.Accept, |inp.streams|) + [GoAway.Drain, GoAway.Flush]
  {
    hide H3Session.Ok, Handings, TookIn, PassFrom, TakeAll, Hits, IoOf, Entries, Undispatched, Worked, ReservedWhole,
         AllWhole;
    TakeApart(IntakeOf(h), inp.streams, inp.memoryOk);
    AcceptStreams(h, inp.streams, inp.memoryOk);
    ghost var lanes0, trail0 := h.lanes, h.trail;
    h.Workers();
    KeepsSame(h.limit, trail0, h.trail);
    TookInWorked(old(h.lanes), lanes0, h.lanes, h.limit);
    EntriesWorked(lanes0, h.lanes);
    table := h.lanes;
    completed, pass := ReadAndSend(h, inp.bufSize, inp.room);
  }

  /** The part of a pass that accepts, reads, dispatches and writes. */
  method Serve(h: H3Session, inp: Answers) returns (ghost w: Work)
    requires h.Mine() && h.Ok() && !h.aborted
    modifies h
    ensures h.Mine() && h.Ok() && Ctl(h) == GoAway.Work(old(Ctl(h)), Seen(inp, w.Did? && w.dead, Dispatched(w)))
    ensures w.Did? <==> !inp.closed && inp.scratchOk
    ensures WorkOk(w, inp, old(h.issued), h.limit, old(h.drainCursor), h.drainCursor)
            && (w.Did? ==> w.before == old(h.lanes))
    ensures Handings(h.trail) == Handings(old(h.trail)) + HandedBy(w) && h.io == old(h.io) + IoBy(w)
    ensures KeepsWhole(h.limit, old(h.trail), h.trail)
    ensures h.lost == old(h.lost) + LostBy(w, inp, old(h.issued))
    ensures w.Did? && !w.dead && !h.ngDead ==> forall i | 0 <= i < |h.lanes| :: Quiet(h.lanes[i].send)
  {
    hide H3Session.Ok, OwnGrew, Handings, Dispatchings, Quiet, TookIn, PassFrom, IntakeBy, Hits, IoOf, Entries,
         AsAllowed, Undispatched, ReservedWhole, AllWhole;
    w := Skipped;
    ghost var trail0 := h.trail;
    if inp.closed {
      AbortSession(h);
      HandingsSame(trail0, h.trail);
      GrewKeeps(h.limit, trail0, h.trail);
      return;
    }
    if !inp.scratchOk {
      return;
    }
    var completed;
    ghost var table, pass;
    completed, table, pass := AcceptAndRead(h, inp);
    w := Did(old(h.lanes), table, pass, h.ngDead, []);
    ghost var lanes0 := h.lanes;
    if h.ngDead {
      DispatchingsNone(completed);
      LetWork(h);
      trail0 := h.trail;
      AbortSession(h);
      HandingsSame(trail0, h.trail);
      GrewKeeps(h.limit, trail0, h.trail);
      return;
    }
    var outs := DispatchAndSend(h, completed, inp);
    w := w.(outs := outs);
  }

  /** A pass that gets to read: the session is not aborted, not out of time, not closed, and there is memory. */
  ghost predicate Reads(c: GoAway.Control, inp: Answers) {
    && !c.aborted && (inp.running || !GoAway.Expired(GoAway.Notify(c, inp.setAt), Seen(inp, false, 0)))
    && !inp.closed && inp.scratchOk
  }

  /**
   service_session_pass. It follows the control flow in `GoAway` and is a run of the transition
   system, with whatever steps workers take where the lock is free. It does nothing at all once the
   session is aborted; a pass that gets to read drains the streams as `WorkOk` says and dispatches
   exactly what it found complete; and when it gets to its end on a live connection it leaves nothing
   to send that flow control does not hold back.
   */
  method ServiceSession(h: H3Session, inp: Answers) returns (ghost w: Work)
    requires h.Mine() && h.Ok()
    modifies h
    ensures h.Mine() && h.Ok() && Ctl(h) == GoAway.Pass(old(Ctl(h)), Seen(inp, w.Did? && w.dead, Dispatched(w)))
    ensures old(h.aborted) ==> h.trail == old(h.trail) && h.View() == old(h.View())
    ensures w.Did? <==> Reads(old(Ctl(h)), inp)
    ensures WorkOk(w, inp, old(h.issued), h.limit, old(h.drainCursor), h.drainCursor)
    ensures w.Did? ==> Entries(w.before) == Entries(old(h.lanes))
    ensures Handings(h.trail) == Handings(old(h.trail)) + HandedBy(w) && h.io == old(h.io) + IoBy(w)
    ensures KeepsWhole(h.limit, old(h.trail), h.trail)
    ensures h.lost == old(h.lost) + LostBy(w, inp, old(h.issued))
    ensures w.Did? && !w.dead && !h.ngDead ==> forall i | 0 <= i < |h.lanes| :: Quiet(h.lanes[i].send)
  {
    hide H3Session.Ok, Handings, HandedBy, IoBy, Quiet, ReservedWhole, TookIn, IntakeBy, PassFrom, Hits, Entries;
    w := Skipped;
    NothingBy();
    if h.aborted {
      return;
    }
    if !inp.running {
      var expired := Wind(h, inp);
      if expired {
        return;
      }
    }
    w := Serve(h, inp);
  }

  lemma NothingBy()
    ensures HandedBy(Skipped) == [] && IoBy(Skipped) == []
  {
  }

  // ---------------------------------------------------------------------------
  // The life of a session
  // ---------------------------------------------------------------------------

  /** The passes that drained, in order. */
  function PassesOf(works: seq<Work>): seq<Pass> {
    if works == [] then []
    else
      var w := works[|works| - 1];
      PassesOf(works[..|works| - 1]) + if w.Did? then [w.pass] else []
  }

  /** Each drain starts at the cursor the one before it left, whatever passes lie between. */
  ghost predicate Linked(passes: seq<Pass>, cursor: nat, next: nat) {
    && Chained(passes) && (forall k | 0 <= k < |passes| :: PassOk(passes[k]))
    && (if passes == [] then next == cursor else passes[0].cursor == cursor && passes[|passes| - 1].next == next)
  }

  lemma LinkedNext(works: seq<Work>, w: Work, cursor: nat, mid: nat, next: nat, inp: Answers, first: Handle, limit: nat)
    requires Linked(PassesOf(works), cursor, mid) && WorkOk(w, inp, first, limit, mid, next)
    ensures Linked(PassesOf(works + [w]), cursor, next)
  {
    assert (works + [w])[..|works|] == works;
    hide PassOk, TookIn, IntakeBy, Entries, FoundFrom, Dispatched;
  }

  /** What the control flow saw of each pass. */
  function SeenAll(inps: seq<Answers>, works: seq<Work>): (r: seq<GoAway.Input>)
    requires |works| <= |inps|
    ensures |r| == |works|
  {
    seq(|works|, k requires 0 <= k < |works| => Seen(inps[k], works[k].Did? && works[k].dead, Dispatched(works[k])))
  }

  lemma SeenNext(c: GoAway.Control, inps: seq<Answers>, works: seq<Work>, w: Work)
    requires |works| < |inps|
    ensures GoAway.Passes(c, SeenAll(inps, works + [w])) ==
            GoAway.Pass(GoAway.Passes(c, SeenAll(inps, works)), Seen(inps[|works|], w.Did? && w.dead, Dispatched(w)))
  {
    var last := Seen(inps[|works|], w.Did? && w.dead, Dispatched(w));
    assert SeenAll(inps, works + [w]) == SeenAll(inps, works) + [last];
    GoAway.PassesSnoc(c, SeenAll(inps, works), last);
  }

  /**
   Pass after pass over one session, with workers in between: everything proved of runs, of passes
   and of drains holds.
   */
  method ServicePasses(h: H3Session, inps: seq<Answers>) returns (ghost works: seq<Work>)
    requires h.Mine() && h.Ok()
    modifies h
    ensures h.Mine() && h.Ok() && |works| == |inps|
    ensures Ctl(h) == GoAway.Passes(old(Ctl(h)), SeenAll(inps, works))
    ensures Linked(PassesOf(works), old(h.drainCursor), h.drainCursor)
    ensures Handings(h.trail) == Handings(old(h.trail)) + AllHanded(works) && h.io == old(h.io) + AllIo(works)
    ensures KeepsWhole(h.limit, old(h.trail), h.trail)
  {
    hide AllHanded, AllIo, HandedBy, IoBy, ReservedWhole;
    hide H3Session.Ok, Handings, Linked, WorkOk, Worked, PassesOf, SeenAll, Seen, Dispatched;
    works := [];
    AllNone();
    LinkedNone(h.drainCursor);
    SeenNone(Ctl(h), inps);
    var k := 0;
    while k < |inps|
      invariant 0 <= k <= |inps| && h.Mine() && h.Ok() && |works| == k
      invariant Ctl(h) == GoAway.Passes(old(Ctl(h)), SeenAll(inps, works))
      invariant Linked(PassesOf(works), old(h.drainCursor), h.drainCursor)
      invariant Handings(h.trail) == Handings(old(h.trail)) + AllHanded(works) && h.io == old(h.io) + AllIo(works)
      invariant KeepsWhole(h.limit, old(h.trail), h.trail)
    {
      LetWork(h);
      ghost var mid, first := h.drainCursor, h.issued;
      ghost var w := ServiceSession(h, inps[k]);
      AllNext(works, w);
      SeenNext(old(Ctl(h)), inps, works, w);
      LinkedNext(works, w, old(h.drainCursor), mid, h.drainCursor, inps[k], first, h.limit);
      works := works + [w];
      k := k + 1;
    }
  }

  lemma LinkedNone(cursor: nat)
    ensures Linked(PassesOf([]), cursor, cursor)
  {
  }

  /** The dispatches and the reads of all passes. */
  ghost function AllHanded(works: seq<Work>): seq<Step> {
    if works == [] then [] else AllHanded(works[..|works| - 1]) + HandedBy(works[|works| - 1])
  }

  ghost function AllIo(works: seq<Work>): seq<IoEvent> {
    if works == [] then [] else AllIo(works[..|works| - 1]) + IoBy(works[|works| - 1])
  }

  lemma AllNext(works: seq<Work>, w: Work)
    ensures AllHanded(works + [w]) == AllHanded(works) + HandedBy(w) && AllIo(works + [w]) == AllIo(works) + IoBy(w)
  {
    assert (works + [w])[..|works|] == works;
  }

  lemma AllNone()
    ensures AllHanded([]) == [] && AllIo([]) == []
  {
  }

  /**
   Fairness of the code: in any stretch of n drains over the same n streams, on a live connection,
   each stream is come to with reads and bytes left, and drained if it is an open client stream then.
   */
  lemma FairOverPasses(works: seq<Work>, cursor: nat, next: nat, from: nat, snapshot: seq<nat>, j: nat)
    returns (k: nat, o: nat)
    requires Linked(PassesOf(works), cursor, next) && j < |snapshot| && from + |snapshot| <= |PassesOf(works)|
    requires forall x | from <= x < from + |snapshot| ::
               PassesOf(works)[x].snapshot == snapshot && PassesOf(works)[x].live
    ensures from <= k < from + |snapshot| && o < |PassesOf(works)[k].visits|
    ensures var v := PassesOf(works)[k].visits[o];
            && v.index == j && v.purse.readBudget > 0 && v.purse.byteBudget > 0
            && (!v.found.done && v.found.qstream.Some? && !IsServer(v.found.sid) ==>
                  && v.drained && Drained(snapshot[j], v.found, v.left, v.purse, v.io)
                  && (IsBidi(v.left.sid) && v.left.headersComplete && v.left.bodyComplete && !v.left.dispatched ==>
                        snapshot[j] in Hits(snapshot, PassesOf(works)[k].visits)))
  {
    hide PassesOf, PassOk, Hits, Drained;
    var passes := PassesOf(works);
    var window := passes[from..from + |snapshot|];
    forall x, y | 0 <= x && y == x + 1 && y < |window| ensures window[y].cursor == window[x].next {
      assert passes[from + y].cursor == passes[from + x].next;
    }
    var at;
    at, o := FairDrain(window, snapshot, j);
    k := from + at;
  }

  lemma SeenNone(c: GoAway.Control, inps: seq<Answers>)
    ensures GoAway.Passes(c, SeenAll(inps, [])) == c
  {
    assert SeenAll(inps, []) == [];
  }

  // ---------------------------------------------------------------------------
  // The end
  // ---------------------------------------------------------------------------

  /** What is left once nghttp3 is deleted and every stream's response cancelled and cleaned up. */
  method CleanStreams(h: H3Session)
    modifies h`lanes
    ensures h.lanes == DestroyAll(old(h.lanes))
  {
    hide DestroyLane;
    var i := 0;
    while i < |h.lanes|
      invariant 0 <= i <= |h.lanes| == |old(h.lanes)|
      invariant forall j | 0 <= j < |h.lanes| ::
                  h.lanes[j] == if j < i then DestroyLane(old(h.lanes)[j]) else old(h.lanes)[j]
    {
      h.lanes := h.lanes[i := DestroyLane(h.lanes[i])];
      i := i + 1;
    }
  }

  method FreeAll(h: H3Session)
    modifies h`pendingFree, h`freed
    ensures h.pendingFree == [] && h.freed == old(h.freed) + Reverse(old(h.pendingFree))
  {
    while |h.pendingFree| > 0
      invariant h.freed + Reverse(h.pendingFree) == old(h.freed) + Reverse(old(h.pendingFree))
    {
      var n := |h.pendingFree| - 1;
      h.freed := h.freed + [h.pendingFree[n]];
      h.pendingFree := h.pendingFree[..n];
    }
  }

  /** A session no worker is in can be destroyed, and that cleans up every stream in its table. */
  lemma DestroyedClean(s: State)
    requires Inv(s) && !s.destroyed && s.et.Idle? && s.activeTasks == 0
    ensures Enabled(s, Destroy) && Next(s, Destroy) == DestroyNext(s) && s.tasks == []
    ensures forall i | 0 <= i < |s.lanes| ::
              var l := DestroyAll(s.lanes)[i]; l.send.ng.None? && (l.tracked ==> l.send.q.chunks == [])
  {
    hide LanesOk, HandlesOk, BlockedOk;
  }

  /**
   h3_session_destroy, once no worker is left: nghttp3 goes, every response is cancelled and cleaned
   up, and exactly the queued handles are freed.
   */
  method DestroySession(h: H3Session)
    requires h.Mine() && h.Ok() && h.activeTasks == 0
    modifies h`lanes, h`pendingFree, h`freed, h`destroyed, h`trail
    ensures h.Ok() && h.trail == old(h.trail) + [Destroy] && h.destroyed
    ensures h.pendingFree == [] && h.tasks == []
    ensures multiset(h.freed) == multiset(old(h.freed)) + multiset(old(h.pendingFree))
    ensures forall i | 0 <= i < |h.lanes| ::
              h.lanes[i].send.ng.None? && (h.lanes[i].tracked ==> h.lanes[i].send.q.chunks == [])
  {
    hide Inv, Run, Told, Enabled, Next;
    ghost var s0 := h.View();
    DestroyedClean(s0);
    Took(h.limit, h.trail, h.wire, s0, Destroy);
    h.trail := h.trail + [Destroy];
    CleanStreams(h);
    FreeAll(h);
    h.destroyed := true;
    assert h.View() == DestroyNext(s0);
    ReverseSame(old(h.pendingFree));
  }

  /** The event loop's last look at a session: destroyed exactly when aborted, shut down, and without tasks. */
  method Retire(h: H3Session, shutdownDone: bool) returns (gone: bool)
    requires h.Mine() && h.Ok()
    modifies h`lanes, h`pendingFree, h`freed, h`tasks, h`activeTasks, h`destroyed, h`trail
    ensures h.Ok() && gone == h.destroyed && KeepsWhole(h.limit, old(h.trail), h.trail)
    ensures gone ==> h.aborted && shutdownDone && h.tasks == [] && h.activeTasks == 0
    ensures !gone ==> !(h.aborted && shutdownDone && h.activeTasks == 0)
  {
    hide ReservedWhole;
    h.Workers();
    KeepsSame(h.limit, old(h.trail), h.trail);
    gone := h.aborted && shutdownDone && h.activeTasks == 0;
    if gone {
      KeepsSnoc(h.limit, h.trail, Destroy);
      DestroySession(h);
    }
  }

  /**
   A session from creation to whatever its last look brings: always a reachable state, always a control
   flow `GoAway` allows, drains that link up, and destroyed only when no worker is left.
   */
  method SessionLife(bufferLimit: nat, inps: seq<Answers>, shutdownDone: bool)
    returns (h: H3Session, ghost works: seq<Work>)
    requires bufferLimit > 0
    ensures fresh(h) && |works| == |inps| && h.Ok() && Reachable(h.View()) && ReservedWhole(h.limit, h.trail)
    ensures Ctl(h) == GoAway.Passes(GoAway.FRESH, SeenAll(inps, works))
    ensures Linked(PassesOf(works), 0, h.drainCursor)
    ensures h.destroyed ==> h.aborted && h.tasks == [] && h.activeTasks == 0
    ensures forall i | 0 <= i < |h.lanes| && !FailedFor(h.wire, i) && Retrack(i) !in h.trail ::
              ReachedInOrder(h.lanes[i].send, h.wire, i)
  {
    hide Run, Inv, Told, Linked, SeenAll, PassesOf, Reachable, ReachedInOrder, ReservedWhole;
    h := new H3Session(bufferLimit);
    ReservedNone(h.limit);
    works := ServicePasses(h, inps);
    var gone := Retire(h, shutdownDone);
    LedIs(h.limit, h.trail, h.wire, h.View());
    forall i | 0 <= i < |h.lanes| && !FailedFor(h.wire, i) && Retrack(i) !in h.trail
      ensures ReachedInOrder(h.lanes[i].send, h.wire, i)
    {
      SentInOrder(h.limit, h.trail, h.wire, h.View(), i);
    }
  }
}
