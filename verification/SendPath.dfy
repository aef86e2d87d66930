/**
 The send path of one stream: its response queue next to what nghttp3 and QUIC know about
 the stream. Every event below is one atomic section of the source (the session lock is
 held throughout).

 nghttp3 and QUIC are environments. nghttp3 keeps, per stream, the framed bytes it has
 not written yet (`outq`), whether its data reader is parked after WOULDBLOCK, and whether
 the stream is blocked by flow control. Frame bytes are opaque; body bytes are the
 response's own. QUIC records what it accepted (`wire`) and whether the stream was concluded.
 */
module SendPath {
  import opened Options
  import opened ResponseQueue

  /** A byte on the wire: part of a frame header, or a byte of the response body. */
  datatype Wire = Frame | Body(b: Byte)

  function BodyOf(w: seq<Wire>): seq<Byte> {
    if w == [] then []
    else (if w[0].Body? then [w[0].b] else []) + BodyOf(w[1..])
  }

  function Framed(n: nat): (w: seq<Wire>)
    ensures |w| == n && forall i | 0 <= i < n :: w[i] == Frame
  {
    seq(n, i => Frame)
  }

  function AsBody(bytes: seq<Byte>): (w: seq<Wire>)
    ensures |w| == |bytes| && forall i | 0 <= i < |bytes| :: w[i] == Body(bytes[i])
  {
    seq(|bytes|, i requires 0 <= i < |bytes| => Body(bytes[i]))
  }

  lemma {:induction false} BodyOfConcat(a: seq<Wire>, b: seq<Wire>)
    ensures BodyOf(a + b) == BodyOf(a) + BodyOf(b)
  {
    if a == [] {
      assert a + b == b;
    } else {
      assert (a + b)[1..] == a[1..] + b && (a + b)[0] == a[0];
      BodyOfConcat(a[1..], b);
      var first := if a[0].Body? then [a[0].b] else [];
      assert first + (BodyOf(a[1..]) + BodyOf(b)) == first + BodyOf(a[1..]) + BodyOf(b);
    }
  }

  lemma BodyOfSplit(w: seq<Wire>, n: nat)
    requires n <= |w|
    ensures BodyOf(w) == BodyOf(w[..n]) + BodyOf(w[n..])
  {
    assert w == w[..n] + w[n..];
    BodyOfConcat(w[..n], w[n..]);
  }

  lemma {:induction false} BodyOfFrames(w: seq<Wire>)
    requires forall i | 0 <= i < |w| :: w[i] == Frame
    ensures BodyOf(w) == []
  {
    if w != [] {
      BodyOfFrames(w[1..]);
    }
  }

  lemma {:induction false} BodyOfBody(w: seq<Wire>, bytes: seq<Byte>)
    requires |w| == |bytes| && forall i | 0 <= i < |w| :: w[i] == Body(bytes[i])
    ensures BodyOf(w) == bytes
  {
    if w != [] {
      BodyOfBody(w[1..], bytes[1..]);
    }
  }

  // ---------------------------------------------------------------------------
  // State
  // ---------------------------------------------------------------------------

  /** nghttp3's side of a stream. `ended`: the reader reported EOF; `finSent`: the fin was taken too. */
  datatype Ng = Ng(
    outq: seq<Wire>,
    reader: bool,
    parked: bool,
    flowBlocked: bool,
    ended: bool,
    finSent: bool)

  /** What has happened to the response so far. */
  datatype Log = Log(
    appended: seq<Byte>,
    released: nat,      // body bytes acknowledged, or freed by cleanup
    wire: seq<Wire>,    // accepted by QUIC
    concluded: bool,
    broken: bool,
    swallowed: bool,    // bytes dropped because the stream had no QUIC handle any more
    cut: bool,          // the reader was told of the end because the response was cancelled
    cleaned: bool)

  datatype Send = Send(q: Queue, ng: Option<Ng>, log: Log)

  /** A new stream; `frames` are bytes nghttp3 already wants to send on it (control streams). */
  function NewSend(limit: nat, frames: nat): Send {
    Send(Empty(limit), Some(Ng(Framed(frames), false, false, false, false, false)),
         Log([], 0, [], false, false, false, false, false))
  }

  // ---------------------------------------------------------------------------
  // Worker events
  // ---------------------------------------------------------------------------

  /** submit_response_nva past its guards; `frames` is the header block. */
  function SubmitCall(s: Send, accepted: bool, frames: nat): Send {
    if accepted && s.ng.Some? then
      var g := s.ng.value;
      s.(q := s.q.(submitted := true), ng := Some(g.(reader := true, outq := g.outq + Framed(frames))))
    else s.(q := Cancel(s.q))
  }

  /** nghttp3_conn_resume_stream. */
  function Resume(s: Send): Send {
    if s.ng.Some? then s.(ng := Some(s.ng.value.(parked := false))) else s
  }

  function Store(s: Send, data: seq<Byte>): Send {
    s.(q := Append(s.q, data), log := s.log.(appended := s.log.appended + data))
  }

  /** One locked section of h3_stream_response_append on a live session, with the wait behind it. */
  function AppendCall(s: Send, rest: seq<Byte>, mallocOk: bool): Send {
    var size := ChunkSize(s.q, |rest|);
    if !(0 < size <= |rest|) || s.q.total > SIZE_MAX - size || !mallocOk then s.(q := Cancel(s.q))
    else if s.q.submitted then Resume(Store(s, rest[..size]))
    else Store(s, rest[..size])
  }

  /** h3_stream_response_complete; `dead` is nghttp3 dead or gone. */
  function Complete(s: Send, dead: bool): Send {
    var s1 := s.(q := s.q.(complete := true));
    if s.q.submitted && !dead then Resume(s1) else s1
  }

  // ---------------------------------------------------------------------------
  // nghttp3 pulling and writing
  // ---------------------------------------------------------------------------

  predicate Pullable(s: Send) {
    s.ng.Some? && var g := s.ng.value; g.reader && !g.ended && !g.parked && !g.flowBlocked
  }

  /** Bytes or a fin are ready on a stream flow control does not hold back. */
  predicate Offerable(s: Send) {
    s.ng.Some? && var g := s.ng.value; !g.flowBlocked && (g.outq != [] || (g.ended && !g.finSent))
  }

  /** nghttp3 frames what the data reader gave it. */
  function Framing(vecs: seq<seq<Byte>>, frames: nat): seq<Wire> {
    if vecs == [] then [] else Framed(frames) + AsBody(Flatten(vecs))
  }

  /** nghttp3 calls the data reader with room for `veccnt` buffers. */
  function Pull(s: Send, veccnt: nat, frames: nat): Send
    requires Pullable(s) && 0 <= s.q.submit <= |s.q.chunks|
  {
    var g := s.ng.value;
    match PullOutcome(s.q, veccnt)
    case CallbackFailure => s
    case WouldBlock => s.(ng := Some(g.(parked := true)))
    case Vecs(vecs, eof) =>
      s.(q := AfterPull(s.q, veccnt), ng := Some(g.(outq := g.outq + Framing(vecs, frames), ended := eof)),
         log := s.log.(cut := s.log.cut || s.q.cancelled))
  }

  /** nghttp3 queues bytes of its own: settings, QPACK, GOAWAY. */
  function OwnBytes(s: Send, n: nat): Send {
    if s.ng.Some? && !s.ng.value.ended
    then s.(ng := Some(s.ng.value.(outq := s.ng.value.outq + Framed(n)))) else s
  }

  datatype WriteOutcome = Taken | BlockedAfter | BrokenAfter

  /** What QUIC may do with `offered` bytes: take all, or stop short blocked or broken (h3q_stream_write). */
  predicate Possible(offered: nat, accepted: nat, out: WriteOutcome) {
    if out.Taken? then accepted == offered else accepted < offered
  }

  /** nghttp3_conn_add_write_offset by n. */
  function Written(g: Ng, n: nat): Ng
    requires n <= |g.outq|
  {
    g.(outq := g.outq[n..], finSent := g.finSent || (g.ended && n == |g.outq|))
  }

  /** nghttp3_conn_add_write_offset and _add_ack_offset by n, with the acknowledge callback they cause. */
  function Advance(s: Send, n: nat): Send
    requires s.ng.Some? && n <= |s.ng.value.outq|
  {
    var g := s.ng.value;
    var body := |BodyOf(g.outq[..n])|;
    Send(Ack(s.q, body), Some(Written(g, n)),
         if s.log.cleaned then s.log else s.log.(released := s.log.released + body))
  }

  // The four ways a turn of flush_nghttp3 ends, on the first m bytes nghttp3 offers.

  function Swallow(s: Send, m: nat): Send
    requires s.ng.Some? && m <= |s.ng.value.outq|
  {
    var r := Advance(s, m);
    r.(log := r.log.(swallowed := true))
  }

  function Break(s: Send, m: nat, accepted: nat): Send
    requires s.ng.Some? && m <= |s.ng.value.outq| && accepted <= m
  {
    var r := Advance(s, m);
    r.(log := r.log.(wire := s.log.wire + s.ng.value.outq[..accepted], broken := true))
  }

  function Take(s: Send, m: nat): Send
    requires s.ng.Some? && m <= |s.ng.value.outq|
  {
    var g := s.ng.value;
    var r := Advance(s, m);
    r.(log := r.log.(wire := s.log.wire + g.outq[..m],
                     concluded := s.log.concluded || (g.ended && m == |g.outq|)))
  }

  /** `flagged` says nghttp3 has been told about the blocked stream before and is not told again. */
  function Block(s: Send, accepted: nat, flagged: bool): Send
    requires s.ng.Some? && accepted <= |s.ng.value.outq|
  {
    var g := s.ng.value;
    var r := Advance(s, accepted);
    r.(log := r.log.(wire := s.log.wire + g.outq[..accepted]),
       ng := Some(Written(g, accepted).(flowBlocked := g.flowBlocked || !flagged)))
  }

  /** nghttp3_conn_unblock_stream. */
  function Unflow(s: Send): Send {
    if s.ng.Some? then s.(ng := Some(s.ng.value.(flowBlocked := false))) else s
  }

  // ---------------------------------------------------------------------------
  // Cancel, close, cleanup
  // ---------------------------------------------------------------------------

  function CancelSend(s: Send): Send { s.(q := Cancel(s.q)) }

  /** nghttp3 forgets the stream, after cancelling the response. */
  function CloseSend(s: Send): Send { s.(q := Cancel(s.q), ng := None) }

  function CleanSend(s: Send): Send {
    s.(q := Cleanup(s.q), log := s.log.(cleaned := true, released := |s.log.appended|))
  }

  // ---------------------------------------------------------------------------
  // Invariants
  // ---------------------------------------------------------------------------

  /** The queue holds what was appended and not released; nghttp3 holds exactly the pulled part of it. */
  ghost predicate Conserved(s: Send) {
    && Tied(s.q, s.log.appended, s.log.released)
    && s.q.total == |s.log.appended|
    && (s.log.cleaned ==> s.q.chunks == [] && s.q.cancelled)
    && (s.ng.Some? && !s.log.cleaned ==> BodyOf(s.ng.value.outq) == Pulled(s.q))
  }

  /** Body bytes reach QUIC in order and without gaps, unless the stream broke or lost its handle. */
  ghost predicate InOrder(s: Send) {
    && s.log.released <= |s.log.appended|
    && (!s.log.broken && !s.log.swallowed && !s.log.cleaned ==>
          BodyOf(s.log.wire) == s.log.appended[..s.log.released])
    && (s.log.swallowed || s.log.cut ==> s.q.cancelled)
  }

  /** How nghttp3's flags follow the queue's. */
  ghost predicate Ending(s: Send) {
    && (s.ng.None? ==> s.q.cancelled)
    && (s.q.cancelled ==> s.q.complete)
    && (s.ng.Some? ==>
          var g := s.ng.value;
          && g.reader == s.q.submitted
          && (g.parked || g.ended ==> g.reader)
          && (g.finSent ==> g.ended && g.outq == [])
          && (g.ended && !s.log.cut ==> s.q.complete && s.q.submit == |s.q.chunks|)
          && (s.log.concluded ==> g.finSent)
          && (g.finSent && !s.log.broken && !s.log.swallowed ==> s.log.concluded))
  }

  /** No lost resume: a parked reader has nothing to read and nothing to finish. */
  ghost predicate NoLostResume(s: Send) {
    s.ng.Some? && s.ng.value.parked && !s.q.cancelled ==>
      s.q.submit == |s.q.chunks| && !s.q.complete
  }

  ghost predicate SendInv(s: Send, dead: bool) {
    Conserved(s) && InOrder(s) && Ending(s) && (!dead ==> NoLostResume(s))
  }

  // ---------------------------------------------------------------------------
  // Every event keeps them
  // ---------------------------------------------------------------------------

  lemma NewSendInv(limit: nat, frames: nat)
    requires limit > 0
    ensures SendInv(NewSend(limit, frames), false)
  {
    BodyOfFrames(Framed(frames));
  }

  lemma SubmitInv(s: Send, accepted: bool, frames: nat, dead: bool)
    requires SendInv(s, dead) && !s.q.submitted
    ensures SendInv(SubmitCall(s, accepted, frames), dead)
  {
    if accepted && s.ng.Some? {
      BodyOfConcat(s.ng.value.outq, Framed(frames));
      BodyOfFrames(Framed(frames));
    }
  }

  lemma OwnBytesInv(s: Send, n: nat, dead: bool)
    requires SendInv(s, dead)
    ensures SendInv(OwnBytes(s, n), dead)
  {
    if s.ng.Some? {
      BodyOfConcat(s.ng.value.outq, Framed(n));
      BodyOfFrames(Framed(n));
    }
  }

  lemma AppendInv(s: Send, rest: seq<Byte>, mallocOk: bool, dead: bool)
    requires SendInv(s, dead) && rest != []
    requires !Full(s.q) && !s.q.complete
    ensures SendInv(AppendCall(s, rest, mallocOk), dead)
  {
    hide Unacked, Shape;
    var size := ChunkSize(s.q, |rest|);
    if s.q.total <= SIZE_MAX - size && mallocOk {
      TiedAppend(s.q, s.log.appended, s.log.released, rest[..size]);
      AppendAddsAtTail(s.q, rest[..size]);
      assert (s.log.appended + rest[..size])[..s.log.released] == s.log.appended[..s.log.released];
    }
  }

  lemma CompleteInv(s: Send, dead: bool)
    requires SendInv(s, dead)
    ensures SendInv(Complete(s, dead), dead)
  {
  }

  lemma PullInv(s: Send, veccnt: nat, frames: nat, dead: bool)
    requires SendInv(s, dead) && Pullable(s) && veccnt > 0
    ensures SendInv(Pull(s, veccnt, frames), dead)
  {
    var g := s.ng.value;
    TiedPull(s.q, s.log.appended, s.log.released, veccnt);
    PullMovesBytes(s.q, veccnt);
    match PullOutcome(s.q, veccnt)
    case WouldBlock =>
    case Vecs(vecs, eof) =>
      FramingBody(vecs, frames);
      BodyOfConcat(g.outq, Framing(vecs, frames));
  }

  lemma FramingBody(vecs: seq<seq<Byte>>, frames: nat)
    ensures BodyOf(Framing(vecs, frames)) == Flatten(vecs)
  {
    if vecs != [] {
      BodyOfConcat(Framed(frames), AsBody(Flatten(vecs)));
      BodyOfFrames(Framed(frames));
      BodyOfBody(AsBody(Flatten(vecs)), Flatten(vecs));
    }
  }

  /** What nghttp3 acknowledges was pulled: the precondition of the ack routine holds at every turn. */
  lemma AckedWasPulled(s: Send, n: nat)
    requires Conserved(s) && s.ng.Some? && n <= |s.ng.value.outq|
    ensures s.q.submit == |s.q.chunks| || |BodyOf(s.ng.value.outq[..n])| <= |Pulled(s.q)|
  {
    BodyOfSplit(s.ng.value.outq, n);
  }

  /** Advancing acknowledges only pulled chunks: the list stays well formed and what waits is untouched. */
  lemma AdvanceLeavesWaiting(s: Send, n: nat)
    requires Conserved(s) && s.ng.Some? && n <= |s.ng.value.outq|
    ensures Valid(Advance(s, n).q) && Waiting(Advance(s, n).q) == Waiting(s.q)
    ensures |Advance(s, n).q.chunks| - Advance(s, n).q.submit == |s.q.chunks| - s.q.submit
  {
    var k := |BodyOf(s.ng.value.outq[..n])|;
    BodyOfSplit(s.ng.value.outq, n);
    if k <= |Pulled(s.q)| {
      AckWithinPulled(s.q, k);
    } else {
      AckSafe(s.q, k);
    }
  }

  /** The bookkeeping every turn shares: n offered bytes leave nghttp3 and their body part leaves the queue. */
  lemma AdvanceConserves(s: Send, n: nat)
    requires Conserved(s) && s.ng.Some? && n <= |s.ng.value.outq|
    ensures Conserved(Advance(s, n))
  {
    var g := s.ng.value;
    var body := BodyOf(g.outq[..n]);
    BodyOfSplit(g.outq, n);
    AckedWasPulled(s, n);
    TiedAck(s.q, s.log.appended, s.log.released, |body|);
    if !s.log.cleaned {
      AckWithinPulled(s.q, |body|);
      assert BodyOf(g.outq[n..]) == Pulled(s.q)[|body|..];
    }
  }

  /** What a turn releases is the next stretch of what was appended. */
  lemma AdvanceReleases(s: Send, n: nat)
    requires Conserved(s) && s.ng.Some? && n <= |s.ng.value.outq| && !s.log.cleaned
    ensures var body := BodyOf(s.ng.value.outq[..n]);
            && s.log.released + |body| <= |s.log.appended|
            && s.log.appended[..s.log.released] + body == s.log.appended[..s.log.released + |body|]
  {
    var outq := s.ng.value.outq;
    BodyOfSplit(outq, n);
    TiedSplits(s.q, s.log.appended, s.log.released);
    NextStretch(s.log.appended, s.log.released, BodyOf(outq[..n]), BodyOf(outq[n..]), Waiting(s.q));
    hide Tied, Waiting;
  }

  lemma NextStretch(all: seq<Byte>, n: nat, a: seq<Byte>, b: seq<Byte>, c: seq<Byte>)
    requires n <= |all| && all == all[..n] + (a + b) + c
    ensures n + |a| <= |all| && all[..n] + a == all[..n + |a|]
  {
    var front := all[..n] + a;
    assert all == front + (b + c);
    assert (front + (b + c))[..|front|] == front;
  }

  lemma SwallowInv(s: Send, m: nat, dead: bool)
    requires SendInv(s, dead) && s.ng.Some? && m <= |s.ng.value.outq|
    requires s.q.cancelled
    ensures SendInv(Swallow(s, m), dead)
  {
    AdvanceConserves(s, m);
    if !s.log.cleaned {
      AdvanceReleases(s, m);
    }
  }

  lemma BreakInv(s: Send, m: nat, accepted: nat, dead: bool)
    requires SendInv(s, dead) && s.ng.Some? && accepted <= m <= |s.ng.value.outq|
    ensures SendInv(Break(s, m, accepted), dead)
  {
    AdvanceConserves(s, m);
    if !s.log.cleaned {
      AdvanceReleases(s, m);
    }
  }

  lemma TakeInv(s: Send, m: nat, dead: bool)
    requires SendInv(s, dead) && s.ng.Some? && m <= |s.ng.value.outq|
    ensures SendInv(Take(s, m), dead)
  {
    AdvanceConserves(s, m);
    if !s.log.cleaned {
      AdvanceReleases(s, m);
    }
    BodyOfConcat(s.log.wire, s.ng.value.outq[..m]);
  }

  lemma BlockInv(s: Send, accepted: nat, flagged: bool, dead: bool)
    requires SendInv(s, dead) && s.ng.Some? && accepted < |s.ng.value.outq|
    ensures SendInv(Block(s, accepted, flagged), dead)
  {
    AdvanceConserves(s, accepted);
    if !s.log.cleaned {
      AdvanceReleases(s, accepted);
    }
    BodyOfConcat(s.log.wire, s.ng.value.outq[..accepted]);
  }

  lemma UnflowInv(s: Send, dead: bool)
    requires SendInv(s, dead)
    ensures SendInv(Unflow(s), dead)
  {
  }

  lemma CancelInv(s: Send, dead: bool)
    requires SendInv(s, dead)
    ensures SendInv(CancelSend(s), dead)
    ensures SendInv(CloseSend(s), dead)
  {
  }

  lemma CleanInv(s: Send, dead: bool)
    requires SendInv(s, dead) && s.q.cancelled
    ensures SendInv(CleanSend(s), dead)
  {
  }

  // ---------------------------------------------------------------------------
  // What the invariants mean
  // ---------------------------------------------------------------------------

  /**
   On a stream that was neither cancelled nor broken, QUIC has accepted a prefix of what the
   worker appended, and everything the worker appended once the stream was concluded.
   */
  lemma AcceptedIsPrefix(s: Send, dead: bool)
    requires SendInv(s, dead) && s.ng.Some? && !s.log.broken && !s.log.swallowed && !s.log.cleaned
    ensures BodyOf(s.log.wire) <= s.log.appended
    ensures s.log.concluded ==> (BodyOf(s.log.wire) == s.log.appended <==> Waiting(s.q) == [])
    ensures s.log.concluded && !s.log.cut ==> s.q.complete && Waiting(s.q) == []
  {
    if s.log.concluded {
      assert BodyOf(s.ng.value.outq) == [];
      ThreePlaces(s, dead);
      if !s.log.cut {
        assert s.q.chunks[s.q.submit..] == [];
      }
    }
  }

  /** Two bytes of a response, pulled and then cancelled with the stream's handle. */
  function PulledThenCancelled(limit: nat, b: Byte, c: Byte): Send {
    CancelSend(Pull(Store(SubmitCall(NewSend(limit, 0), true, 0), [b, c]), 1, 0))
  }

  /** Dropping bytes for want of a handle and then writing again, as a repeated id allows, leaves a gap. */
  lemma DropThenWriteSkips(limit: nat, b: Byte, c: Byte)
    requires b != c
    ensures var s := PulledThenCancelled(limit, b, c);
            && s.ng.Some? && |s.ng.value.outq| == 2
            && var r := Take(Swallow(s, 1), 1);
               !r.log.broken && r.log.appended == [b, c] && BodyOf(r.log.wire) == [c] && !([c] <= r.log.appended)
  {
    var q := Store(SubmitCall(NewSend(limit, 0), true, 0), [b, c]).q;
    assert q.chunks == [Chunk([b, c], 0)];
    assert Datas(q.chunks[0..1]) == [[b, c]] && Flatten([[b, c]]) == [b, c];
    assert PulledThenCancelled(limit, b, c).ng.value.outq == [Body(b), Body(c)];
    assert BodyOf([Body(c)]) == [c];
  }

  /** A response cancelled with bytes waiting, as when memory runs out, is concluded short of them. */
  lemma CancelledEndsShort(limit: nat, b: Byte)
    requires limit > 0
    ensures var s := Take(Pull(CancelSend(Store(SubmitCall(NewSend(limit, 0), true, 0), [b])), 1, 0), 0);
            s.log.concluded && s.log.cut && !s.log.broken && BodyOf(s.log.wire) == [] && s.log.appended == [b]
  {
  }

  /** Every byte is in exactly one of three places: released, with nghttp3, or waiting to be pulled. */
  lemma ThreePlaces(s: Send, dead: bool)
    requires SendInv(s, dead) && !s.log.cleaned && s.ng.Some?
    ensures s.log.appended == s.log.appended[..s.log.released] + BodyOf(s.ng.value.outq) + Waiting(s.q)
    ensures s.q.total == s.log.released + s.q.buffered
    ensures s.q.buffered <= s.q.limit
  {
    TiedSplits(s.q, s.log.appended, s.log.released);
    hide Tied, Pulled, Waiting;
  }

  /** How often nghttp3 can still call the reader before it parks or ends. */
  function PullWork(s: Send): nat {
    (if |s.q.chunks| >= s.q.submit then |s.q.chunks| - s.q.submit else 0) +
    (if s.ng.Some? && s.ng.value.reader && !s.ng.value.ended && !s.ng.value.parked then 1 else 0)
  }

  function WriteWork(s: Send): nat {
    if s.ng.None? then 0
    else
      var g := s.ng.value;
      |g.outq| + (if g.ended && !g.finSent then 1 else 0) + (if g.flowBlocked then 0 else 1)
  }

  lemma PullShrinks(s: Send, veccnt: nat, frames: nat)
    requires Pullable(s) && veccnt > 0 && 0 <= s.q.submit <= |s.q.chunks|
    ensures PullWork(Pull(s, veccnt, frames)) < PullWork(s)
  {
  }

  /**
   A turn uses up nghttp3's backlog or its fin, unless it blocks the stream; it never gives
   the reader more to do.
   */
  lemma TurnShrinks(s: Send, m: nat, accepted: nat)
    requires SendInv(s, false) && Offerable(s)
    requires accepted <= m <= |s.ng.value.outq| && (m > 0 || s.ng.value.outq == [])
    ensures forall r | r in {Swallow(s, m), Break(s, m, accepted), Take(s, m)} ::
              PullWork(r) == PullWork(s) && WriteWork(r) < WriteWork(s)
    ensures accepted < m ==>
              PullWork(Block(s, accepted, false)) == PullWork(s) && WriteWork(Block(s, accepted, false)) < WriteWork(s)
  {
  }

  /** nghttp3 has nothing to pull or to offer on this stream, unless flow control holds it back. */
  ghost predicate Quiet(s: Send) { !Pullable(s) && !Offerable(s) }

  /**
   When a live, submitted, uncancelled stream is quiet and not flow-blocked, every byte
   appended so far has been released from the queue, so its producer has room; and if the
   response is complete its fin has gone out.
   */
  lemma QuietMeansDrained(s: Send)
    requires SendInv(s, false) && Quiet(s)
    requires !s.q.cancelled && s.q.submitted && !s.ng.value.flowBlocked
    ensures s.q.chunks == [] && s.q.buffered == 0 && s.log.released == |s.log.appended|
    ensures !Full(s.q)
    ensures s.q.complete <==> s.ng.value.finSent
    ensures !s.log.broken ==> BodyOf(s.log.wire) == s.log.appended && (s.q.complete <==> s.log.concluded)
  {
    var g := s.ng.value;
    assert g.outq == [] && (g.ended || g.parked);
    assert s.q.submit == |s.q.chunks|;
    assert s.q.chunks[..s.q.submit] == s.q.chunks;
    NonEmptyChunksHoldBytes(s.q.chunks);
  }

  /** A full queue means the consumer side still has bytes to pull or to send. */
  lemma BlockedProducerHasConsumerWork(s: Send, dead: bool)
    requires SendInv(s, dead) && !s.log.cleaned && s.ng.Some? && Full(s.q)
    ensures BodyOf(s.ng.value.outq) != [] || Waiting(s.q) != []
  {
    ThreePlaces(s, dead);
    UnackedSplit(s.q.chunks, s.q.submit);
  }
}
