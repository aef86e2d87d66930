/**
 What QUIC is given and what it answers, call by call: the log of the SSL writes and of the streams
 concluded, and what a call of h3q_stream_write makes of them.
 */
module WireLog {
  import opened ResponseQueue
  import opened SendPath

  /**
   One SSL_write_ex, with what it took of the buffer; taking nothing it may want to be asked again.
   Or a stream's end.
   */
  datatype WireEvent =
    | Ssl(stream: nat, offered: seq<Wire>, taken: seq<Wire>, want: bool)
    | Conclude(stream: nat)

  /** What QUIC took for a stream, in order. */
  function TakenFor(log: seq<WireEvent>, i: nat): seq<Wire> {
    if log == [] then []
    else
      var e := log[|log| - 1];
      TakenFor(log[..|log| - 1], i) + if e.Ssl? && e.stream == i then e.taken else []
  }

  /** A write on the stream failed for good. */
  predicate FailedFor(log: seq<WireEvent>, i: nat) {
    log != [] &&
    var e := log[|log| - 1];
    FailedFor(log[..|log| - 1], i) || (e.Ssl? && e.stream == i && e.taken == [] && !e.want)
  }

  /** The stream was concluded. */
  predicate ConcludedFor(log: seq<WireEvent>, i: nat) {
    log != [] && (ConcludedFor(log[..|log| - 1], i) || log[|log| - 1] == Conclude(i))
  }

  lemma LogNone(i: nat)
    ensures TakenFor([], i) == [] && !FailedFor([], i) && !ConcludedFor([], i)
  {
  }

  lemma LogSnoc(log: seq<WireEvent>, e: WireEvent, i: nat)
    ensures TakenFor(log + [e], i) == TakenFor(log, i) + if e.Ssl? && e.stream == i then e.taken else []
    ensures FailedFor(log + [e], i) == (FailedFor(log, i) || (e.Ssl? && e.stream == i && e.taken == [] && !e.want))
    ensures ConcludedFor(log + [e], i) == (ConcludedFor(log, i) || e == Conclude(i))
  {
    assert (log + [e])[..|log|] == log;
  }

  lemma {:induction false} LogConcat(a: seq<WireEvent>, b: seq<WireEvent>, i: nat)
    ensures TakenFor(a + b, i) == TakenFor(a, i) + TakenFor(b, i)
    ensures FailedFor(a + b, i) == (FailedFor(a, i) || FailedFor(b, i))
    ensures ConcludedFor(a + b, i) == (ConcludedFor(a, i) || ConcludedFor(b, i))
    decreases |b|
  {
    LogNone(i);
    hide TakenFor, FailedFor, ConcludedFor;
    if b == [] {
      assert a + b == a;
    } else {
      var front, last := b[..|b| - 1], b[|b| - 1];
      LogConcat(a, front, i);
      assert a + b == a + front + [last] && b == front + [last];
      LogSnoc(a + front, last, i);
      LogSnoc(front, last, i);
    }
  }

  /** Nothing was said about a stream. */
  lemma {:induction false} LogSilent(log: seq<WireEvent>, i: nat)
    requires forall k | 0 <= k < |log| :: log[k].stream != i
    ensures TakenFor(log, i) == [] && !FailedFor(log, i) && !ConcludedFor(log, i)
    decreases |log|
  {
    if log != [] {
      LogSilent(log[..|log| - 1], i);
    }
  }

  // ---------------------------------------------------------------------------
  // h3q_stream_write
  // ---------------------------------------------------------------------------

  /** What one call achieved; `taken` is what QUIC accepted, `concluded` whether the stream was closed. */
  datatype WriteResult = WriteResult(taken: seq<Wire>, blocked: bool, broken: bool, concluded: bool)

  /** The buffers are offered one by one and in order, each only after the one before it was taken whole. */
  ghost predicate OneByOne(i: nat, vecs: seq<seq<Wire>>, n: nat, events: seq<WireEvent>) {
    && n <= |vecs| && n <= |events|
    && (forall k | 0 <= k < n ::
          events[k].Ssl? && events[k].stream == i && events[k].offered == vecs[k] && events[k].taken <= vecs[k])
    && (forall k | 0 <= k < n - 1 :: events[k].taken == vecs[k])
  }

  /**
   A call and its answer: what was taken is a prefix of the joined buffers; it stops short blocked or
   broken, never both, and broken exactly if a write failed for good; and the stream is concluded
   exactly on a fin with everything taken.
   */
  ghost predicate WroteAs(i: nat, vecs: seq<seq<Wire>>, fin: bool, events: seq<WireEvent>, res: WriteResult) {
    && (var n := |events| - if res.concluded then 1 else 0;
        n >= 0 && OneByOne(i, vecs, n, events) && (res.concluded ==> events[n] == Conclude(i)))
    && (forall k | 0 <= k < |events| :: events[k].stream == i)
    && res.taken == TakenFor(events, i) && res.taken <= Flatten(vecs)
    && !(res.blocked && res.broken) && (res.blocked || res.broken <==> |res.taken| < |Flatten(vecs)|)
    && (res.broken <==> FailedFor(events, i))
    && (res.concluded <==> fin && !res.blocked && !res.broken) && (res.concluded <==> ConcludedFor(events, i))
  }

  // ---------------------------------------------------------------------------
  // Turns of the send loop
  // ---------------------------------------------------------------------------

  /** One turn: an offer of nghttp3's, and the write made of it if the stream still has a handle. */
  datatype Turn = Turn(stream: nat, held: bool, vecs: seq<seq<Wire>>, fin: bool, res: WriteResult,
                       events: seq<WireEvent>)

  ghost predicate TurnOk(t: Turn) {
    if t.held then WroteAs(t.stream, t.vecs, t.fin, t.events, t.res) else t.events == []
  }

  /** How the write ended. */
  function Outcome(res: WriteResult): WriteOutcome {
    if res.broken then BrokenAfter else if res.blocked then BlockedAfter else Taken
  }

  function EventsOf(turns: seq<Turn>): seq<WireEvent> {
    if turns == [] then [] else EventsOf(turns[..|turns| - 1]) + turns[|turns| - 1].events
  }

  lemma EventsSnoc(turns: seq<Turn>, t: Turn)
    ensures EventsOf(turns + [t]) == EventsOf(turns) + t.events
  {
    assert (turns + [t])[..|turns|] == turns;
  }

  /** A write of one of the turns blocked this stream. */
  ghost predicate BlockedBy(turns: seq<Turn>, i: nat) {
    exists k :: 0 <= k < |turns| && turns[k].stream == i && turns[k].held && turns[k].res.blocked
  }
}
