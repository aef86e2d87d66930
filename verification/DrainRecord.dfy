/**
 What a drain pass is: a record of its visits, with everything read, fed and reported, and what
 a series of such passes adds up to.
 */
module DrainRecord {
  import opened ResponseQueue
  import opened Session
  import opened StreamIo
  import opened DrainScheduler

  const READ_BUDGET := 256
  const BYTE_BUDGET := 1024 * 1024

  /** What reading can do to a stream: it gets more complete or more closed, and does not change hands. */
  ghost predicate LaneGrew(a: Lane, b: Lane) {
    && b.sid == a.sid && b.dispatched == a.dispatched && b.workerDone == a.workerDone && b.tracked == a.tracked
    && (a.headersComplete ==> b.headersComplete) && (a.bodyComplete ==> b.bodyComplete)
    && (a.done ==> b.done) && (b.qstream.Some? ==> b.qstream == a.qstream)
    && (a.send.ng.Some? && b.send.ng.None? ==> b.qstream.None?)
  }

  // ---------------------------------------------------------------------------
  // Draining one stream
  // ---------------------------------------------------------------------------

  /** The budgets and the buffer a stream is drained with, and what is left of the budgets. */
  datatype Purse = Purse(bufSize: nat, readBudget: nat, byteBudget: nat, readsLeft: nat, bytesLeft: nat)

  /**
   Every read is of this stream and within its room, is charged for what it brought, and is fed to
   nghttp3 as it is.
   */
  ghost predicate Charged(i: nat, p: Purse, io: seq<IoEvent>) {
    && (forall k | 0 <= k < |io| :: io[k].stream == i)
    && (forall k | 0 <= k < |io| && io[k].Read? :: |io[k].data| <= io[k].room <= Min(p.bufSize, p.byteBudget))
    && ReadCount(io) + p.readsLeft == p.readBudget && |ReadBytes(io)| + p.bytesLeft == p.byteBudget
    && FedBytes(io) == ReadBytes(io)
  }

  /** QUIC has no more for now, and the end of the stream, if it came, has been passed on. */
  ghost predicate Dry(last: IoEvent, l: Lane) {
    (last.Read? && last.data == [] && !last.fin) || (last.Fed? && last.fin && l.bodyComplete)
  }

  /** Draining ends only when the receive side is over, a budget is spent, the stream is done, or QUIC has no more. */
  ghost predicate Stopped(p: Purse, io: seq<IoEvent>, left: Lane) {
    if io != [] && io[0].Asked? && io[0].readFinished then ReadCount(io) == 0 && left.bodyComplete
    else p.readsLeft == 0 || p.bytesLeft == 0 || left.done || (io != [] && Dry(io[|io| - 1], left))
  }

  /** A stream whose bytes nghttp3 could not take is done. */
  ghost predicate FailedIsDone(io: seq<IoEvent>, left: Lane) {
    forall k | 0 <= k < |io| && io[k].Fed? && !io[k].fin && io[k].failed :: left.done
  }

  /** A stream finished both ways that nghttp3 knows is closed: its handle goes. */
  ghost predicate FinishedIsClosed(io: seq<IoEvent>, found: Lane, left: Lane) {
    io != [] && io[0].Asked? && io[0].readFinished && io[0].writeFinished && found.send.ng.Some? ==> left.qstream.None?
  }

  ghost predicate Drained(i: nat, found: Lane, left: Lane, p: Purse, io: seq<IoEvent>) {
    && Charged(i, p, io) && Stopped(p, io, left) && LaneGrew(found, left)
    && FailedIsDone(io, left) && FinishedIsClosed(io, found, left)
    && (found.qstream.Some? <==> io != [] && io[0].Asked?)
  }

  /** Nothing read yet. */
  lemma ChargedNone(i: nat, p: Purse)
    requires p.readsLeft == p.readBudget && p.bytesLeft == p.byteBudget
    ensures Charged(i, p, [])
  {
  }

  lemma ChargedAsked(i: nat, p: Purse, readFinished: bool, writeFinished: bool)
    requires p.readsLeft == p.readBudget && p.bytesLeft == p.byteBudget
    ensures Charged(i, p, [Asked(i, readFinished, writeFinished)])
            && ReadCount([Asked(i, readFinished, writeFinished)]) == 0
  {
    Snoc([], Asked(i, readFinished, writeFinished));
    assert [] + [Asked(i, readFinished, writeFinished)] == [Asked(i, readFinished, writeFinished)];
  }

  lemma ChargedBound(i: nat, p: Purse, io: seq<IoEvent>)
    requires Charged(i, p, io)
    ensures p.readsLeft <= p.readBudget && p.bytesLeft <= p.byteBudget
  {
  }

  /** A read that brings bytes, and those bytes fed. */
  lemma ChargedRead(i: nat, p: Purse, io: seq<IoEvent>, room: nat, data: seq<Byte>, fin: bool, failed: bool)
    requires Charged(i, p, io) && data != [] && |data| <= room <= Min(p.bufSize, p.byteBudget)
    requires p.readsLeft > 0 && |data| <= p.bytesLeft
    ensures Charged(i, p.(readsLeft := p.readsLeft - 1, bytesLeft := p.bytesLeft - |data|),
                    io + [Read(i, room, data, fin)] + [Fed(i, data, false, failed)])
  {
    hide ReadCount, ReadBytes, FedBytes;
    Snoc(io, Read(i, room, data, fin));
    Snoc(io + [Read(i, room, data, fin)], Fed(i, data, false, failed));
  }

  lemma ChargedDry(i: nat, p: Purse, io: seq<IoEvent>, room: nat, fin: bool, failed: bool)
    requires Charged(i, p, io) && room <= Min(p.bufSize, p.byteBudget)
    ensures Charged(i, p, io + [Read(i, room, [], fin)])
    ensures Charged(i, p, io + [Read(i, room, [], fin)] + [Fed(i, [], true, failed)])
  {
    hide ReadCount, ReadBytes, FedBytes;
    Snoc(io, Read(i, room, [], fin));
    Snoc(io + [Read(i, room, [], fin)], Fed(i, [], true, failed));
  }

  lemma ChargedFin(i: nat, p: Purse, io: seq<IoEvent>, failed: bool)
    requires Charged(i, p, io)
    ensures Charged(i, p, io + [Fed(i, [], true, failed)])
            && ReadCount(io + [Fed(i, [], true, failed)]) == ReadCount(io)
  {
    hide ReadCount, ReadBytes, FedBytes;
    Snoc(io, Fed(i, [], true, failed));
  }

  // ---------------------------------------------------------------------------
  // Visits
  // ---------------------------------------------------------------------------

  /** One visit: the stream as found and as left, and what happened in between. */
  datatype Visit = Visit(index: nat, found: Lane, left: Lane, drained: bool, hit: bool, dead: bool, purse: Purse,
                         io: seq<IoEvent>)

  /**
   Exactly the client's open streams with a handle are drained, with something to spend. A hit is one that
   then is, on a live connection, a request with all its headers and all its body that nobody has taken.
   */
  ghost predicate VisitOk(v: Visit, i: nat) {
    && v.purse.readBudget > 0 && v.purse.byteBudget > 0
    && (v.drained <==> !v.found.done && v.found.qstream.Some? && !IsServer(v.found.sid))
    && (if v.drained then Drained(i, v.found, v.left, v.purse, v.io)
        else
          && v.io == [] && v.left == v.found && v.purse.readsLeft == v.purse.readBudget
          && v.purse.bytesLeft == v.purse.byteBudget)
    && (v.hit <==>
          && v.drained && !v.dead
          && IsBidi(v.left.sid) && v.left.headersComplete && v.left.bodyComplete && !v.left.dispatched)
  }

  /** What a visit read is what it was charged, and what it fed. */
  lemma VisitCharged(v: Visit, i: nat)
    requires VisitOk(v, i)
    ensures ReadCount(v.io) + v.purse.readsLeft == v.purse.readBudget
    ensures |ReadBytes(v.io)| + v.purse.bytesLeft == v.purse.byteBudget && FedBytes(v.io) == ReadBytes(v.io)
  {
  }

  function IoOf(visits: seq<Visit>): seq<IoEvent> {
    if visits == [] then [] else IoOf(visits[..|visits| - 1]) + visits[|visits| - 1].io
  }

  /** The streams found complete, in the order of the visits. */
  function Hits(snapshot: seq<nat>, visits: seq<Visit>): seq<nat> {
    if visits == [] then []
    else Hits(snapshot, visits[..|visits| - 1]) + HitOf(snapshot, visits[|visits| - 1])
  }

  function HitOf(snapshot: seq<nat>, v: Visit): seq<nat> {
    if v.hit && v.index < |snapshot| then [snapshot[v.index]] else []
  }

  /** The visits are the scheduler's, one after the other, and share one budget. */
  ghost predicate Visited(snapshot: seq<nat>, bufSize: nat, cursor: nat, visits: seq<Visit>, readsLeft: nat,
                          bytesLeft: nat)
    requires snapshot != []
  {
    && |visits| <= |snapshot|
    && (forall o | 0 <= o < |visits| :: VisitedAt(snapshot, bufSize, cursor, visits, o))
    && ReadCount(IoOf(visits)) + readsLeft == READ_BUDGET
    && |ReadBytes(IoOf(visits))| + bytesLeft == BYTE_BUDGET
    && FedBytes(IoOf(visits)) == ReadBytes(IoOf(visits))
  }

  /** The visit at offset o, with what the visits before it left of the budgets. */
  ghost predicate VisitedAt(snapshot: seq<nat>, bufSize: nat, cursor: nat, visits: seq<Visit>, o: nat)
    requires snapshot != [] && o < |visits|
  {
    var v := visits[o];
    && v.index == VisitAt(|snapshot|, cursor, o) && v.purse.bufSize == bufSize && VisitOk(v, snapshot[v.index])
    && v.purse.readBudget + ReadCount(IoOf(visits[..o])) == READ_BUDGET
    && v.purse.byteBudget + |ReadBytes(IoOf(visits[..o]))| == BYTE_BUDGET
  }

  lemma VisitedStill(snapshot: seq<nat>, bufSize: nat, cursor: nat, visits: seq<Visit>, v: Visit, o: nat)
    requires snapshot != [] && o < |visits| && VisitedAt(snapshot, bufSize, cursor, visits, o)
    ensures VisitedAt(snapshot, bufSize, cursor, visits + [v], o)
  {
    assert (visits + [v])[..o] == visits[..o];
  }

  lemma VisitedNone(snapshot: seq<nat>, bufSize: nat, cursor: nat)
    requires snapshot != []
    ensures Visited(snapshot, bufSize, cursor, [], READ_BUDGET, BYTE_BUDGET) && IoOf([]) == []
            && Hits(snapshot, []) == []
  {
  }

  lemma HitsNone(snapshot: seq<nat>)
    ensures Hits(snapshot, []) == []
  {
  }

  lemma VisitedIndices(snapshot: seq<nat>, bufSize: nat, cursor: nat, visits: seq<Visit>, readsLeft: nat,
                       bytesLeft: nat)
    requires snapshot != [] && Visited(snapshot, bufSize, cursor, visits, readsLeft, bytesLeft)
    ensures |visits| <= |snapshot| && forall o | 0 <= o < |visits| :: visits[o].index == VisitAt(|snapshot|, cursor, o)
  {
    forall o | 0 <= o < |visits| ensures visits[o].index == VisitAt(|snapshot|, cursor, o) {
      assert VisitedAt(snapshot, bufSize, cursor, visits, o);
    }
  }

  lemma IoOfSnoc(visits: seq<Visit>, v: Visit)
    ensures IoOf(visits + [v]) == IoOf(visits) + v.io
  {
    assert (visits + [v])[..|visits|] == visits;
  }

  lemma HitsSnoc(snapshot: seq<nat>, visits: seq<Visit>, v: Visit)
    ensures Hits(snapshot, visits + [v]) == Hits(snapshot, visits) + HitOf(snapshot, v)
  {
    assert (visits + [v])[..|visits|] == visits;
  }

  lemma VisitedNext(snapshot: seq<nat>, bufSize: nat, cursor: nat, visits: seq<Visit>, v: Visit)
    requires snapshot != [] && |visits| < |snapshot|
    requires Visited(snapshot, bufSize, cursor, visits, v.purse.readBudget, v.purse.byteBudget)
    requires v.index == VisitAt(|snapshot|, cursor, |visits|) && v.purse.bufSize == bufSize
             && VisitOk(v, snapshot[v.index])
    ensures Visited(snapshot, bufSize, cursor, visits + [v], v.purse.readsLeft, v.purse.bytesLeft)
  {
    hide VisitOk, ReadCount, ReadBytes, FedBytes, IoOf, VisitAt;
    VisitCharged(v, snapshot[v.index]);
    IoOfSnoc(visits, v);
    Concat(IoOf(visits), v.io);
    assert (visits + [v])[..|visits|] == visits;
    assert VisitedAt(snapshot, bufSize, cursor, visits + [v], |visits|);
    hide VisitedAt;
    forall o | 0 <= o < |visits| ensures VisitedAt(snapshot, bufSize, cursor, visits + [v], o) {
      VisitedStill(snapshot, bufSize, cursor, visits, v, o);
    }
  }

  // ---------------------------------------------------------------------------
  // Passes
  // ---------------------------------------------------------------------------

  /** A pass over the streams tracked when it began; `live` says the connection was alive when it ended. */
  datatype Pass = Pass(snapshot: seq<nat>, bufSize: nat, cursor: nat, visits: seq<Visit>,
                       readsLeft: nat, bytesLeft: nat, end: PassEnd, next: nat, live: bool)

  ghost predicate Increasing(xs: seq<nat>) { forall a, b | 0 <= a < b < |xs| :: xs[a] < xs[b] }

  ghost predicate PassOk(p: Pass) {
    && Increasing(p.snapshot)
    && (if p.snapshot == [] then p.visits == [] && p.next == p.cursor
        else
          && Visited(p.snapshot, p.bufSize, p.cursor, p.visits, p.readsLeft, p.bytesLeft)
          && (p.live ==>
                && EndOk(|p.snapshot|, p.end) && |p.visits| == Length(|p.snapshot|, p.end)
                && p.next == NextCursor(|p.snapshot|, p.cursor, p.end)
                && (p.end.SpentAt? <==> p.readsLeft == 0 || p.bytesLeft == 0)
                && forall o | 0 <= o < |p.visits| :: !p.visits[o].dead))
  }

  /** A pass makes at most 256 reads of at most 1 MiB in all, and what it read nghttp3 was fed, byte for byte. */
  lemma PassBudgets(p: Pass)
    requires PassOk(p)
    ensures ReadCount(IoOf(p.visits)) <= 256 && |ReadBytes(IoOf(p.visits))| <= 1048576
    ensures p.snapshot != [] ==>
              ReadCount(IoOf(p.visits)) + p.readsLeft == 256 && |ReadBytes(IoOf(p.visits))| + p.bytesLeft == 1048576
    ensures FedBytes(IoOf(p.visits)) == ReadBytes(IoOf(p.visits))
  {
  }

  /** The streams reported are those of the hits. */
  lemma {:induction false} HitsAre(snapshot: seq<nat>, visits: seq<Visit>, i: nat)
    ensures i in Hits(snapshot, visits) <==> exists o :: 0 <= o < |visits| && i in HitOf(snapshot, visits[o])
    decreases |visits|
  {
    hide HitOf;
    if visits != [] {
      var n := |visits| - 1;
      var front, last := Hits(snapshot, visits[..n]), HitOf(snapshot, visits[n]);
      assert Hits(snapshot, visits) == front + last;
      hide Hits;
      HitsAre(snapshot, visits[..n], i);
      InEither(front, last, i);
      if i in front {
        var o :| 0 <= o < n && i in HitOf(snapshot, visits[..n][o]);
        assert i in HitOf(snapshot, visits[o]);
      }
      if o :| 0 <= o < n && i in HitOf(snapshot, visits[o]) {
        assert i in HitOf(snapshot, visits[..n][o]);
      }
    }
  }

  lemma InEither(a: seq<nat>, b: seq<nat>, x: nat)
    ensures x in a + b <==> x in a || x in b
  {
  }

  /** No stream is reported twice. */
  lemma {:induction false} HitsDistinct(snapshot: seq<nat>, cursor: nat, visits: seq<Visit>)
    requires Increasing(snapshot) && snapshot != [] && |visits| <= |snapshot|
    requires forall o | 0 <= o < |visits| :: visits[o].index == VisitAt(|snapshot|, cursor, o)
    ensures forall x, y | 0 <= x < y < |Hits(snapshot, visits)| ::
              Hits(snapshot, visits)[x] != Hits(snapshot, visits)[y]
    decreases |visits|
  {
    if visits != [] {
      var n := |visits| - 1;
      var front := visits[..n];
      HitsDistinct(snapshot, cursor, front);
      assert visits == front + [visits[n]];
      HitsSnoc(snapshot, front, visits[n]);
      hide Hits;
      var i := snapshot[visits[n].index];
      HitsAre(snapshot, front, i);
      forall o | 0 <= o < n ensures i !in HitOf(snapshot, front[o]) {
        VisitAtInjective(|snapshot|, cursor, o, n);
      }
      assert i !in Hits(snapshot, front);
    }
  }

  // ---------------------------------------------------------------------------
  // Series of passes
  // ---------------------------------------------------------------------------

  /** Each pass starts where the one before it left the cursor. */
  ghost predicate Chained(passes: seq<Pass>) {
    forall k, l | 0 <= k && l == k + 1 && l < |passes| :: passes[l].cursor == passes[k].next
  }

  ghost function Ends(passes: seq<Pass>): (r: seq<PassEnd>)
    ensures |r| == |passes| && forall k | 0 <= k < |passes| :: r[k] == passes[k].end
  {
    seq(|passes|, k requires 0 <= k < |passes| => passes[k].end)
  }

  lemma {:induction false} CursorsAre(passes: seq<Pass>, n: nat, k: nat)
    requires n > 0 && k < |passes| && Chained(passes)
    requires forall x | 0 <= x < |passes| :: |passes[x].snapshot| == n && passes[x].live && PassOk(passes[x])
    ensures CursorAt(n, passes[0].cursor, Ends(passes), k) == passes[k].cursor
  {
    if k > 0 {
      var rest := passes[1..];
      assert passes[0].next == passes[1].cursor;
      assert Ends(passes)[1..] == Ends(rest);
      forall x, y | 0 <= x && y == x + 1 && y < |rest| ensures rest[y].cursor == rest[x].next {
        assert passes[y + 1].cursor == passes[x + 1].next;
      }
      CursorsAre(rest, n, k - 1);
    }
  }

  /**
   Fairness. Among any n passes over the same n streams on a live connection, each stream is come to
   with reads and bytes left to spend; if it is an open client stream then, it is drained.
   */
  lemma FairDrain(passes: seq<Pass>, snapshot: seq<nat>, j: nat) returns (k: nat, o: nat)
    requires j < |snapshot| <= |passes| && Chained(passes)
    requires forall x | 0 <= x < |passes| :: passes[x].snapshot == snapshot && passes[x].live && PassOk(passes[x])
    ensures k < |snapshot| && o < |passes[k].visits|
    ensures var v := passes[k].visits[o];
            && v.index == j && v.purse.readBudget > 0 && v.purse.byteBudget > 0
            && (!v.found.done && v.found.qstream.Some? && !IsServer(v.found.sid) ==>
                  && v.drained && Drained(snapshot[j], v.found, v.left, v.purse, v.io)
                  && (IsBidi(v.left.sid) && v.left.headersComplete && v.left.bodyComplete && !v.left.dispatched ==>
                        snapshot[j] in Hits(snapshot, passes[k].visits)))
  {
    var n, ends := |snapshot|, Ends(passes);
    forall x | 0 <= x < |ends| ensures EndOk(n, ends[x]) {
      assert PassOk(passes[x]);
    }
    FairWithinOneRound(n, passes[0].cursor, ends, j);
    k :| 0 <= k < n && Visits(n, CursorAt(n, passes[0].cursor, ends, k), ends[k], j);
    CursorsAre(passes, n, k);
    o :| 0 <= o < Length(n, ends[k]) && VisitAt(n, passes[k].cursor, o) == j;
    var p := passes[k];
    assert PassOk(p) && VisitedAt(snapshot, p.bufSize, p.cursor, p.visits, o);
    HitsAre(snapshot, p.visits, snapshot[j]);
  }
}
