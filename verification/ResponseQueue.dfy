/**
 The bounded response queue of one stream, on values: what the chunk list of
 mod_http3/src/h3_session.c holds, and what append, pull, ack, cancel and
 cleanup do to it. `ResponseList` proves the pointer version against this one.
 */
module ResponseQueue {

  type Byte = bv8

  const SIZE_MAX := 0xFFFF_FFFF_FFFF_FFFF
  const STREAM_CHUNK_BYTES := 4096

  datatype Chunk = Chunk(data: seq<Byte>, acked: nat)

  /** `submit` is the index of the chunk the submit cursor points at, or |chunks| for a null cursor. */
  datatype Queue = Queue(
    chunks: seq<Chunk>,
    submit: int,
    buffered: int,
    total: nat,
    limit: nat,
    submitted: bool,
    complete: bool,
    cancelled: bool)

  function Min(a: int, b: int): int { if a <= b then a else b }

  function Empty(limit: nat): Queue {
    Queue([], 0, 0, 0, limit, false, false, false)
  }

  // ---------------------------------------------------------------------------
  // Contents
  // ---------------------------------------------------------------------------

  function Rest(c: Chunk): seq<Byte> {
    if c.acked <= |c.data| then c.data[c.acked..] else []
  }

  /** The bytes still held by a run of chunks, in order. */
  function Unacked(cs: seq<Chunk>): seq<Byte> {
    if cs == [] then [] else Rest(cs[0]) + Unacked(cs[1..])
  }

  lemma {:induction false} UnackedConcat(a: seq<Chunk>, b: seq<Chunk>)
    ensures Unacked(a + b) == Unacked(a) + Unacked(b)
  {
    if a == [] {
      assert a + b == b;
    } else {
      assert (a + b)[1..] == a[1..] + b;
      UnackedConcat(a[1..], b);
    }
  }

  lemma UnackedSplit(cs: seq<Chunk>, k: nat)
    requires k <= |cs|
    ensures Unacked(cs) == Unacked(cs[..k]) + Unacked(cs[k..])
  {
    assert cs == cs[..k] + cs[k..];
    UnackedConcat(cs[..k], cs[k..]);
  }

  lemma DropSnoc<T>(s: seq<T>, k: nat, x: T)
    requires k <= |s|
    ensures (s + [x])[k..] == s[k..] + [x]
  {
  }

  lemma UnackedSnoc(cs: seq<Chunk>, i: nat, j: nat)
    requires i <= j < |cs|
    ensures Unacked(cs[i..j + 1]) == Unacked(cs[i..j]) + Rest(cs[j])
  {
    assert cs[i..j + 1] == cs[i..j] + [cs[j]];
    UnackedConcat(cs[i..j], [cs[j]]);
  }

  ghost predicate ChunkOk(c: Chunk) {
    1 <= |c.data| <= STREAM_CHUNK_BYTES && c.acked < |c.data|
  }

  /** The shape every operation keeps: only a pulled head may be partly acknowledged. */
  ghost predicate Shape(cs: seq<Chunk>, submit: int) {
    && 0 <= submit <= |cs|
    && (forall i | 0 <= i < |cs| :: ChunkOk(cs[i]))
    && (forall i | 0 <= i < |cs| && (i > 0 || submit == 0) :: cs[i].acked == 0)
  }

  ghost predicate Valid(q: Queue) {
    && Shape(q.chunks, q.submit)
    && q.buffered == |Unacked(q.chunks)|
    && q.buffered <= q.limit
    && 0 < q.limit
    && q.total <= SIZE_MAX
  }

  /** Bytes handed to nghttp3 and not acknowledged yet. */
  ghost function Pulled(q: Queue): seq<Byte>
    requires 0 <= q.submit <= |q.chunks|
  {
    Unacked(q.chunks[..q.submit])
  }

  /** Bytes nghttp3 has not been given. */
  ghost function Waiting(q: Queue): seq<Byte>
    requires 0 <= q.submit <= |q.chunks|
  {
    Unacked(q.chunks[q.submit..])
  }

  lemma {:induction false} NonEmptyChunksHoldBytes(cs: seq<Chunk>)
    requires forall i | 0 <= i < |cs| :: ChunkOk(cs[i])
    ensures |Unacked(cs)| >= |cs|
    ensures Unacked(cs) == [] <==> cs == []
  {
    if cs != [] {
      NonEmptyChunksHoldBytes(cs[1..]);
    }
  }

  // ---------------------------------------------------------------------------
  // Acknowledge
  // ---------------------------------------------------------------------------

  function AckChunks(cs: seq<Chunk>, n: nat): (r: seq<Chunk>)
    ensures |r| <= |cs|
    decreases |cs|
  {
    if n == 0 || cs == [] then cs
    else
      var available := |Rest(cs[0])|;
      if n < available then [cs[0].(acked := cs[0].acked + n)] + cs[1..]
      else AckChunks(cs[1..], n - available)
  }

  /** `submit` goes negative exactly when the chunk under the cursor has been freed. */
  function Ack(q: Queue, n: nat): Queue {
    var left := AckChunks(q.chunks, n);
    q.(chunks := left,
       submit := q.submit - (|q.chunks| - |left|),
       buffered := q.buffered - Min(n, |Unacked(q.chunks)|))
  }

  lemma {:induction false} AckChunksDrops(cs: seq<Chunk>, n: nat)
    requires forall i | 0 <= i < |cs| :: ChunkOk(cs[i])
    requires n <= |Unacked(cs)|
    ensures Unacked(AckChunks(cs, n)) == Unacked(cs)[n..]
  {
    if n == 0 || cs == [] {
    } else {
      var available := |Rest(cs[0])|;
      if n < available {
        var c := cs[0].(acked := cs[0].acked + n);
        assert Rest(c) == Rest(cs[0])[n..];
        assert ([c] + cs[1..])[1..] == cs[1..];
      } else {
        AckChunksDrops(cs[1..], n - available);
        assert Unacked(cs)[n..] == Unacked(cs[1..])[n - available..];
      }
    }
  }

  lemma {:induction false} AckChunksEmpties(cs: seq<Chunk>, n: nat)
    requires n >= |Unacked(cs)|
    requires forall i | 0 <= i < |cs| :: ChunkOk(cs[i])
    ensures AckChunks(cs, n) == []
  {
    if cs != [] {
      AckChunksEmpties(cs[1..], n - |Rest(cs[0])|);
    }
  }

  lemma {:induction false} AckChunksShape(cs: seq<Chunk>, n: nat)
    requires forall i | 0 <= i < |cs| :: ChunkOk(cs[i])
    requires forall i | 1 <= i < |cs| :: cs[i].acked == 0
    ensures forall i | 0 <= i < |AckChunks(cs, n)| :: ChunkOk(AckChunks(cs, n)[i])
    ensures forall i | 1 <= i < |AckChunks(cs, n)| :: AckChunks(cs, n)[i].acked == 0
  {
    if n != 0 && cs != [] && n >= |Rest(cs[0])| {
      AckChunksShape(cs[1..], n - |Rest(cs[0])|);
    }
  }

  /** One turn of the ack loop: part of the head, or the whole head and on. */
  lemma AckChunksHead(cs: seq<Chunk>, n: nat)
    requires cs != [] && n > 0 && cs[0].acked <= |cs[0].data|
    ensures var available := |cs[0].data| - cs[0].acked;
            var aged := cs[0 := cs[0].(acked := cs[0].acked + n)];
            if n < available
            then AckChunks(cs, n) == aged == AckChunks(aged, 0) && |Unacked(aged)| == |Unacked(cs)| - n
            else
              && AckChunks(cs, n) == AckChunks(cs[1..], n - available)
              && |Unacked(cs[1..])| == |Unacked(cs)| - available
  {
    assert cs[0 := cs[0].(acked := cs[0].acked + n)][1..] == cs[1..];
  }

  lemma AckChunksEnd(cs: seq<Chunk>, n: nat)
    ensures n == 0 || cs == [] ==> AckChunks(cs, n) == cs
    ensures cs == [] ==> Unacked(cs) == []
  {
  }

  /** An ack past the first k chunks frees more than k of them, or bites into the one after. */
  lemma {:induction false} AckPast(cs: seq<Chunk>, k: nat, n: nat)
    requires k < |cs| && n > |Unacked(cs[..k])|
    ensures var r := AckChunks(cs, n);
            || |cs| - |r| > k
            || (|cs| - |r| == k && r != [] && r[0].acked > 0)
    decreases k
  {
    if k > 0 {
      assert cs[..k][1..] == cs[1..][..k - 1];
      AckPast(cs[1..], k - 1, n - |Rest(cs[0])|);
    }
  }

  /** Within the pulled part, an ack works on the pulled chunks alone. */
  lemma {:induction false} AckPulledOnly(cs: seq<Chunk>, k: nat, n: nat)
    requires k <= |cs|
    requires forall i | 0 <= i < |cs| :: ChunkOk(cs[i])
    requires n <= |Unacked(cs[..k])|
    ensures AckChunks(cs, n) == AckChunks(cs[..k], n) + cs[k..]
    decreases k
  {
    if n == 0 {
      assert cs == cs[..k] + cs[k..];
    } else {
      assert k > 0;
      assert cs[..k][0] == cs[0];
      assert cs[..k][1..] == cs[1..][..k-1];
      assert cs[1..][k-1..] == cs[k..];
      var available := |Rest(cs[0])|;
      if n < available {
        assert cs[1..] == cs[1..][..k-1] + cs[k..];
      } else {
        AckPulledOnly(cs[1..], k - 1, n - available);
      }
    }
  }

  /**
   Acknowledging bytes that were pulled removes exactly that many bytes from the
   front, keeps the bytes behind the submit cursor, and keeps the queue valid.
   */
  lemma AckWithinPulled(q: Queue, n: nat)
    requires Valid(q)
    requires n <= |Pulled(q)|
    ensures Valid(Ack(q, n))
    ensures n <= |Unacked(q.chunks)|
    ensures Unacked(Ack(q, n).chunks) == Unacked(q.chunks)[n..]
    ensures Pulled(Ack(q, n)) == Pulled(q)[n..]
    ensures Waiting(Ack(q, n)) == Waiting(q)
    ensures Ack(q, n).buffered == q.buffered - n
    ensures |Ack(q, n).chunks| - Ack(q, n).submit == |q.chunks| - q.submit
  {
    var cs, k := q.chunks, q.submit;
    var r := Ack(q, n);
    var front := AckChunks(cs[..k], n);
    UnackedSplit(cs, k);
    AckPulledOnly(cs, k, n);
    AckChunksDrops(cs[..k], n);
    AckChunksDrops(cs, n);
    AckChunksShape(cs, n);
    assert r.chunks == front + cs[k..];
    assert r.chunks[..r.submit] == front;
    assert r.chunks[r.submit..] == cs[k..];
    if r.submit == 0 && r.chunks != [] {
      assert r.chunks[0] == cs[k];
    }
  }

  /**
   An ack leaves the submit cursor on a live chunk and all unsubmitted chunks whole
   if and only if it covers no more than was pulled, or nothing was left to pull.
   */
  lemma AckSafeExactly(q: Queue, n: nat)
    requires Valid(q)
    ensures Valid(Ack(q, n)) <==> (q.submit == |q.chunks| || n <= |Pulled(q)|)
  {
    if n <= |Pulled(q)| {
      AckWithinPulled(q, n);
    } else if q.submit == |q.chunks| {
      assert q.chunks[..q.submit] == q.chunks;
      AckChunksEmpties(q.chunks, n);
    } else {
      AckPast(q.chunks, q.submit, n);
    }
  }

  /** The condition of AckSafeExactly also says the ack frees nothing at or past the cursor. */
  lemma AckSafe(q: Queue, n: nat)
    requires Valid(q)
    requires q.submit == |q.chunks| || n <= |Pulled(q)|
    ensures Valid(Ack(q, n))
    ensures |q.chunks| - |Ack(q, n).chunks| <= q.submit
    ensures Unacked(Ack(q, n).chunks) == Unacked(q.chunks)[Min(n, |Unacked(q.chunks)|)..]
  {
    AckSafeExactly(q, n);
    if n <= |Unacked(q.chunks)| {
      AckChunksDrops(q.chunks, n);
    } else {
      AckChunksEmpties(q.chunks, n);
    }
  }

  // ---------------------------------------------------------------------------
  // Pull
  // ---------------------------------------------------------------------------

  /** CallbackFailure answers a caller that has no room for a buffer. */
  datatype PullResult = CallbackFailure | WouldBlock | Vecs(vecs: seq<seq<Byte>>, eof: bool)

  function Flatten<T>(vs: seq<seq<T>>): seq<T> {
    if vs == [] then [] else vs[0] + Flatten(vs[1..])
  }

  lemma {:induction false} FlattenSnoc<T>(vs: seq<seq<T>>, v: seq<T>)
    ensures Flatten(vs + [v]) == Flatten(vs) + v
  {
    if vs == [] {
      assert vs + [v] == [v];
    } else {
      assert (vs + [v])[1..] == vs[1..] + [v];
      FlattenSnoc(vs[1..], v);
    }
  }

  function Datas(cs: seq<Chunk>): (r: seq<seq<Byte>>)
    ensures |r| == |cs|
    ensures forall i | 0 <= i < |cs| :: r[i] == cs[i].data
  {
    if cs == [] then [] else [cs[0].data] + Datas(cs[1..])
  }

  lemma NoDatas()
    ensures Datas([]) == []
  {
  }

  lemma DatasSnoc(cs: seq<Chunk>, i: nat, j: nat)
    requires i <= j < |cs|
    ensures Datas(cs[i..j + 1]) == Datas(cs[i..j]) + [cs[j].data]
  {
  }

  /** How many chunks one call of the data reader hands over. */
  function PullCount(q: Queue, veccnt: nat): int {
    if q.cancelled then 0
    else if |q.chunks| - q.submit < veccnt then |q.chunks| - q.submit
    else veccnt
  }

  function AfterPull(q: Queue, veccnt: nat): Queue {
    q.(submit := q.submit + PullCount(q, veccnt))
  }

  function PullOutcome(q: Queue, veccnt: nat): PullResult
    requires 0 <= q.submit <= |q.chunks|
  {
    var k := PullCount(q, veccnt);
    if veccnt == 0 then CallbackFailure
    else if q.cancelled then Vecs([], true)
    else if k == 0 && !q.complete then WouldBlock
    else Vecs(Datas(q.chunks[q.submit..q.submit + k]), q.complete && q.submit + k == |q.chunks|)
  }

  lemma PullNothing(q: Queue, veccnt: nat)
    requires 0 <= q.submit <= |q.chunks| && (veccnt == 0 || q.cancelled)
    ensures AfterPull(q, veccnt) == q
    ensures PullOutcome(q, veccnt) == if veccnt == 0 then CallbackFailure else Vecs([], true)
  {
  }

  /** The verdict and the new cursor, from the chunks the reader's loop took. */
  lemma PullFrom(q: Queue, veccnt: nat, next: int, vecs: seq<seq<Byte>>)
    requires 0 <= q.submit <= |q.chunks| && veccnt > 0 && !q.cancelled
    requires next == Min(q.submit + veccnt, |q.chunks|) && vecs == Datas(q.chunks[q.submit..next])
    ensures AfterPull(q, veccnt) == q.(submit := next)
    ensures PullOutcome(q, veccnt) ==
            if vecs != [] then Vecs(vecs, next == |q.chunks| && q.complete)
            else if q.complete then Vecs([], true) else WouldBlock
  {
  }

  lemma {:induction false} WholeChunks(cs: seq<Chunk>)
    requires forall i | 0 <= i < |cs| :: cs[i].acked == 0
    ensures Unacked(cs) == Flatten(Datas(cs))
  {
    if cs != [] {
      WholeChunks(cs[1..]);
      assert Datas(cs)[1..] == Datas(cs[1..]);
    }
  }

  /** Moving the cursor over whole chunks moves their bytes, in order, from waiting to pulled. */
  lemma CursorMovesBytes(cs: seq<Chunk>, s: nat, k: nat)
    requires s + k <= |cs|
    requires forall i | s <= i < s + k :: cs[i].acked == 0
    ensures Unacked(cs[..s + k]) == Unacked(cs[..s]) + Flatten(Datas(cs[s..s + k]))
    ensures Unacked(cs[s..]) == Flatten(Datas(cs[s..s + k])) + Unacked(cs[s + k..])
  {
    var moved := cs[s..s + k];
    assert cs[..s + k] == cs[..s] + moved;
    UnackedConcat(cs[..s], moved);
    assert cs[s..] == moved + cs[s + k..];
    UnackedConcat(moved, cs[s + k..]);
    WholeChunks(moved);
  }

  /** A pull moves the front of the waiting bytes, whole chunks in order, to the pulled side. */
  lemma PullMovesBytes(q: Queue, veccnt: nat)
    requires Valid(q)
    ensures Valid(AfterPull(q, veccnt))
    ensures Pulled(AfterPull(q, veccnt)) == Pulled(q) + MovedBy(q, veccnt)
    ensures Waiting(q) == MovedBy(q, veccnt) + Waiting(AfterPull(q, veccnt))
  {
    hide Unacked, Datas, Flatten;
    PullKeepsValid(q, veccnt);
    CursorMovesBytes(q.chunks, q.submit, PullCount(q, veccnt));
    MovedByIs(q, veccnt);
  }

  lemma MovedByIs(q: Queue, veccnt: nat)
    requires 0 <= q.submit <= |q.chunks|
    ensures MovedBy(q, veccnt) == Flatten(Datas(q.chunks[q.submit..q.submit + PullCount(q, veccnt)]))
  {
    if PullCount(q, veccnt) == 0 {
      assert q.chunks[q.submit..q.submit] == [];
    }
  }

  lemma PullKeepsValid(q: Queue, veccnt: nat)
    requires Valid(q)
    ensures Valid(AfterPull(q, veccnt))
  {
  }

  /** The bytes one call of the data reader hands over. */
  ghost function MovedBy(q: Queue, veccnt: nat): seq<Byte>
    requires 0 <= q.submit <= |q.chunks|
  {
    match PullOutcome(q, veccnt)
    case CallbackFailure => []
    case WouldBlock => []
    case Vecs(vecs, _) => Flatten(vecs)
  }

  /** The reader blocks exactly when it has nothing to give and more may come, and ends exactly on the last byte. */
  lemma PullVerdict(q: Queue, veccnt: nat)
    requires Valid(q) && veccnt > 0 && !q.cancelled
    ensures PullOutcome(q, veccnt).WouldBlock? <==> !q.complete && Waiting(q) == []
    ensures PullOutcome(q, veccnt).Vecs? ==>
              (PullOutcome(q, veccnt).eof <==> q.complete && Waiting(AfterPull(q, veccnt)) == [])
  {
    NonEmptyChunksHoldBytes(q.chunks[q.submit..]);
    NonEmptyChunksHoldBytes(q.chunks[q.submit + PullCount(q, veccnt)..]);
  }

  // ---------------------------------------------------------------------------
  // Append, cancel, cleanup
  // ---------------------------------------------------------------------------

  /** Size of the next chunk when `remaining` bytes are left to append. */
  function ChunkSize(q: Queue, remaining: nat): int {
    Min(Min(remaining, q.limit - q.buffered), STREAM_CHUNK_BYTES)
  }

  predicate Full(q: Queue) { q.buffered >= q.limit }

  function Append(q: Queue, data: seq<Byte>): Queue {
    q.(chunks := q.chunks + [Chunk(data, 0)],
       buffered := q.buffered + |data|,
       total := q.total + |data|)
  }

  lemma AppendAddsAtTail(q: Queue, data: seq<Byte>)
    requires Valid(q) && !Full(q)
    requires 1 <= |data| <= ChunkSize(q, |data|)
    requires q.total + |data| <= SIZE_MAX
    ensures Valid(Append(q, data))
    ensures Unacked(Append(q, data).chunks) == Unacked(q.chunks) + data
    ensures Pulled(Append(q, data)) == Pulled(q)
    ensures Waiting(Append(q, data)) == Waiting(q) + data
  {
    var c := Chunk(data, 0);
    var r := Append(q, data);
    UnackedConcat(q.chunks, [c]);
    UnackedConcat(q.chunks[q.submit..], [c]);
    assert Unacked([c]) == data;
    assert r.chunks[..q.submit] == q.chunks[..q.submit];
    assert r.chunks[q.submit..] == q.chunks[q.submit..] + [c];
  }

  function Cancel(q: Queue): Queue { q.(cancelled := true, complete := true) }

  function Cleanup(q: Queue): Queue { q.(chunks := [], submit := 0, buffered := 0) }

  // ---------------------------------------------------------------------------
  // Conservation: what was appended and has not been released is what is held
  // ---------------------------------------------------------------------------

  ghost predicate Tied(q: Queue, appended: seq<Byte>, released: nat) {
    && Valid(q)
    && released <= |appended|
    && Unacked(q.chunks) == appended[released..]
  }

  lemma TiedAppend(q: Queue, appended: seq<Byte>, released: nat, data: seq<Byte>)
    requires Tied(q, appended, released) && !Full(q)
    requires 1 <= |data| <= ChunkSize(q, |data|) && q.total + |data| <= SIZE_MAX
    ensures Tied(Append(q, data), appended + data, released)
  {
    AppendAddsAtTail(q, data);
    assert (appended + data)[released..] == appended[released..] + data;
  }

  lemma TiedAck(q: Queue, appended: seq<Byte>, released: nat, n: nat)
    requires Tied(q, appended, released)
    requires q.submit == |q.chunks| || n <= |Pulled(q)|
    ensures Tied(Ack(q, n), appended, released + Min(n, |Unacked(q.chunks)|))
    ensures |q.chunks| - |Ack(q, n).chunks| <= q.submit
  {
    AckSafe(q, n);
    var k := Min(n, |Unacked(q.chunks)|);
    assert appended[released..][k..] == appended[released + k..];
  }

  lemma TiedBounds(q: Queue, appended: seq<Byte>, released: nat)
    requires Tied(q, appended, released)
    ensures 0 <= q.submit <= |q.chunks|
  {
  }

  lemma TiedPull(q: Queue, appended: seq<Byte>, released: nat, veccnt: nat)
    requires Tied(q, appended, released)
    ensures Tied(AfterPull(q, veccnt), appended, released)
  {
    PullMovesBytes(q, veccnt);
  }

  /** What was appended is what was released, pulled and not acknowledged, and waiting, in that order. */
  lemma TiedSplits(q: Queue, appended: seq<Byte>, released: nat)
    requires Tied(q, appended, released)
    ensures released <= |appended| && appended == appended[..released] + Pulled(q) + Waiting(q)
    ensures |appended| == released + q.buffered && q.buffered <= q.limit
  {
    UnackedSplit(q.chunks, q.submit);
    Joined(appended, released, Pulled(q), Waiting(q));
    hide Unacked, Shape;
  }

  lemma Joined(all: seq<Byte>, n: nat, a: seq<Byte>, b: seq<Byte>)
    requires n <= |all| && all[n..] == a + b
    ensures all == all[..n] + a + b
  {
    assert all == all[..n] + all[n..];
  }

  lemma TiedCleanup(q: Queue, appended: seq<Byte>, released: nat)
    requires Tied(q, appended, released)
    ensures Tied(Cleanup(q), appended, |appended|)
  {
  }
}
