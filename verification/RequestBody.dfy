/**
 The request body: DATA frames are collected in a buffer that grows by doubling up to the
 configured maximum (mod_http3/src/h3_callbacks.c), and httpd reads it back in its input
 modes (mod_http3/src/h3_filter.c).
 */
module RequestBody {
  import opened ResponseQueue

  const BODY_BUF_INIT_CAP := 8 * 1024
  const MAX_REQUEST_BODY_SIZE := 1024 * 1024 * 1024   // the largest H3MaxRequestBodySize
  const PTRDIFF_MAX := 0x7fff_ffff_ffff_ffff          // no C object is larger

  // ---------------------------------------------------------------------------
  // Growing
  // ---------------------------------------------------------------------------

  /** Addition of two size_t values. */
  function SizeSum(a: nat, b: nat): (r: nat)
    ensures a + b <= SIZE_MAX ==> r == a + b
  {
    (a + b) % (SIZE_MAX + 1)
  }

  /** The doubling loop. It stops below twice what is needed, so it cannot wrap a size_t. */
  method Doubled(start: nat, needed: nat) returns (cap: nat)
    requires 0 < start && needed <= PTRDIFF_MAX
    ensures cap >= needed && cap >= start
    ensures start < needed ==> 2 * start <= cap < 2 * needed
    ensures start >= needed ==> cap == start
  {
    cap := start;
    while cap < needed
      invariant start <= cap && (cap == start || (2 * start <= cap < 2 * needed))
      decreases needed - cap
    {
      assert 2 * cap <= SIZE_MAX;
      cap := 2 * cap;
    }
  }

  /** memcpy of `n` bytes between buffers that do not overlap. */
  method Copy(src: array<Byte>, dst: array<Byte>, n: nat)
    requires src != dst && n <= src.Length && n <= dst.Length
    modifies dst
    ensures dst[..n] == src[..n]
  {
    forall k | 0 <= k < n {
      dst[k] := src[k];
    }
  }

  method Store(data: seq<Byte>, dst: array<Byte>, at: nat)
    requires at + |data| <= dst.Length
    modifies dst
    ensures dst[..at + |data|] == old(dst[..at]) + data
  {
    forall k | 0 <= k < |data| {
      dst[at + k] := data[k];
    }
  }

  // ---------------------------------------------------------------------------
  // What a run of frames leaves in the buffer
  // ---------------------------------------------------------------------------

  datatype Stored = Stored(bytes: seq<Byte>, overflow: bool)

  /** One DATA frame: kept whole or not at all, and nothing is kept after the first that does not fit. */
  function Receive(s: Stored, data: seq<Byte>, max: nat): Stored {
    if s.overflow || data == [] then s
    else if |s.bytes| + |data| > max then s.(overflow := true)
    else s.(bytes := s.bytes + data)
  }

  function ReceiveAll(s: Stored, frames: seq<seq<Byte>>, max: nat): Stored
    decreases |frames|
  {
    if frames == [] then s else ReceiveAll(Receive(s, frames[0], max), frames[1..], max)
  }

  /** The frames that fit are the longest run of them within the limit. */
  lemma {:induction false} ReceiveAllIs(s: Stored, frames: seq<seq<Byte>>, max: nat) returns (k: nat)
    requires !s.overflow && |s.bytes| <= max
    ensures k <= |frames| && ReceiveAll(s, frames, max).bytes == s.bytes + Flatten(frames[..k])
    ensures ReceiveAll(s, frames, max).overflow <==> k < |frames|
    ensures k < |frames| ==> |s.bytes| + |Flatten(frames[..k])| + |frames[k]| > max
    ensures |s.bytes| + |Flatten(frames[..k])| <= max
    decreases |frames|
  {
    k := 0;
    if frames != [] {
      var r := Receive(s, frames[0], max);
      if r.overflow {
        Stuck(r, frames[1..], max);
      } else {
        var j := ReceiveAllIs(r, frames[1..], max);
        k := j + 1;
        assert frames[..k][1..] == frames[1..][..j];
        assert r.bytes == s.bytes + frames[0];
      }
    }
  }

  lemma {:induction false} Stuck(s: Stored, frames: seq<seq<Byte>>, max: nat)
    requires s.overflow
    ensures ReceiveAll(s, frames, max) == s
    decreases |frames|
  {
    if frames != [] {
      Stuck(s, frames[1..], max);
    }
  }

  lemma {:induction false} FlattenGrows(frames: seq<seq<Byte>>, k: nat)
    requires k < |frames|
    ensures |Flatten(frames[..k])| + |frames[k]| <= |Flatten(frames)|
  {
    if k > 0 {
      assert frames[..k][1..] == frames[1..][..k - 1];
      FlattenGrows(frames[1..], k - 1);
    }
  }

  /** Within the limit every byte of every frame is kept, in order; past it the body is flagged. */
  lemma WithinLimitKeepsAll(frames: seq<seq<Byte>>, max: nat)
    ensures var r := ReceiveAll(Stored([], false), frames, max);
            if |Flatten(frames)| <= max then r == Stored(Flatten(frames), false) else r.overflow && |r.bytes| <= max
  {
    var k := ReceiveAllIs(Stored([], false), frames, max);
    if k < |frames| {
      FlattenGrows(frames, k);
    } else {
      assert frames[..k] == frames;
    }
  }

  // ---------------------------------------------------------------------------
  // The buffer
  // ---------------------------------------------------------------------------

  class BodyBuffer {
    var buf: array<Byte>      // request_body and its capacity
    var len: nat
    var offset: nat           // how far httpd has read
    var overflow: bool
    const isBidi: bool
    const max: nat            // H3MaxRequestBodySize
    ghost var copied: nat     // bytes moved from an old buffer to a larger one

    /** The doubling pays: fewer than two bytes were ever copied for each byte stored. */
    ghost predicate Valid()
      reads this, buf
    {
      && 0 < max <= MAX_REQUEST_BODY_SIZE
      && offset <= len <= buf.Length <= max
      && (len > 0 ==> copied < 2 * len) && (len == 0 ==> copied == 0)
      && (buf.Length == max || copied <= buf.Length)
    }

    ghost function Contents(): Stored
      requires Valid()
      reads this, buf
    {
      Stored(buf[..len], overflow)
    }

    constructor (bidi: bool, maxSize: nat)
      requires 0 < maxSize <= MAX_REQUEST_BODY_SIZE
      ensures Valid() && fresh(buf) && isBidi == bidi && max == maxSize && offset == 0
      ensures Contents() == Stored([], false)
    {
      buf := new Byte[0];
      len, offset, overflow, isBidi, max, copied := 0, 0, false, bidi, maxSize, 0;
    }

    /** Make room for `needed` bytes. */
    method Grow(needed: nat)
      requires Valid() && buf.Length < needed <= max
      modifies this`buf, this`copied
      ensures fresh(buf) && needed <= buf.Length <= max && buf[..len] == old(buf[..len])
      ensures copied == old(copied) + len && (buf.Length == max || copied <= buf.Length)
    {
      var start := if buf.Length > 0 then buf.Length else BODY_BUF_INIT_CAP;
      var cap := Doubled(start, needed);
      if cap > max {
        cap := max;
      }
      var grown := new Byte[cap];
      if len > 0 {
        Copy(buf, grown, len);
        copied := copied + len;
      }
      buf := grown;
    }

    /** on_recv_data. */
    method OnRecvData(data: seq<Byte>)
      requires Valid() && |data| <= PTRDIFF_MAX
      modifies this, buf
      ensures Valid() && (buf == old(buf) || fresh(buf)) && offset == old(offset)
      ensures Contents() == if isBidi then Receive(old(Contents()), data, max) else old(Contents())
    {
      if !isBidi || data == [] || overflow {
        return;
      }
      hide SizeSum;
      var needed := SizeSum(len, |data|);
      if needed > max {
        overflow := true;
        return;
      }
      if needed > buf.Length {
        Grow(needed);
      }
      Put(data);
    }

    /** The bytes go behind what is there. */
    method Put(data: seq<Byte>)
      requires 0 < max <= MAX_REQUEST_BODY_SIZE && offset <= len <= buf.Length <= max
      requires data != [] && len + |data| <= buf.Length
      requires copied < 2 * (len + |data|) && (buf.Length == max || copied <= buf.Length)
      modifies this`len, buf
      ensures Valid() && buf[..len] == old(buf[..len]) + data
    {
      Store(data, buf, len);
      len := len + |data|;
    }

    /** Every DATA frame of a request, as nghttp3 delivers them. */
    method ReceiveBody(frames: seq<seq<Byte>>)
      requires Valid() && isBidi && forall k | 0 <= k < |frames| :: |frames[k]| <= PTRDIFF_MAX
      modifies this, buf
      ensures Valid() && (buf == old(buf) || fresh(buf)) && offset == old(offset)
      ensures Contents() == ReceiveAll(old(Contents()), frames, max)
    {
      var k := 0;
      while k < |frames|
        invariant 0 <= k <= |frames| && Valid() && (buf == old(buf) || fresh(buf)) && offset == old(offset)
        invariant Contents() == ReceiveAll(old(Contents()), frames[..k], max)
      {
        ReceiveAllSnoc(old(Contents()), frames[..k], frames[k], max);
        assert frames[..k + 1] == frames[..k] + [frames[k]];
        OnRecvData(frames[k]);
        k := k + 1;
      }
      assert frames[..k] == frames;
    }

    /** The index of the first newline from `offset` on, or the end. */
    method FindNewline() returns (at: nat)
      requires Valid() && offset < len
      ensures offset <= at <= len && (at < len ==> buf[at] == NEWLINE)
      ensures forall k | offset <= k < at :: buf[k] != NEWLINE
    {
      at := offset;
      while at < len && buf[at] != NEWLINE
        invariant offset <= at <= len
        invariant forall k | offset <= k < at :: buf[k] != NEWLINE
      {
        at := at + 1;
      }
    }

    /** How much of the unread bytes a request takes. */
    method ReadSize(req: Request) returns (want: nat)
      requires Valid() && offset < len && !req.mode.Other?
      ensures want == Want(req, buf[..len][offset..])
    {
      want := len - offset;
      if req.mode.ReadBytes? || req.mode.Speculative? {
        if 0 < req.readbytes < want {
          want := req.readbytes;
        }
      } else if req.mode.GetLine? {
        var nl := FindNewline();
        LineLengthIs(buf[..len][offset..], nl - offset);
        if nl < len {
          want := nl - offset + 1;
        }
      }
    }

    /** serve_request_body. */
    method Read(req: Request) returns (reply: Reply)
      requires Valid()
      modifies this`offset
      ensures Valid()
      ensures reply == ReplyTo(req, buf[..len], old(offset)) && offset == OffsetAfter(req, buf[..len], old(offset))
      ensures ReplyLaw(req, buf[..len][old(offset)..], reply, offset - old(offset))
    {
      ReplyIs(req, buf[..len], offset);
      hide ReplyLaw;
      if req.mode.Other? {
        return Reply([], false);
      }
      var avail := len - offset;
      if avail == 0 {
        return Reply([], true);
      }
      hide Want;
      var want := ReadSize(req);
      assert buf[..len][offset..][..want] == buf[offset..offset + want];
      reply := Reply(buf[offset..offset + want], false);
      if !req.mode.Speculative? {
        offset := offset + want;
        if offset >= len {
          reply := reply.(eos := true);
        }
      }
    }

    /** httpd reads: any requests, in any order. */
    method ReadMany(reqs: seq<Request>) returns (replies: seq<Reply>)
      requires Valid()
      modifies this`offset
      ensures Valid() && |replies| == |reqs|
      ensures offset == OffsetAfterAll(reqs, buf[..len], old(offset))
      ensures forall k | 0 <= k < |reqs| ::
                replies[k] == ReplyTo(reqs[k], buf[..len], OffsetAfterAll(reqs[..k], buf[..len], old(offset)))
      ensures RepliesLaw(reqs, buf[..len], old(offset), replies)
    {
      hide ReplyTo, OffsetAfter, ReplyLaw, RepliesLaw;
      replies := [];
      var k := 0;
      while k < |reqs|
        invariant 0 <= k <= |reqs| && |replies| == k && Valid()
        invariant offset == OffsetAfterAll(reqs[..k], buf[..len], old(offset))
        invariant forall j | 0 <= j < k ::
                    replies[j] == ReplyTo(reqs[j], buf[..len], OffsetAfterAll(reqs[..j], buf[..len], old(offset)))
      {
        assert reqs[..k + 1][..k] == reqs[..k];
        var reply := Read(reqs[k]);
        replies := replies + [reply];
        k := k + 1;
      }
      assert reqs[..k] == reqs;
      RepliesAre(reqs, buf[..len], old(offset), replies);
    }
  }

  lemma {:induction false} ReceiveAllSnoc(s: Stored, frames: seq<seq<Byte>>, last: seq<Byte>, max: nat)
    ensures ReceiveAll(s, frames + [last], max) == Receive(ReceiveAll(s, frames, max), last, max)
    decreases |frames|
  {
    if frames == [] {
      assert frames + [last] == [last];
    } else {
      assert (frames + [last])[1..] == frames[1..] + [last];
      ReceiveAllSnoc(Receive(s, frames[0], max), frames[1..], last, max);
    }
  }

  // ---------------------------------------------------------------------------
  // Reading back
  // ---------------------------------------------------------------------------

  const NEWLINE: Byte := 10

  /** httpd's input modes; Other stands for the two that ask for nothing here. */
  datatype Mode = ReadBytes | GetLine | Exhaustive | Speculative | Other
  datatype Request = Request(mode: Mode, readbytes: int)
  datatype Reply = Reply(data: seq<Byte>, eos: bool)

  predicate Consuming(m: Mode) { m.ReadBytes? || m.GetLine? || m.Exhaustive? }

  /** The length of the first line, with its newline if it has one. */
  function LineLength(unread: seq<Byte>): (n: nat)
    ensures n <= |unread| && (unread != [] ==> n > 0)
  {
    if unread == [] then 0 else if unread[0] == NEWLINE then 1 else 1 + LineLength(unread[1..])
  }

  lemma {:induction false} LineLengthIs(unread: seq<Byte>, nl: nat)
    requires nl <= |unread| && (nl < |unread| ==> unread[nl] == NEWLINE)
    requires forall k | 0 <= k < nl :: unread[k] != NEWLINE
    ensures LineLength(unread) == if nl < |unread| then nl + 1 else |unread|
  {
    if nl > 0 {
      LineLengthIs(unread[1..], nl - 1);
    }
  }

  function Want(req: Request, unread: seq<Byte>): (n: nat)
    ensures n <= |unread| && (unread != [] && !req.mode.Other? ==> n > 0)
  {
    match req.mode
    case Other => 0
    case Exhaustive => |unread|
    case GetLine => LineLength(unread)
    case _ => if 0 < req.readbytes < |unread| then req.readbytes else |unread|
  }

  function OffsetAfter(req: Request, body: seq<Byte>, offset: nat): (r: nat)
    requires offset <= |body|
    ensures offset <= r <= |body|
  {
    if Consuming(req.mode) then offset + Want(req, body[offset..]) else offset
  }

  /** The bytes asked for from where the reader is, with the end marked once it has everything. */
  function ReplyTo(req: Request, body: seq<Byte>, offset: nat): Reply
    requires offset <= |body|
  {
    Reply(body[offset..][..Want(req, body[offset..])],
          !req.mode.Other? && (offset == |body| || OffsetAfter(req, body, offset) == |body|))
  }

  /**
   What a reply to a request must be, when these bytes are unread and the reader moves by `taken`. A byte
   count is respected, and without one everything is given; a line ends at its first newline; what is
   looked ahead at is not taken; and the end is marked exactly when nothing was unread, or a read that
   takes took the last byte.
   */
  ghost predicate ReplyLaw(req: Request, unread: seq<Byte>, reply: Reply, taken: int) {
    var sized := req.mode.ReadBytes? || req.mode.Speculative?;
    && reply.data <= unread && taken == (if req.mode.Speculative? then 0 else |reply.data|)
    && (req.mode.Other? ==> reply == Reply([], false))
    && (sized && req.readbytes > 0 ==> |reply.data| == Min(req.readbytes, |unread|))
    && (req.mode.Exhaustive? || (sized && req.readbytes <= 0) ==> reply.data == unread)
    && (req.mode.GetLine? ==>
          && (forall k | 0 <= k < |reply.data| - 1 :: reply.data[k] != 10)
          && (reply.data == unread || (reply.data != [] && reply.data[|reply.data| - 1] == 10)))
    && (reply.eos <==> !req.mode.Other? && (unread == [] || (!req.mode.Speculative? && reply.data == unread)))
  }

  /** The replies are those. */
  lemma ReplyIs(req: Request, body: seq<Byte>, offset: nat)
    requires offset <= |body|
    ensures ReplyLaw(req, body[offset..], ReplyTo(req, body, offset), OffsetAfter(req, body, offset) - offset)
  {
    var unread := body[offset..];
    if req.mode.GetLine? {
      LineEnds(unread);
    }
    hide LineLength;
  }

  lemma {:induction false} LineEnds(unread: seq<Byte>)
    ensures var n := LineLength(unread);
            && (forall k | 0 <= k < n - 1 :: unread[k] != 10)
            && (n == |unread| || (n > 0 && unread[n - 1] == 10))
    decreases |unread|
  {
    if unread != [] {
      LineEnds(unread[1..]);
      var n := LineLength(unread);
      forall k | 0 <= k < n - 1 ensures unread[k] != 10 {
        assert k > 0 ==> unread[k] == unread[1..][k - 1];
      }
    }
  }

  function OffsetAfterAll(reqs: seq<Request>, body: seq<Byte>, offset: nat): (r: nat)
    requires offset <= |body|
    ensures offset <= r <= |body|
  {
    if reqs == [] then offset
    else OffsetAfter(reqs[|reqs| - 1], body, OffsetAfterAll(reqs[..|reqs| - 1], body, offset))
  }

  /** Each reply is as it must be, for what was unread when its request came. */
  ghost predicate RepliesLaw(reqs: seq<Request>, body: seq<Byte>, offset: nat, replies: seq<Reply>)
    requires offset <= |body|
  {
    && |replies| == |reqs|
    && forall k | 0 <= k < |reqs| ::
         var at, next := OffsetAfterAll(reqs[..k], body, offset), OffsetAfterAll(reqs[..k + 1], body, offset);
         ReplyLaw(reqs[k], body[at..], replies[k], next - at)
  }

  lemma RepliesAre(reqs: seq<Request>, body: seq<Byte>, offset: nat, replies: seq<Reply>)
    requires offset <= |body| && |replies| == |reqs|
    requires forall k | 0 <= k < |reqs| :: replies[k] == ReplyTo(reqs[k], body, OffsetAfterAll(reqs[..k], body, offset))
    ensures RepliesLaw(reqs, body, offset, replies)
  {
    hide ReplyTo, OffsetAfter, ReplyLaw;
    forall k | 0 <= k < |reqs|
      ensures var at, next := OffsetAfterAll(reqs[..k], body, offset), OffsetAfterAll(reqs[..k + 1], body, offset);
              ReplyLaw(reqs[k], body[at..], replies[k], next - at)
    {
      assert reqs[..k + 1][..k] == reqs[..k];
      ReplyIs(reqs[k], body, OffsetAfterAll(reqs[..k], body, offset));
    }
  }

  /** What the consuming reads delivered, joined. */
  function Delivered(reqs: seq<Request>, body: seq<Byte>, offset: nat): seq<Byte>
    requires offset <= |body|
  {
    if reqs == [] then []
    else
      var front, last := reqs[..|reqs| - 1], reqs[|reqs| - 1];
      Delivered(front, body, offset)
      + if Consuming(last.mode) then ReplyTo(last, body, OffsetAfterAll(front, body, offset)).data else []
  }

  function ConsumingCount(reqs: seq<Request>): nat {
    if reqs == [] then 0
    else ConsumingCount(reqs[..|reqs| - 1]) + if Consuming(reqs[|reqs| - 1].mode) then 1 else 0
  }

  /** Whatever the requests, the consuming reads join up to exactly the bytes passed over. */
  lemma {:induction false} DeliveredIs(reqs: seq<Request>, body: seq<Byte>, offset: nat)
    requires offset <= |body|
    ensures Delivered(reqs, body, offset) == body[offset..OffsetAfterAll(reqs, body, offset)]
  {
    if reqs != [] {
      var front, last := reqs[..|reqs| - 1], reqs[|reqs| - 1];
      DeliveredIs(front, body, offset);
      var at := OffsetAfterAll(front, body, offset);
      var next := OffsetAfter(last, body, at);
      assert body[offset..at] + body[at..next] == body[offset..next];
      if Consuming(last.mode) {
        assert body[at..][..next - at] == body[at..next];
      }
    }
  }

  /** Every consuming read makes progress, so enough of them reach the end. */
  lemma {:induction false} EnoughReads(reqs: seq<Request>, body: seq<Byte>, offset: nat)
    requires offset <= |body|
    ensures OffsetAfterAll(reqs, body, offset) >= Min(|body|, offset + ConsumingCount(reqs))
  {
    if reqs != [] {
      EnoughReads(reqs[..|reqs| - 1], body, offset);
    }
  }

  /**
   The round trip. For frames within the limit and any requests, the consuming reads deliver a prefix
   of the frames' bytes; a reply marks the end only when everything has been delivered; and as many
   consuming reads as there are bytes deliver it all.
   */
  lemma BodyRoundTrip(frames: seq<seq<Byte>>, max: nat, reqs: seq<Request>, k: nat)
    requires |Flatten(frames)| <= max && k < |reqs|
    ensures var body := ReceiveAll(Stored([], false), frames, max).bytes;
            && Delivered(reqs, body, 0) <= Flatten(frames)
            && (ReplyTo(reqs[k], body, OffsetAfterAll(reqs[..k], body, 0)).eos ==>
                  Delivered(reqs[..k + 1], body, 0) == Flatten(frames))
            && (ConsumingCount(reqs) >= |Flatten(frames)| ==> Delivered(reqs, body, 0) == Flatten(frames))
  {
    WithinLimitKeepsAll(frames, max);
    var body := Flatten(frames);
    DeliveredAll(reqs, body);
    EndMeansAll(reqs, body, k);
    hide Delivered, OffsetAfterAll, ReplyTo, ConsumingCount, Flatten;
  }

  lemma DeliveredAll(reqs: seq<Request>, body: seq<Byte>)
    ensures Delivered(reqs, body, 0) <= body
    ensures ConsumingCount(reqs) >= |body| ==> Delivered(reqs, body, 0) == body
  {
    hide Delivered, OffsetAfterAll, ConsumingCount;
    DeliveredIs(reqs, body, 0);
    EnoughReads(reqs, body, 0);
    var n := OffsetAfterAll(reqs, body, 0);
    assert body[0..n] == body[..n];
  }

  lemma EndMeansAll(reqs: seq<Request>, body: seq<Byte>, k: nat)
    requires k < |reqs|
    ensures ReplyTo(reqs[k], body, OffsetAfterAll(reqs[..k], body, 0)).eos ==> Delivered(reqs[..k + 1], body, 0) == body
  {
    DeliveredIs(reqs[..k + 1], body, 0);
    assert reqs[..k + 1][..k] == reqs[..k];
    hide Delivered, Want;
  }

  /** A read that looks ahead shows what the next read of the same size will deliver, and moves nothing. */
  lemma SpeculativeShowsNext(body: seq<Byte>, offset: nat, readbytes: int)
    requires offset <= |body|
    ensures var look, take := Request(Speculative, readbytes), Request(ReadBytes, readbytes);
            && OffsetAfter(look, body, offset) == offset
            && ReplyTo(look, body, offset).data == ReplyTo(take, body, offset).data
  {
  }
}
