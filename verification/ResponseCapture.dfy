/**
 Whole-response buffering (capture_body_bucket in mod_http3/src/h3_filter.c), used when
 H3MaxResponseBodySize is set: like the request body buffer, but without a clamp.
 */
module ResponseCapture {
  import opened ResponseQueue
  import opened RequestBody

  const MAX_RESPONSE_BODY_SIZE := 2 * 1024 * 1024 * 1024   // the largest H3MaxResponseBodySize

  /** One bucket: kept whole unless the response is too large with it, and nothing is kept after that. */
  function Capture(s: Stored, data: seq<Byte>, limit: nat): Stored {
    if s.overflow || data == [] then s
    else if |data| > limit - |s.bytes| then s.(overflow := true)
    else s.(bytes := s.bytes + data)
  }

  /** Both buffers keep the same bytes, although they test the limit differently. */
  lemma CaptureIsReceive(s: Stored, data: seq<Byte>, limit: nat)
    ensures Capture(s, data, limit) == Receive(s, data, limit)
  {
  }

  class CaptureBuffer {
    var heap: array<Byte>
    var len: nat
    var tooLarge: bool
    const limit: nat          // H3MaxResponseBodySize
    ghost var copied: nat

    ghost predicate Valid()
      reads this, heap
    {
      && 0 < limit <= MAX_RESPONSE_BODY_SIZE
      && len <= heap.Length && len <= limit
      && (heap.Length <= BODY_BUF_INIT_CAP || heap.Length <= 4 * limit)
      && (len > 0 ==> copied < 2 * len) && (len == 0 ==> copied == 0)
      && copied <= heap.Length
    }

    ghost function Contents(): Stored
      requires Valid()
      reads this, heap
    {
      Stored(heap[..len], tooLarge)
    }

    constructor (maxSize: nat)
      requires 0 < maxSize <= MAX_RESPONSE_BODY_SIZE
      ensures Valid() && fresh(heap) && limit == maxSize && Contents() == Stored([], false)
    {
      heap := new Byte[0];
      len, tooLarge, limit, copied := 0, false, maxSize, 0;
    }

    /** Twice the old capacity at least, and no more than a size_t holds. */
    method Grow(needed: nat)
      requires Valid() && heap.Length < needed <= limit
      modifies this`heap, this`copied
      ensures fresh(heap) && needed <= heap.Length && heap[..len] == old(heap[..len])
      ensures heap.Length <= BODY_BUF_INIT_CAP || heap.Length <= 4 * limit
      ensures copied == old(copied) + len && copied <= heap.Length
    {
      var start := if heap.Length > 0 then heap.Length * 2 else BODY_BUF_INIT_CAP;
      var cap := Doubled(start, needed);
      assert cap <= SIZE_MAX;
      var grown := new Byte[cap];
      if len > 0 {
        Copy(heap, grown, len);
        copied := copied + len;
      }
      heap := grown;
    }

    /** capture_body_bucket on the bytes of one bucket. */
    method CaptureBucket(data: seq<Byte>)
      requires Valid() && |data| <= PTRDIFF_MAX
      modifies this, heap
      ensures Valid() && (heap == old(heap) || fresh(heap))
      ensures Contents() == Capture(old(Contents()), data, limit)
    {
      if tooLarge || data == [] {
        return;
      }
      if len > limit || |data| > limit - len {
        tooLarge := true;
        return;
      }
      var newLen := len + |data|;
      if newLen > heap.Length {
        Grow(newLen);
      }
      assert heap[..len] == old(heap[..len]);
      Store(data, heap, len);
      len := newLen;
    }

    /**
     A whole response, bucket by bucket: within the limit it is all there, and fewer than two bytes
     were copied for each stored.
     */
    method CaptureAll(buckets: seq<seq<Byte>>)
      requires Valid() && forall k | 0 <= k < |buckets| :: |buckets[k]| <= PTRDIFF_MAX
      modifies this, heap
      ensures Valid() && (heap == old(heap) || fresh(heap))
      ensures Contents() == ReceiveAll(old(Contents()), buckets, limit)
      ensures len > 0 ==> copied < 2 * len
    {
      var k := 0;
      while k < |buckets|
        invariant 0 <= k <= |buckets| && Valid() && (heap == old(heap) || fresh(heap))
        invariant Contents() == ReceiveAll(old(Contents()), buckets[..k], limit)
      {
        ReceiveAllSnoc(old(Contents()), buckets[..k], buckets[k], limit);
        CaptureIsReceive(Contents(), buckets[k], limit);
        assert buckets[..k + 1] == buckets[..k] + [buckets[k]];
        CaptureBucket(buckets[k]);
        k := k + 1;
      }
      assert buckets[..k] == buckets;
    }
  }
}
