/**
 The response queue as mod_http3/src/h3_session.c keeps it: a singly linked list of
 heap chunks with three cursors (head, tail, submit), updated in place.
 Every method is proved against the value operation of the same name in ResponseQueue.
 */
module ResponseList {
  import opened ResponseQueue

  class ChunkNode {
    var next: ChunkNode?
    const data: seq<Byte>
    var acked: nat
    ghost var live: bool   // false once free() has been called on it
    ghost const serial: int  // chunks are numbered in the order they were linked

    constructor (data: seq<Byte>, ghost serial: int)
      ensures this.data == data && next == null && acked == 0 && live && this.serial == serial
    {
      this.data := data;
      this.serial := serial;
      next := null;
      acked := 0;
      live := true;
    }
  }

  /**
   The chunk list and its three cursors. `links` numbers every chunk ever linked; the list
   holds those from `dropped` on, and the submit cursor stands at `at`.
   */
  class ChunkList {
    var head: ChunkNode?
    var tail: ChunkNode?
    var submitChunk: ChunkNode?
    var submitOffset: nat

    ghost var links: seq<ChunkNode>
    ghost var cells: seq<Chunk>  // their values, index by index
    ghost var dropped: nat
    ghost var at: nat

    /** Tail is the last node, a chunk is live exactly while listed, and each cursor is null or a listed chunk. */
    ghost predicate Linked()
      reads this, links
    {
      && dropped <= at <= |links| == |cells|
      && (forall i | 0 <= i < |links| :: links[i].serial == i && (links[i].live <==> dropped <= i))
      && (forall i | dropped <= i < |links| ::
            links[i].data == cells[i].data && links[i].acked == cells[i].acked <= |cells[i].data|)
      && (forall i, j | dropped <= i && j < |links| && j == i + 1 :: links[i].next == links[j])
      && (if dropped == |links| then head == null && tail == null
          else head == links[dropped] && tail == links[|links| - 1] && tail.next == null)
      && submitChunk == (if at < |links| then links[at] else null)
      && submitOffset == 0
    }

    ghost function Chunks(): seq<Chunk>
      reads this
      requires dropped <= |cells|
    {
      cells[dropped..]
    }

    /** What the loops below need to know of the links. */
    lemma HeadFacts()
      requires Linked()
      ensures dropped <= at <= |cells| == |links|
      ensures head == null <==> dropped == |cells|
      ensures head != null ==> head in links && cells[dropped].acked <= |cells[dropped].data|
      ensures submitChunk == null <==> at == |cells|
      ensures tail != null ==> tail in links
    {
    }

    constructor ()
      ensures Linked() && links == [] && Chunks() == [] && at == dropped
    {
      head, tail, submitChunk, submitOffset := null, null, null, 0;
      links, cells, dropped, at := [], [], 0, 0;
    }

    /** Link a chunk behind the tail (the locked section of append). */
    method PushBack(data: seq<Byte>)
      requires Linked()
      modifies this, tail
      ensures Linked()
      ensures Chunks() == old(Chunks()) + [Chunk(data, 0)] && dropped == old(dropped) && at == old(at)
      ensures |links| == old(|links|) + 1 && GrownFrom(links, old(links)) && fresh(links[old(|links|)])
    {
      var chunk := new ChunkNode(data, |links|);
      DropSnoc(cells, dropped, Chunk(data, 0));
      Chain(chunk);
      if submitChunk == null {
        submitChunk := chunk;
        submitOffset := 0;
        at := at - 1;
      }
    }

    /** The tail side of linking; a null submit cursor stays null for the moment. */
    method Chain(chunk: ChunkNode)
      requires Linked() && chunk.serial == |links| && chunk.next == null && chunk.acked == 0 && chunk.live
      requires forall i | 0 <= i < |links| :: links[i] != chunk
      modifies this`head, this`tail, this`links, this`cells, this`at, tail
      ensures Linked()
      ensures links == old(links) + [chunk] && cells == old(cells) + [Chunk(chunk.data, 0)]
      ensures at == if submitChunk == null then |links| else old(at)
    {
      if tail != null {
        tail.next := chunk;
      } else {
        head := chunk;
      }
      tail := chunk;
      at := if submitChunk == null then at + 1 else at;
      links, cells := links + [chunk], cells + [Chunk(chunk.data, 0)];
      assert forall i | 0 <= i < |old(links)| :: links[i] == old(links)[i] && cells[i] == old(cells)[i];
    }

    /** Acknowledge `consumed` more bytes of the head. */
    method AgeHead(consumed: nat)
      requires Linked() && head != null && head.acked + consumed <= |head.data|
      modifies this`cells, head
      ensures Linked()
      ensures head.acked == old(head.acked) + consumed
      ensures cells == old(cells)[dropped := old(cells)[dropped].(acked := old(cells)[dropped].acked + consumed)]
    {
      head.acked := head.acked + consumed;
      cells := cells[dropped := cells[dropped].(acked := cells[dropped].acked + consumed)];
    }

    /** Unlink and free the head, which the submit cursor must have passed. */
    method FreeHead()
      requires Linked() && head != null && dropped < at
      modifies this`head, this`tail, this`dropped, head
      ensures Linked() && dropped == old(dropped) + 1 && !old(head).live
    {
      var chunk := head;
      head := chunk.next;
      if head == null {
        tail := null;
      }
      chunk.live := false;
      dropped := dropped + 1;
    }

    /**
     The loop of h3_stream_response_ack_locked. It frees the chunks AckChunks drops, and needs
     no more than that the submit cursor is not on one of them.
     */
    method AckBytes(count: nat) returns (acked: nat)
      requires Linked()
      requires |cells| - |AckChunks(Chunks(), count)| <= at
      modifies this`head, this`tail, this`dropped, this`cells, links
      ensures Linked()
      ensures Chunks() == AckChunks(old(Chunks()), count) && |cells| == old(|cells|)
      ensures acked == Min(count, |Unacked(old(Chunks()))|)
    {
      hide Linked, ResponseQueue.AckChunks, ResponseQueue.Unacked;
      HeadFacts();
      var datalen: nat := count;
      acked := 0;
      ghost var cs := Chunks();
      ghost var goal, size := AckChunks(cs, count), |Unacked(cs)|;
      while datalen > 0 && head != null
        invariant Linked() && |cells| == old(|cells|) && dropped <= |cells| && cs == cells[dropped..]
        invariant acked + datalen == count
        invariant AckChunks(cs, datalen) == goal
        invariant acked + |Unacked(cs)| == size
        decreases |cells| - dropped, datalen
      {
        HeadFacts();
        AckChunksHead(cs, datalen);
        var consumed := AckTurn(datalen);
        datalen := datalen - consumed;
        acked := acked + consumed;
        cs := cells[dropped..];
      }
      HeadFacts();
      AckChunksEnd(cs, datalen);
    }

    /** One turn of that loop: part of the head, or all of it and its release. */
    method AckTurn(datalen: nat) returns (consumed: nat)
      requires Linked() && head != null && datalen > 0
      requires datalen < |cells[dropped].data| - cells[dropped].acked || dropped < at
      modifies this`head, this`tail, this`dropped, this`cells, head
      ensures Linked() && |cells| == old(|cells|)
      ensures var c := old(cells)[old(dropped)];
              var available := |c.data| - c.acked;
              if datalen < available
              then
                && consumed == datalen && dropped == old(dropped)
                && cells == old(cells)[dropped := c.(acked := c.acked + datalen)]
              else consumed == available && dropped == old(dropped) + 1 && cells[dropped..] == old(cells)[dropped..]
    {
      var available := |head.data| - head.acked;
      consumed := if datalen < available then datalen else available;
      AgeHead(consumed);
      if head.acked == |head.data| {
        FreeHead();
      }
    }

    /** Take the chunk under the submit cursor and move the cursor on. */
    method TakeSubmit() returns (data: seq<Byte>)
      requires Linked() && submitChunk != null
      modifies this`submitChunk, this`submitOffset, this`at
      ensures Linked() && at == old(at) + 1 && data == cells[old(at)].data
    {
      var chunk := submitChunk;
      data := chunk.data[submitOffset..];
      submitChunk := chunk.next;
      submitOffset := 0;
      at := at + 1;
    }

    /** The loop of h3_session_read_data: whole chunks through the submit cursor. */
    method TakeSome(veccnt: nat) returns (vecs: seq<seq<Byte>>)
      requires Linked()
      modifies this`submitChunk, this`submitOffset, this`at
      ensures Linked() && at == Min(old(at) + veccnt, |cells|)
      ensures vecs == Datas(cells[old(at)..at])
    {
      hide Linked, ResponseQueue.Datas;
      HeadFacts();
      vecs := [];
      assert cells[at..at] == [];
      NoDatas();
      while submitChunk != null && |vecs| < veccnt
        invariant Linked() && at <= |cells| && (submitChunk == null <==> at == |cells|)
        invariant at == old(at) + |vecs| && |vecs| <= veccnt
        invariant vecs == Datas(cells[old(at)..at])
        decreases |cells| - at
      {
        DatasSnoc(cells, old(at), at);
        var data := TakeSubmit();
        HeadFacts();
        vecs := vecs + [data];
      }
    }

    /** Count the bytes between the head and the submit cursor. */
    method PulledBytes() returns (count: nat)
      requires Linked()
      ensures count == |Unacked(cells[dropped..at])|
    {
      hide ResponseQueue.Unacked;
      AckChunksEnd(cells[dropped..dropped], 0);
      count := 0;
      var node := head;
      ghost var i := dropped;
      while node != submitChunk
        invariant dropped <= i <= at && node == if i < |links| then links[i] else null
        invariant count == |Unacked(cells[dropped..i])|
        decreases at - i
      {
        UnackedSnoc(cells, dropped, i);
        count := count + |node.data| - node.acked;
        node := node.next;
        i := i + 1;
      }
    }

    /** Free every chunk of the list, each once (h3_stream_response_cleanup_locked). */
    method Clear()
      requires Linked()
      modifies this, links
      ensures Linked() && dropped == at == |links| && links == old(links) && cells == old(cells)
      ensures forall i | 0 <= i < |links| :: !links[i].live
    {
      var chunk := head;
      ghost var i := dropped;
      while chunk != null
        invariant dropped <= i <= |links| && chunk == if i < |links| then links[i] else null
        invariant links == old(links) && cells == old(cells) && dropped == old(dropped)
        invariant forall j | 0 <= j < |links| :: links[j].next == old(links[j].next) && (links[j].live <==> i <= j)
        decreases |links| - i
      {
        assert chunk.live;
        var next := chunk.next;
        chunk.live := false;
        chunk := next;
        i := i + 1;
      }
      head, tail, submitChunk, submitOffset := null, null, null, 0;
      dropped, at := |links|, |links|;
    }
  }

  ghost predicate GrownFrom(now: seq<ChunkNode>, before: seq<ChunkNode>) {
    |before| <= |now| && forall i | 0 <= i < |before| :: now[i] == before[i]
  }

  /** What `h3_stream_response_append` reports; StillWaiting is a producer parked in its timed wait. */
  datatype Status = Success | ConnAborted | General | NoMemory | WaitFailed | StillWaiting

  /** How a wait for room ended. */
  datatype Waited = Room | Lost | Broke | Parked

  /** The response fields of an h3_stream, guarded by the session lock. */
  class StreamResponse {
    const list: ChunkList
    var buffered: int
    var total: nat
    const limit: nat
    var submitted: bool
    var complete: bool
    var cancelled: bool
    var aborted: bool        // the session's, as the producer sees it
    var dead: bool           // ngh3_dead
    var gone: bool           // ngh3 is null

    ghost var appended: seq<Byte>    // every byte ever appended
    ghost var released: nat          // how many of them have left the list

    ghost predicate Valid()
      reads this`buffered, this`total, this`submitted, this`complete, this`cancelled, this`appended, this`released,
            list, list.links
    {
      list.Linked() && Tied(Abs(), appended, released)
    }

    ghost function Abs(): Queue
      reads this`buffered, this`total, this`submitted, this`complete, this`cancelled, list, list.links
      requires list.Linked()
    {
      Queue(list.Chunks(), list.at - list.dropped, buffered, total, limit, submitted, complete, cancelled)
    }

    constructor (limit: nat)
      requires limit > 0
      ensures Valid() && Abs() == Empty(limit) && appended == [] && fresh(list) && list.links == []
    {
      this.limit := limit;
      list := new ChunkList();
      buffered, total := 0, 0;
      submitted, complete, cancelled := false, false, false;
      aborted, dead, gone := false, false, false;
      appended, released := [], 0;
    }

    /** The locked section of append that stores one chunk. */
    method StoreChunk(data: seq<Byte>)
      requires Valid() && !Full(Abs())
      requires 1 <= |data| <= ChunkSize(Abs(), |data|)
      requires total + |data| <= SIZE_MAX
      modifies this`buffered, this`total, this`appended, list, list.tail
      ensures Valid()
      ensures Abs() == ResponseQueue.Append(old(Abs()), data)
      ensures appended == old(appended) + data
      ensures |list.links| == old(|list.links|) + 1
      ensures GrownFrom(list.links, old(list.links)) && fresh(list.links[old(|list.links|)])
    {
      hide ChunkList.Linked, ChunkList.Chunks, ResponseQueue.Tied, ResponseQueue.Full, ResponseQueue.ChunkSize,
           GrownFrom;
      list.HeadFacts();
      TiedAppend(Abs(), appended, released, data);
      ghost var before := Abs();
      list.PushBack(data);
      buffered := buffered + |data|;
      total := total + |data|;
      appended := appended + data;
      assert Abs() == ResponseQueue.Append(before, data);
    }

    /**
     h3_stream_response_ack_locked. The caller may acknowledge what was pulled, or anything
     once nothing is left to pull; a chunk is freed exactly when its last byte is acknowledged.
     */
    method Ack(count: nat)
      requires Valid()
      requires Abs().submit == |Abs().chunks| || count <= |Pulled(Abs())|
      modifies this`buffered, this`released, list, list.links
      ensures Valid()
      ensures Abs() == ResponseQueue.Ack(old(Abs()), count)
      ensures appended == old(appended) && released == old(released) + Min(count, |Unacked(old(Abs().chunks))|)
      ensures list.links == old(list.links)
    {
      hide ChunkList.Linked, ResponseQueue.Tied, ResponseQueue.Unacked, ResponseQueue.AckChunks;
      list.HeadFacts();
      TiedAck(Abs(), appended, released, count);
      ghost var before := Abs();
      var acked := list.AckBytes(count);
      list.HeadFacts();
      buffered := buffered - acked;
      released := released + acked;
      assert Abs() == ResponseQueue.Ack(before, count);
    }

    /** The reader's loop, seen from the queue. */
    method TakeVecs(veccnt: nat) returns (vecs: seq<seq<Byte>>)
      requires list.Linked() && 0 <= Abs().submit <= |Abs().chunks|
      modifies list`submitChunk, list`submitOffset, list`at
      ensures list.Linked() && (list.submitChunk == null <==> Abs().submit == |Abs().chunks|)
      ensures var next := Min(old(Abs()).submit + veccnt, |old(Abs()).chunks|);
              Abs() == old(Abs()).(submit := next) && vecs == Datas(old(Abs()).chunks[old(Abs()).submit..next])
    {
      hide ChunkList.Linked, ResponseQueue.Datas;
      list.HeadFacts();
      ghost var before := Abs();
      vecs := list.TakeSome(veccnt);
      list.HeadFacts();
      assert list.cells[old(list.at)..list.at] == before.chunks[before.submit..Abs().submit];
    }

    /** h3_session_read_data: hand over whole chunks through the submit cursor. */
    method ReadData(veccnt: nat) returns (res: PullResult)
      requires Valid()
      modifies list`submitChunk, list`submitOffset, list`at
      ensures Valid()
      ensures res == PullOutcome(old(Abs()), veccnt)
      ensures Abs() == AfterPull(old(Abs()), veccnt)
    {
      hide ChunkList.Linked, ResponseQueue.Tied, ResponseQueue.Datas, PullOutcome, AfterPull, ChunkList.Chunks;
      TiedBounds(Abs(), appended, released);
      TiedPull(Abs(), appended, released, veccnt);
      if veccnt == 0 || cancelled {
        PullNothing(Abs(), veccnt);
        return if veccnt == 0 then CallbackFailure else Vecs([], true);
      }
      ghost var before := Abs();
      var vecs := TakeVecs(veccnt);
      PullFrom(before, veccnt, Abs().submit, vecs);
      if |vecs| > 0 {
        return Vecs(vecs, list.submitChunk == null && complete);
      }
      if complete {
        return Vecs([], true);
      }
      return WouldBlock;
    }

    /** h3_stream_response_cancel_locked. */
    method Cancel()
      requires Valid()
      modifies this`cancelled, this`complete
      ensures Valid()
      ensures Abs() == ResponseQueue.Cancel(old(Abs()))
    {
      hide ChunkList.Linked;
      cancelled := true;
      complete := true;
    }

    /** h3_stream_response_cleanup_locked: frees every chunk of the list, each once. */
    method Cleanup()
      requires Valid()
      modifies this`buffered, this`released, list, list.links
      ensures Valid()
      ensures Abs() == ResponseQueue.Cleanup(old(Abs()))
      ensures list.links == old(list.links) && forall i | 0 <= i < |list.links| :: !list.links[i].live
      ensures appended == old(appended) && released == |appended|
    {
      hide ChunkList.Linked, ResponseQueue.Tied;
      list.HeadFacts();
      TiedCleanup(Abs(), appended, released);
      list.Clear();
      list.HeadFacts();
      buffered := 0;
      released := |appended|;
      assert list.Chunks() == [];
    }

    /** The session is aborted, or nghttp3 is dead or gone: the response has nowhere to go. */
    predicate Down()
      reads this`aborted, this`dead, this`gone
    {
      aborted || dead || gone
    }

    /** nghttp3 acknowledges within what it was given. */
    method AckSome()
      requires Valid()
      modifies this`buffered, this`released, list, list.links
      ensures Valid() && list.links == old(list.links)
    {
      hide ChunkList.Linked, ResponseQueue.Tied, ResponseQueue.Unacked;
      var wish: int := *;
      var pulled := list.PulledBytes();
      if 0 <= wish <= pulled {
        list.HeadFacts();
        TiedBounds(Abs(), appended, released);
        assert list.cells[list.dropped..list.at] == Abs().chunks[..Abs().submit];
        Ack(wish);
      }
    }

    /** Whatever the event thread does to this queue and its session while the producer does not hold the lock. */
    method Interfere()
      requires Valid()
      modifies this`buffered, this`released, this`cancelled, this`complete, this`aborted, this`dead, this`gone,
               list, list.links
      ensures Valid()
      ensures list.links == old(list.links)
      ensures (old(cancelled) ==> cancelled) && (old(Down()) ==> Down())
    {
      hide ChunkList.Linked, ResponseQueue.Tied;
      var turns: int := *;
      while turns > 0
        invariant Valid()
        invariant list.links == old(list.links)
        invariant (old(cancelled) ==> cancelled) && (old(Down()) ==> Down())
      {
        if * {
          var veccnt: int := *;
          if veccnt >= 0 {
            var _ := ReadData(veccnt);
          }
        } else if * {
          AckSome();
        } else if * {
          Cancel();
        } else {
          var a: bool, d: bool, g: bool := *, *, *;
          aborted, dead, gone := aborted || a, dead || d, gone || g;
        }
        turns := turns - 1;
      }
    }

    /**
     The timed wait of append, after `wakes` returns at most; `waits(k)` says whether the k-th wait,
     counted down, works. There is room in a live queue, the response is lost, a wait failed, or the
     producer is still parked behind a full queue.
     */
    method AwaitRoom(wakes: nat, waits: nat -> bool) returns (end: Waited, wakesLeft: nat)
      requires Valid()
      modifies this, list, list.links
      ensures Valid() && appended == old(appended) && total == old(total) && list.links == old(list.links)
      ensures wakesLeft <= wakes
      ensures end.Room? ==> buffered < limit && !cancelled && !Down()
      ensures end.Lost? ==> cancelled || Down()
      ensures end.Broke? ==> wakesLeft < wakes && !waits(wakesLeft)
      ensures end.Parked? ==> wakesLeft == 0 && buffered >= limit && !cancelled && !aborted && !dead
      ensures !end.Broke? ==> forall k | wakesLeft <= k < wakes :: waits(k)
    {
      hide ChunkList.Linked, ResponseQueue.Tied;
      wakesLeft := wakes;
      Interfere();
      while buffered >= limit && !cancelled && !aborted && !dead
        invariant Valid() && appended == old(appended) && total == old(total) && list.links == old(list.links)
        invariant wakesLeft <= wakes && forall k | wakesLeft <= k < wakes :: waits(k)
        decreases wakesLeft
      {
        if wakesLeft == 0 {
          return Parked, 0;
        }
        wakesLeft := wakesLeft - 1;
        Interfere();
        if !waits(wakesLeft) {
          return Broke, wakesLeft;
        }
      }
      end := if cancelled || Down() then Lost else Room;
    }

    /**
     h3_stream_response_append. `wakes` is how often the timed wait may return before the caller stops
     looking, `waits` and `mallocs` are the answers of the wait and of the allocator; other threads act
     whenever the lock is not held. Whatever they do, the queue receives a prefix of `data`, all of it
     exactly on success, and any other answer has its cause.
     */
    method Append(data: seq<Byte>, wakes: nat, waits: nat -> bool, mallocs: nat -> bool)
      returns (status: Status, offset: nat)
      requires Valid()
      modifies this, list, list.links
      ensures Valid()
      ensures offset <= |data| && appended == old(appended) + data[..offset] && total == old(total) + offset
      ensures status == Success <==> offset == |data|
      ensures status == ConnAborted ==> cancelled || Down()
      ensures status == WaitFailed ==> exists k :: 0 <= k < wakes && !waits(k)
      ensures status == General ==> cancelled && old(total) + |data| > SIZE_MAX
      ensures status == NoMemory ==> cancelled && !mallocs(offset)
      ensures status == StillWaiting ==> buffered >= limit && !cancelled && !aborted && !dead
    {
      hide ChunkList.Linked, ChunkList.Chunks, ResponseQueue.Tied;
      offset := 0;
      var wakesLeft: nat := wakes;
      while offset < |data|
        invariant Valid() && 0 <= offset <= |data| && wakesLeft <= wakes
        invariant appended == old(appended) + data[..offset]
        invariant total == old(total) + offset
        invariant GrownFrom(list.links, old(list.links))
        invariant forall i | |old(list.links)| <= i < |list.links| :: fresh(list.links[i])
        decreases |data| - offset
      {
        var waited;
        waited, wakesLeft := AwaitRoom(wakesLeft, waits);
        if !waited.Room? {
          status := if waited.Parked? then StillWaiting else if waited.Lost? then ConnAborted else WaitFailed;
          return;
        }
        var size := Min(Min(|data| - offset, limit - buffered), STREAM_CHUNK_BYTES);
        if size == 0 || total > SIZE_MAX - size {
          Cancel();
          return General, offset;
        }
        if !mallocs(offset) {
          Cancel();
          return NoMemory, offset;
        }
        list.HeadFacts();
        StoreChunk(data[offset..offset + size]);
        assert data[..offset + size] == data[..offset] + data[offset..offset + size];
        offset := offset + size;
      }
      status := Success;
    }
  }
}
