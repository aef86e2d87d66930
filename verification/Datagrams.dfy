/**
 The datagram filter under the QUIC listener (mod_http3/src/quic/detail/h3q_addr.c): it takes
 batches from the socket BIO, hands datagrams up one at a time, and remembers the sender of
 the one that is being handed up, for connections created from it.
 */
module Datagrams {
  import opened Options
  import opened ResponseQueue

  datatype Addr = Unspec | Inet(id: nat)

  datatype Datagram = Datagram(data: seq<Byte>, peer: Option<Addr>, local: Option<Addr>)

  /**
   A BIO_MSG. On the way in `len` is the room in the buffer, on the way out the size of the datagram;
   an address is None where the caller passes no place for it.
   */
  datatype Msg = Msg(data: Option<seq<Byte>>, len: nat, peer: Option<Addr>, local: Option<Addr>)

  // ---------------------------------------------------------------------------
  // The queue
  // ---------------------------------------------------------------------------

  class Node {
    var next: Node?
    const item: Datagram
    ghost var live: bool    // not freed yet

    constructor (d: Datagram)
      ensures item == d && next == null && live
    {
      item, next, live := d, null, true;
    }
  }

  class DatagramQueue {
    var head: Node?
    var tail: Node?
    ghost var spine: seq<Node>

    ghost predicate Valid()
      reads this, spine
    {
      && (head == null <==> spine == []) && (tail == null <==> spine == [])
      && (spine != [] ==> head == spine[0] && tail == spine[|spine| - 1] && tail.next == null)
      && (forall i, j | 0 <= i && j == i + 1 && j < |spine| :: spine[i].next == spine[j])
      && (forall i, j | 0 <= i < j < |spine| :: spine[i] != spine[j])
      && (forall i | 0 <= i < |spine| :: spine[i].live)
    }

    ghost function Contents(): (r: seq<Datagram>)
      reads this, spine
      ensures |r| == |spine| && forall i | 0 <= i < |spine| :: r[i] == spine[i].item
    {
      seq(|spine|, i requires 0 <= i < |spine| reads this, spine => spine[i].item)
    }

    constructor ()
      ensures Valid() && spine == [] && Contents() == []
    {
      head, tail, spine := null, null, [];
    }

    method PushTail(d: Datagram)
      requires Valid()
      modifies this, spine
      ensures Valid() && Contents() == old(Contents()) + [d]
      ensures |spine| == |old(spine)| + 1 && spine[..|old(spine)|] == old(spine) && fresh(spine[|old(spine)|])
    {
      var node := new Node(d);
      if tail != null {
        tail.next := node;
      } else {
        head := node;
      }
      tail := node;
      spine := spine + [node];
    }

    method Head() returns (d: Option<Datagram>)
      requires Valid()
      ensures d == if Contents() == [] then None else Some(Contents()[0])
    {
      d := if head == null then None else Some(head.item);
    }

    /** h3q_queue_drop_head. */
    method DropHead()
      requires Valid() && spine != []
      modifies this, spine
      ensures Valid() && spine == old(spine)[1..] && Contents() == old(Contents())[1..]
      ensures !old(spine)[0].live
    {
      var node := head;
      assert |spine| > 1 ==> spine[0].next == spine[1];
      head := node.next;
      if head == null {
        tail := null;
      }
      node.live := false;
      spine := spine[1..];
    }

    /** h3q_peer_addr_queue_clear: every node is freed, each once. */
    method Clear()
      requires Valid()
      modifies this, spine
      ensures Valid() && spine == [] && Contents() == []
      ensures forall i | 0 <= i < |old(spine)| :: !old(spine)[i].live
    {
      var node := head;
      ghost var k := 0;
      ghost var nodes := spine;
      while node != null
        invariant 0 <= k <= |nodes| && spine == nodes
        invariant node == if k < |nodes| then nodes[k] else null
        invariant forall i | 0 <= i < |nodes| :: nodes[i].live <==> k <= i
        invariant forall i | 0 <= i < |nodes| :: nodes[i].next == old(nodes[i].next)
        decreases |nodes| - k
      {
        assert k + 1 < |nodes| ==> nodes[k].next == nodes[k + 1];
        assert node.live;
        var next := node.next;
        node.live := false;
        node := next;
        k := k + 1;
      }
      head, tail, spine := null, null, [];
    }
  }

  // ---------------------------------------------------------------------------
  // What happens to each datagram
  // ---------------------------------------------------------------------------

  /** BatchLost names the batch the datagram came with. */
  datatype Fate = Delivered | TooBig(room: nat) | BatchLost(first: nat, end: nat, copyFailed: bool)

  /** Everything the socket delivered, the fates decided so far, and what went up. */
  datatype History = History(arrived: seq<Datagram>, fates: seq<Fate>, up: seq<Datagram>)

  function Kept(ds: seq<Datagram>, fates: seq<Fate>): seq<Datagram>
    requires |fates| <= |ds|
  {
    if fates == [] then []
    else
      var n := |fates| - 1;
      Kept(ds, fates[..n]) + if fates[n].Delivered? then [ds[n]] else []
  }

  /** A datagram is lost only for being larger than the caller's buffer, or with its whole batch. */
  ghost predicate Justified(ds: seq<Datagram>, fates: seq<Fate>, k: nat)
    requires k < |fates| <= |ds|
  {
    match fates[k]
    case Delivered => true
    case TooBig(room) => room < |ds[k].data|
    case BatchLost(first, end, copyFailed) =>
      && first <= k < end <= |fates| && (forall j | first <= j < end :: fates[j] == fates[k])
      && (copyFailed || exists j :: first <= j < end && ds[j].data == [])
  }

  ghost predicate Faithful(h: History) {
    && |h.fates| <= |h.arrived| && h.up == Kept(h.arrived, h.fates)
    && forall k | 0 <= k < |h.fates| :: Justified(h.arrived, h.fates, k)
  }

  function Arrive(h: History, batch: seq<Datagram>): History { h.(arrived := h.arrived + batch) }

  function HandUp(h: History): History
    requires |h.fates| < |h.arrived|
  {
    h.(fates := h.fates + [Delivered], up := h.up + [h.arrived[|h.fates|]])
  }

  function DropBig(h: History, room: nat): History { h.(fates := h.fates + [TooBig(room)]) }

  function LoseBatch(h: History, copyFailed: bool): History
    requires |h.fates| <= |h.arrived|
  {
    h.(fates := h.fates + seq(|h.arrived| - |h.fates|, _ => BatchLost(|h.fates|, |h.arrived|, copyFailed)))
  }

  lemma {:induction false} KeptSame(ds: seq<Datagram>, more: seq<Datagram>, fates: seq<Fate>)
    requires |fates| <= |ds|
    ensures Kept(ds + more, fates) == Kept(ds, fates)
  {
    if fates != [] {
      KeptSame(ds, more, fates[..|fates| - 1]);
    }
  }

  lemma {:induction false} KeptLost(ds: seq<Datagram>, fates: seq<Fate>, lost: seq<Fate>)
    requires |fates| + |lost| <= |ds| && forall k | 0 <= k < |lost| :: !lost[k].Delivered?
    ensures Kept(ds, fates + lost) == Kept(ds, fates)
    decreases |lost|
  {
    if lost == [] {
      assert fates + lost == fates;
    } else {
      var n := |lost| - 1;
      assert (fates + lost)[..|fates| + n] == fates + lost[..n];
      assert (fates + lost)[|fates| + n] == lost[n];
      KeptLost(ds, fates, lost[..n]);
    }
  }

  lemma JustifiedStill(ds: seq<Datagram>, more: seq<Datagram>, fates: seq<Fate>, next: seq<Fate>)
    requires |fates| <= |ds| && |fates| + |next| <= |ds + more|
    requires forall k | 0 <= k < |fates| :: Justified(ds, fates, k)
    ensures forall k | 0 <= k < |fates| :: Justified(ds + more, fates + next, k)
  {
    forall k | 0 <= k < |fates| ensures Justified(ds + more, fates + next, k) {
      assert Justified(ds, fates, k);
      if fates[k].BatchLost? && !fates[k].copyFailed {
        var j :| fates[k].first <= j < fates[k].end && ds[j].data == [];
        assert (ds + more)[j].data == [];
      }
    }
  }

  lemma FatesBound(h: History)
    requires Faithful(h)
    ensures |h.fates| <= |h.arrived|
  {
  }

  lemma ArriveKeeps(h: History, batch: seq<Datagram>)
    requires Faithful(h)
    ensures Faithful(Arrive(h, batch))
  {
    KeptSame(h.arrived, batch, h.fates);
    JustifiedStill(h.arrived, batch, h.fates, []);
    assert h.fates + [] == h.fates;
  }

  lemma HandUpKeeps(h: History)
    requires Faithful(h) && |h.fates| < |h.arrived|
    ensures Faithful(HandUp(h))
  {
    assert (h.fates + [Delivered])[..|h.fates|] == h.fates;
    JustifiedStill(h.arrived, [], h.fates, [Delivered]);
    assert h.arrived + [] == h.arrived;
  }

  lemma DropBigKeeps(h: History, room: nat)
    requires Faithful(h) && |h.fates| < |h.arrived| && room < |h.arrived[|h.fates|].data|
    ensures Faithful(DropBig(h, room))
  {
    assert (h.fates + [TooBig(room)])[..|h.fates|] == h.fates;
    JustifiedStill(h.arrived, [], h.fates, [TooBig(room)]);
    assert h.arrived + [] == h.arrived;
  }

  lemma LoseBatchKeeps(h: History, copyFailed: bool)
    requires Faithful(h)
    requires copyFailed || exists j :: |h.fates| <= j < |h.arrived| && h.arrived[j].data == []
    ensures Faithful(LoseBatch(h, copyFailed))
  {
    var lost := seq(|h.arrived| - |h.fates|, _ => BatchLost(|h.fates|, |h.arrived|, copyFailed));
    KeptLost(h.arrived, h.fates, lost);
    JustifiedStill(h.arrived, [], h.fates, lost);
    assert h.arrived + [] == h.arrived;
  }

  /** The arrival positions of the datagrams that went up. */
  function Positions(fates: seq<Fate>): (at: seq<nat>)
    ensures forall k | 0 <= k < |at| :: at[k] < |fates|
  {
    if fates == [] then []
    else
      var n := |fates| - 1;
      Positions(fates[..n]) + if fates[n].Delivered? then [n] else []
  }

  lemma {:induction false} PositionsGrow(fates: seq<Fate>)
    ensures forall k, l | 0 <= k < l < |Positions(fates)| :: Positions(fates)[k] < Positions(fates)[l]
  {
    if fates != [] {
      PositionsGrow(fates[..|fates| - 1]);
    }
  }

  lemma {:induction false} PositionsAre(fates: seq<Fate>, j: nat)
    requires j < |fates|
    ensures j in Positions(fates) <==> fates[j].Delivered?
  {
    var n := |fates| - 1;
    var front, last := Positions(fates[..n]), if fates[n].Delivered? then [n] else [];
    assert j in front + last <==> j in front || j in last;
    if j < n {
      PositionsAre(fates[..n], j);
    }
  }

  lemma {:induction false} KeptPositions(ds: seq<Datagram>, fates: seq<Fate>)
    requires |fates| <= |ds|
    ensures |Kept(ds, fates)| == |Positions(fates)|
    ensures forall k | 0 <= k < |Positions(fates)| :: Kept(ds, fates)[k] == ds[Positions(fates)[k]]
  {
    if fates != [] {
      KeptPositions(ds, fates[..|fates| - 1]);
    }
  }

  /**
   Datagrams go up in the order they arrived, each at most once, and exactly those whose fate
   says so.
   */
  lemma UpInArrivalOrder(h: History)
    requires Faithful(h)
    ensures var at := Positions(h.fates);
            && |h.up| == |at| && (forall k | 0 <= k < |at| :: h.up[k] == h.arrived[at[k]])
            && (forall k, l | 0 <= k < l < |at| :: at[k] < at[l])
            && (forall j | 0 <= j < |h.fates| :: j in at <==> h.fates[j].Delivered?)
  {
    KeptPositions(h.arrived, h.fates);
    PositionsGrow(h.fates);
    forall j | 0 <= j < |h.fates| ensures j in Positions(h.fates) <==> h.fates[j].Delivered? {
      PositionsAre(h.fates, j);
    }
  }

  /** The head of the queue is the oldest open datagram, and taking it off leaves the later ones. */
  lemma NextOpen(h: History)
    requires |h.fates| < |h.arrived|
    ensures h.arrived[|h.fates|..][0] == h.arrived[|h.fates|]
    ensures h.arrived[|h.fates|..][1..] == h.arrived[|h.fates| + 1..]
  {
  }

  // ---------------------------------------------------------------------------
  // The sender of the datagram in hand
  // ---------------------------------------------------------------------------

  /** The message's address place after a pop. */
  function Filled(slot: Option<Addr>, known: Option<Addr>): Option<Addr> {
    if slot.Some? && known.Some? then known else slot
  }

  /** current_peer_addr after a hand-up, from the message's place for the address. */
  function Current(slot: Option<Addr>): Addr { if slot.Some? then slot.value else Unspec }

  function Sender(d: Datagram): Addr { if d.peer.Some? then d.peer.value else Unspec }

  /**
   The message has a place for the address exactly if the datagram carries one, or what is lost or
   left over is unspecified.
   */
  predicate Agree(slot: Option<Addr>, known: Option<Addr>) {
    || (slot.Some? <==> known.Some?)
    || (known.None? && slot.value.Unspec?)
    || (slot.None? && known.value.Unspec?)
  }

  lemma SenderRememberedExactly(slot: Option<Addr>, d: Datagram)
    ensures Current(Filled(slot, d.peer)) == Sender(d) <==> Agree(slot, d.peer)
  {
  }

  // ---------------------------------------------------------------------------
  // One receive, on values
  // ---------------------------------------------------------------------------

  function AsDatagram(m: Msg): Datagram {
    Datagram(if m.data.Some? then m.data.value else [], m.peer, m.local)
  }

  function AsDatagrams(ms: seq<Msg>): (r: seq<Datagram>)
    ensures |r| == |ms| && forall i | 0 <= i < |ms| :: r[i] == AsDatagram(ms[i])
  {
    seq(|ms|, i requires 0 <= i < |ms| => AsDatagram(ms[i]))
  }

  lemma NextQueued(ms: seq<Msg>, i: nat)
    requires i < |ms|
    ensures AsDatagrams(ms[..i + 1]) == AsDatagrams(ms[..i]) + [AsDatagram(ms[i])]
  {
  }

  /** What the socket BIO may put into messages: it keeps to their buffers and fills only the places it is given. */
  predicate Received(before: seq<Msg>, after: seq<Msg>) {
    && |after| <= |before|
    && forall i | 0 <= i < |after| ::
         && (after[i].data.Some? ==> |after[i].data.value| == after[i].len)
         && after[i].len <= before[i].len
         && (after[i].peer.Some? <==> before[i].peer.Some?) && (after[i].local.Some? <==> before[i].local.Some?)
  }

  /** What a receive meets: the caller's messages, the socket's answer, and memory for the k-th copy. */
  datatype Call = Call(msgs: seq<Msg>, rv: bool, got: seq<Msg>, memory: nat -> bool)

  predicate CallOk(c: Call) { Received(c.msgs, c.got) && (!c.rv ==> c.got == []) }

  /** The first datagram of a batch that cannot be queued. */
  function FirstBad(got: seq<Msg>, memory: nat -> bool): (r: nat)
    ensures r <= |got|
    ensures forall k | 0 <= k < r :: memory(k) && got[k].data.Some? && got[k].len > 0
    ensures r < |got| ==> !memory(r) || got[r].data.None? || got[r].len == 0
  {
    BadFrom(got, memory, 0)
  }

  function BadFrom(got: seq<Msg>, memory: nat -> bool, i: nat): (r: nat)
    requires i <= |got|
    ensures i <= r <= |got|
    ensures forall k | i <= k < r :: memory(k) && got[k].data.Some? && got[k].len > 0
    ensures r < |got| ==> !memory(r) || got[r].data.None? || got[r].len == 0
    decreases |got| - i
  {
    if i == |got| || !memory(i) || got[i].data.None? || got[i].len == 0 then i else BadFrom(got, memory, i + 1)
  }

  lemma {:induction false} BadFromIs(got: seq<Msg>, memory: nat -> bool, i: nat, r: nat)
    requires i <= r <= |got| && forall k | i <= k < r :: memory(k) && got[k].data.Some? && got[k].len > 0
    requires r < |got| ==> !memory(r) || got[r].data.None? || got[r].len == 0
    ensures BadFrom(got, memory, i) == r
    decreases r - i
  {
    if i < r {
      BadFromIs(got, memory, i + 1, r);
    }
  }

  /** Whether a datagram goes up. */
  predicate GoesUp(h: History, c: Call)
    requires |h.fates| <= |h.arrived|
  {
    if c.msgs == [] then false
    else if |h.fates| < |h.arrived| then c.msgs[0].data.Some? && |h.arrived[|h.fates|].data| <= c.msgs[0].len
    else c.got != [] && FirstBad(c.got, c.memory) == |c.got|
  }

  /** The batch a receive fetches: none while a datagram is open. */
  function Batch(h: History, c: Call): seq<Datagram> {
    if c.msgs == [] || |h.fates| < |h.arrived| then [] else AsDatagrams(c.got)
  }

  /** What becomes of the datagrams: the oldest goes up or is too big, a fresh batch is queued whole or lost whole. */
  function After(h: History, c: Call): History
    requires |h.fates| <= |h.arrived|
  {
    var a := Arrive(h, Batch(h, c));
    if GoesUp(h, c) then HandUp(a)
    else if c.msgs == [] then h
    else if |h.fates| < |h.arrived| then (if c.msgs[0].data.None? then h else DropBig(h, c.msgs[0].len))
    else if c.got == [] then h
    else LoseBatch(a, !c.memory(FirstBad(c.got, c.memory)))
  }

  /** The datagram that goes up, and the address place of the message it goes up in. */
  function Up(h: History, c: Call): Datagram
    requires |h.fates| <= |h.arrived| && GoesUp(h, c)
  {
    Arrive(h, Batch(h, c)).arrived[|h.fates|]
  }

  function Slot(h: History, c: Call): Option<Addr>
    requires |h.fates| <= |h.arrived| && GoesUp(h, c)
  {
    if |h.fates| < |h.arrived| then c.msgs[0].peer else c.got[0].peer
  }

  /**
   A receive with a datagram open: nothing is fetched, and the oldest goes up if it fits the caller's
   buffer and is dropped if not.
   */
  lemma ReceiveOpen(h: History, c: Call)
    requires |h.fates| < |h.arrived| && c.msgs != []
    ensures var r, d := After(h, c), h.arrived[|h.fates|];
            var fits := c.msgs[0].data.Some? && |d.data| <= c.msgs[0].len;
            && r.arrived == h.arrived && r.up == h.up + (if fits then [d] else [])
            && |r.fates| == |h.fates| + if c.msgs[0].data.Some? then 1 else 0
  {
  }

  /** A receive with none open: the socket's messages arrive as they are, behind what arrived before. */
  lemma FetchArrives(h: History, c: Call, k: nat)
    requires |h.fates| == |h.arrived| && c.msgs != [] && k < |c.got|
    ensures var r, n := After(h, c).arrived, |h.arrived|;
            && |r| == n + |c.got| && h.arrived <= r
            && r[n + k].data == (if c.got[k].data.Some? then c.got[k].data.value else [])
            && r[n + k].peer == c.got[k].peer && r[n + k].local == c.got[k].local
  {
    hide BadFrom, FirstBad;
  }

  /** The first goes up if each could be copied and none was empty; otherwise they are all lost. */
  lemma FetchFates(h: History, c: Call)
    requires |h.fates| == |h.arrived| && c.msgs != []
    ensures var r, n, got := After(h, c), |h.arrived|, c.got;
            if got != [] && forall k | 0 <= k < |got| :: c.memory(k) && got[k].data.Some? && got[k].len > 0
            then n < |r.arrived| && r.up == h.up + [r.arrived[n]] && |r.fates| == n + 1
            else r.up == h.up && |r.fates| == n + |got|
  {
    var whole := FirstBad(c.got, c.memory) == |c.got|;
    assert whole <==> forall k | 0 <= k < |c.got| :: c.memory(k) && c.got[k].data.Some? && c.got[k].len > 0;
    hide FirstBad;
    assert |AsDatagrams(c.got)| == |c.got|;
    hide AsDatagrams;
  }

  /** A fetched datagram has an address exactly if its message had a place for one. */
  lemma BatchPlaces(h: History, c: Call, k: nat)
    requires CallOk(c) && k < |Batch(h, c)|
    ensures k < |c.msgs| && (Batch(h, c)[k].peer.Some? <==> c.msgs[k].peer.Some?)
  {
  }

  /** Straight from the socket, message and datagram agree. */
  lemma FetchedAgree(h: History, c: Call)
    requires |h.fates| == |h.arrived| && GoesUp(h, c)
    ensures Slot(h, c) == Up(h, c).peer && Agree(Slot(h, c), Up(h, c).peer)
  {
  }

  lemma AfterNothing(h: History, c: Call)
    requires |h.fates| <= |h.arrived| && (c.msgs == [] || (|h.fates| == |h.arrived| && c.got == []))
    ensures After(h, c) == h && !GoesUp(h, c)
  {
  }

  lemma FilledSame(known: Option<Addr>)
    ensures Filled(known, known) == known
  {
  }

  /** Every open datagram carries its sender. */
  ghost predicate Placed(h: History) {
    |h.fates| <= |h.arrived| && forall k | |h.fates| <= k < |h.arrived| :: h.arrived[k].peer.Some?
  }

  ghost predicate AllPlaces(msgs: seq<Msg>) { forall k | 0 <= k < |msgs| :: msgs[k].peer.Some? }

  /** A caller whose messages all have a place for the address always gets the right sender, and keeps it so. */
  lemma PlacedAlways(h: History, c: Call)
    requires Placed(h) && CallOk(c) && AllPlaces(c.msgs)
    ensures Placed(After(h, c))
    ensures GoesUp(h, c) ==> Current(Filled(Slot(h, c), Up(h, c).peer)) == Sender(Up(h, c))
  {
    var a := Arrive(h, Batch(h, c));
    forall k | |a.fates| <= k < |a.arrived| ensures a.arrived[k].peer.Some? {
      if k >= |h.arrived| {
        BatchPlaces(h, c, k - |h.arrived|);
      }
    }
  }

  // ---------------------------------------------------------------------------
  // The filter
  // ---------------------------------------------------------------------------

  class Engine {
    const queue: DatagramQueue
    var current: Addr               // current_peer_addr
    ghost var history: History

    /** The queue holds exactly the datagrams whose fate is still open. */
    ghost predicate Valid()
      reads this`history, queue, queue.spine
    {
      queue.Valid() && Faithful(history) && queue.Contents() == history.arrived[|history.fates|..]
    }

    constructor ()
      ensures Valid() && fresh(queue) && history == History([], [], [])
    {
      queue := new DatagramQueue();
      current, history := Unspec, History([], [], []);
    }

    /** h3q_queue_fill into an empty queue: all of the batch, or none of it. */
    method Fill(batch: seq<Msg>, memory: nat -> bool) returns (ok: bool)
      requires queue.Valid() && queue.spine == []
      modifies queue
      ensures queue.Valid() && (forall k | 0 <= k < |queue.spine| :: fresh(queue.spine[k]))
      ensures ok == (FirstBad(batch, memory) == |batch|)
      ensures queue.Contents() == if ok then AsDatagrams(batch) else []
    {
      hide BadFrom, DatagramQueue.Valid, DatagramQueue.Contents, AsDatagrams;
      ok := true;
      assert queue.Contents() == AsDatagrams(batch[..0]);
      var i := 0;
      while i < |batch|
        invariant 0 <= i <= |batch| && queue.Valid() && queue.Contents() == AsDatagrams(batch[..i])
        invariant forall k | 0 <= k < |queue.spine| :: fresh(queue.spine[k])
        invariant forall k | 0 <= k < i :: memory(k) && batch[k].data.Some? && batch[k].len > 0
      {
        var source := batch[i];
        if !memory(i) || source.data.None? || source.len == 0 {
          BadFromIs(batch, memory, 0, i);
          queue.Clear();
          return false;
        }
        queue.PushTail(AsDatagram(source));
        NextQueued(batch, i);
        i := i + 1;
      }
      BadFromIs(batch, memory, 0, i);
      assert batch[..i] == batch;
    }

    /** h3q_queue_pop: the oldest datagram goes up, or is dropped because it does not fit. */
    method Pop(msg: Msg) returns (ok: bool, out: Msg)
      requires Valid()
      modifies this`history, queue, queue.spine
      ensures Valid()
              && (queue.spine == old(queue.spine) || (old(queue.spine) != [] && queue.spine == old(queue.spine)[1..]))
      ensures ok <==> msg.data.Some? && |old(history.fates)| < |old(history.arrived)|
                      && |old(history.arrived)[|old(history.fates)|].data| <= msg.len
      ensures ok ==> history == HandUp(old(history))
                     && var d := old(history.arrived)[|old(history.fates)|];
                        out == Msg(Some(d.data), |d.data|, Filled(msg.peer, d.peer), Filled(msg.local, d.local))
      ensures !ok ==> out == msg
      ensures !ok ==> history == if msg.data.None? || |old(history.fates)| == |old(history.arrived)| then old(history)
                                 else DropBig(old(history), msg.len)
    {
      hide Faithful, DatagramQueue.Valid, DatagramQueue.Contents;
      FatesBound(history);
      ok, out := false, msg;
      var oldest := queue.Head();
      if oldest.None? || msg.data.None? {
        return;
      }
      var item := oldest.value;
      NextOpen(history);
      queue.DropHead();
      if msg.len < |item.data| {
        DropBigKeeps(history, msg.len);
        history := DropBig(history, msg.len);
        return;
      }
      HandUpKeeps(history);
      history := HandUp(history);
      ok, out := true, Msg(Some(item.data), |item.data|, Filled(msg.peer, item.peer), Filled(msg.local, item.local));
    }

    /** BIO_recvmmsg on the socket: whatever it delivers is in the history before anything is done with it. */
    ghost method FromSocket(got: seq<Msg>)
      requires Faithful(history)
      modifies this`history
      ensures history == Arrive(old(history), AsDatagrams(got)) && Faithful(history)
    {
      ArriveKeeps(history, AsDatagrams(got));
      history := Arrive(history, AsDatagrams(got));
    }

    /** Queue a batch that has just arrived; one that cannot be queued is lost as a whole. */
    method TakeBatch(got: seq<Msg>, memory: nat -> bool) returns (ok: bool)
      requires queue.Valid() && queue.spine == [] && Faithful(history)
      requires (forall k | 0 <= k < |got| && got[k].data.Some? :: |got[k].data.value| == got[k].len)
      requires |history.fates| <= |history.arrived| && history.arrived[|history.fates|..] == AsDatagrams(got)
      modifies this`history, queue
      ensures Valid() && (forall k | 0 <= k < |queue.spine| :: fresh(queue.spine[k]))
      ensures ok == (FirstBad(got, memory) == |got|)
      ensures history == if ok then old(history) else LoseBatch(old(history), !memory(FirstBad(got, memory)))
    {
      hide Faithful, DatagramQueue.Valid, FirstBad;
      ok := Fill(got, memory);
      if !ok {
        ghost var k := FirstBad(got, memory);
        ghost var copyFailed := !memory(k);
        if !copyFailed {
          assert history.arrived[|history.fates|..][k].data == [];
          assert history.arrived[|history.fates| + k].data == [];
        }
        LoseBatchKeeps(history, copyFailed);
        history := LoseBatch(history, copyFailed);
      }
    }

    /** Queue a batch that has just arrived and hand its first datagram up, which fits its own message. */
    method QueueAndPop(got: seq<Msg>, memory: nat -> bool) returns (first: Option<Msg>)
      requires queue.Valid() && queue.spine == [] && Faithful(history) && got != []
      requires (forall k | 0 <= k < |got| && got[k].data.Some? :: |got[k].data.value| == got[k].len)
      requires |history.fates| <= |history.arrived| && history.arrived[|history.fates|..] == AsDatagrams(got)
      modifies this`history, queue
      ensures Valid() && |old(history.fates)| < |old(history.arrived)|
      ensures forall k | 0 <= k < |queue.spine| :: fresh(queue.spine[k])
      ensures first.Some? == (FirstBad(got, memory) == |got|)
      ensures first.None? ==> history == LoseBatch(old(history), !memory(FirstBad(got, memory)))
      ensures first.Some? ==>
                && history == HandUp(old(history))
                && var d := old(history.arrived)[|old(history.fates)|];
                   first.value == Msg(Some(d.data), |d.data|, d.peer, d.local)
    {
      hide Faithful, DatagramQueue.Valid, FirstBad;
      var d := AsDatagrams(got)[0];
      assert history.arrived[|history.fates|..][0] == d;
      assert history.arrived[|history.fates|] == d;
      first := None;
      var ok := TakeBatch(got, memory);
      if ok {
        var up, out := Pop(got[0]);
        first := Some(out);
      }
    }

    /** The branch of a receive that has a datagram open. */
    method FromQueue(c: Call) returns (ok: bool, out: Msg)
      requires Valid() && queue.spine != [] && c.msgs != []
      modifies this`history, queue, queue.spine
      ensures Valid() && |old(history.fates)| < |old(history.arrived)| && history == After(old(history), c)
      ensures ok == GoesUp(old(history), c)
      ensures ok ==> var d := Up(old(history), c);
                     && out.data == Some(d.data) && out.len == |d.data|
                     && out.peer == Filled(Slot(old(history), c), d.peer)
      ensures queue.spine == old(queue.spine) || queue.spine == old(queue.spine)[1..]
    {
      hide Faithful, DatagramQueue.Valid, LoseBatch;
      FatesBound(history);
      assert Arrive(history, []) == history;
      ok, out := Pop(c.msgs[0]);
    }

    /** The branch that fetches a batch. */
    method FromFetch(c: Call) returns (first: Option<Msg>)
      requires Valid() && queue.spine == [] && c.msgs != [] && c.got != [] && CallOk(c)
      modifies this`history, queue
      ensures Valid() && |old(history.fates)| == |old(history.arrived)| && history == After(old(history), c)
      ensures first.Some? == GoesUp(old(history), c)
      ensures first.Some? ==>
                var d := Up(old(history), c);
                && first.value.data == Some(d.data) && first.value.len == |d.data| && first.value.peer == d.peer
                && Slot(old(history), c) == d.peer
      ensures forall k | 0 <= k < |queue.spine| :: fresh(queue.spine[k])
    {
      hide Faithful, DatagramQueue.Valid, FirstBad, LoseBatch, HandUp;
      FatesBound(history);
      FromSocket(c.got);
      assert history.arrived[|history.fates|..] == AsDatagrams(c.got);
      first := QueueAndPop(c.got, c.memory);
    }

    /**
     h3q_peer_addr_bio_recvmmsg. What becomes of the datagrams is `After`; the oldest open one goes up
     whenever it fits, a batch is fetched only when none is open, and its first datagram always fits.
     The sender remembered is that datagram's if and only if message and datagram agree.
     */
    method RecvMmsg(c: Call) returns (rv: bool, processed: nat, first: Option<Msg>)
      requires Valid() && CallOk(c)
      modifies this`history, this`current, queue, queue.spine
      ensures Valid() && |old(history.fates)| <= |old(history.arrived)| && history == After(old(history), c)
      ensures processed == if GoesUp(old(history), c) then 1 else 0
      ensures processed == 1 ==>
                var d := Up(old(history), c);
                && rv && first.Some? && first.value.data == Some(d.data) && first.value.len == |d.data|
                && current == Current(Filled(Slot(old(history), c), d.peer))
                && (current == Sender(d) <==> Agree(Slot(old(history), c), d.peer))
      ensures processed == 0 ==> rv == (c.msgs != [] && old(queue.spine) == [] && c.got == [] && c.rv)
      ensures processed == 0 ==> current == if c.msgs == [] then old(current) else Unspec
      ensures forall k | 0 <= k < |queue.spine| :: queue.spine[k] in old(queue.spine) || fresh(queue.spine[k])
    {
      hide Faithful, DatagramQueue.Valid, After, GoesUp, Up, Slot, Agree, Current, Filled;
      FatesBound(history);
      rv, processed, first := false, 0, None;
      if |c.msgs| == 0 {
        AfterNothing(history, c);
        return;
      }
      current := Unspec;
      var oldest := queue.Head();
      if oldest.Some? {
        var ok, out := FromQueue(c);
        if ok {
          rv, processed, first := true, 1, Some(out);
          current := Current(out.peer);
          SenderRememberedExactly(Slot(old(history), c), Up(old(history), c));
        }
        return;
      }
      rv := c.rv;
      if |c.got| == 0 {
        AfterNothing(history, c);
        return;
      }
      first := FromFetch(c);
      if first.None? {
        rv := false;
        return;
      }
      processed := 1;
      current := Current(first.value.peer);
      FilledSame(first.value.peer);
      SenderRememberedExactly(Slot(old(history), c), Up(old(history), c));
    }

    /**
     h3q_new_pending_conn_cb, called while a datagram is being handed up: the connection records the
     remembered sender whenever one is known, there is an index for it, and it can be stored; it is
     refused exactly when it cannot be stored.
     */
    method NewPendingConn(exIndex: int, storeOk: bool) returns (ok: bool, recorded: Option<Addr>)
      ensures recorded == if exIndex >= 0 && !current.Unspec? && storeOk then Some(current) else None
      ensures ok == (exIndex < 0 || current.Unspec? || storeOk)
    {
      if exIndex < 0 || current.Unspec? {
        return true, None;
      }
      if !storeOk {
        return false, None;
      }
      return true, Some(current);
    }

    /**
     A receive, and a connection created from what it hands up: it records the sender exactly when
     message and datagram agree.
     */
    method RecvAndAccept(c: Call, exIndex: int, storeOk: bool) returns (processed: nat, recorded: Option<Addr>)
      requires Valid() && CallOk(c)
      modifies this`history, this`current, queue, queue.spine
      ensures Valid() && |old(history.fates)| <= |old(history.arrived)| && history == After(old(history), c)
      ensures processed == if GoesUp(old(history), c) then 1 else 0
      ensures processed == 0 ==> recorded == None
      ensures processed == 1 && Agree(Slot(old(history), c), Up(old(history), c).peer) ==>
                var sender := Sender(Up(old(history), c));
                recorded == if exIndex >= 0 && !sender.Unspec? && storeOk then Some(sender) else None
      ensures processed == 1 && recorded.Some? && recorded.value == Sender(Up(old(history), c)) ==>
                Agree(Slot(old(history), c), Up(old(history), c).peer)
      ensures forall k | 0 <= k < |queue.spine| :: queue.spine[k] in old(queue.spine) || fresh(queue.spine[k])
    {
      hide Faithful, DatagramQueue.Valid, After, Agree, Slot;
      var rv, first;
      rv, processed, first := RecvMmsg(c);
      recorded := None;
      if processed == 1 {
        var ok;
        ok, recorded := NewPendingConn(exIndex, storeOk);
      }
    }

    /**
     Receive after receive, by a caller whose messages all have a place for the address: what is
     remembered at each hand-up is the sender of the datagram handed up.
     */
    method RecvMany(calls: seq<Call>) returns (senders: seq<Addr>)
      requires Valid() && Placed(history)
      requires forall k | 0 <= k < |calls| :: CallOk(calls[k]) && AllPlaces(calls[k].msgs)
      modifies this`history, this`current, queue, queue.spine
      ensures Valid() && Placed(history)
      ensures old(history.up) <= history.up && senders == Senders(history.up[|old(history.up)|..])
    {
      hide Faithful, DatagramQueue.Valid, After, Current, Sender, Slot, Up, GoesUp;
      senders := [];
      var k := 0;
      while k < |calls|
        invariant 0 <= k <= |calls| && Valid() && Placed(history)
        invariant old(history.up) <= history.up && senders == Senders(history.up[|old(history.up)|..])
        invariant forall i | 0 <= i < |queue.spine| :: queue.spine[i] in old(queue.spine) || fresh(queue.spine[i])
      {
        ghost var h := history;
        PlacedAlways(h, calls[k]);
        AfterUp(h, calls[k]);
        var rv, processed, first := RecvMmsg(calls[k]);
        if processed == 1 {
          assert history.up[|old(history.up)|..] == h.up[|old(history.up)|..] + [Up(h, calls[k])];
          senders := senders + [current];
        }
        k := k + 1;
      }
    }
  }

  function Senders(ds: seq<Datagram>): (r: seq<Addr>)
    ensures |r| == |ds| && forall k | 0 <= k < |ds| :: r[k] == Sender(ds[k])
  {
    seq(|ds|, k requires 0 <= k < |ds| => Sender(ds[k]))
  }

  lemma AfterUp(h: History, c: Call)
    requires |h.fates| <= |h.arrived|
    ensures After(h, c).up == if GoesUp(h, c) then h.up + [Up(h, c)] else h.up
  {
  }

  /**
   The case in which the sender is wrong: datagrams fetched into messages without a place for the
   address, and the second of them popped into a message that has one. What that place held before
   is taken for the sender.
   */
  method LeftoverAddress(left: nat, a: seq<Byte>, b: seq<Byte>) returns (e: Engine)
    requires a != [] && b != []
    ensures e.Valid() && |e.history.up| == 2 && e.history.up[1].data == b
    ensures e.current == Inet(left) && Sender(e.history.up[1]) == Unspec
  {
    e := new Engine();
    var fetch, again := Fetch(a, b), Again(left, b);
    LeftoverRun(left, a, b);
    hide After, GoesUp, Up, Slot, DatagramQueue.Valid, Faithful, Fetch, Again;
    var rv, processed, first := e.RecvMmsg(fetch);
    rv, processed, first := e.RecvMmsg(again);
  }

  /** Two datagrams fetched without a place for the address, and a message with one for the second. */
  function Fetch(a: seq<Byte>, b: seq<Byte>): Call {
    var bare := [Msg(Some(a), |a|, None, None), Msg(Some(b), |b|, None, None)];
    Call(bare, true, bare, k => true)
  }

  function Again(left: nat, b: seq<Byte>): Call {
    Call([Msg(Some(b), |b|, Some(Inet(left)), None)], true, [], k => true)
  }

  lemma LeftoverRun(left: nat, a: seq<Byte>, b: seq<Byte>)
    requires a != [] && b != []
    ensures CallOk(Fetch(a, b)) && CallOk(Again(left, b))
    ensures var h := After(History([], [], []), Fetch(a, b));
            && |h.fates| < |h.arrived| && GoesUp(h, Again(left, b))
            && Up(h, Again(left, b)) == Datagram(b, None, None) && Slot(h, Again(left, b)) == Some(Inet(left))
            && var g := After(h, Again(left, b)); |g.up| == 2 && g.up[1] == Datagram(b, None, None)
  {
    var f := Fetch(a, b);
    BadFromIs(f.got, f.memory, 0, 2);
    var h := After(History([], [], []), f);
    assert h.arrived == AsDatagrams(f.got) && |h.fates| == 1 && |h.up| == 1;
    hide FirstBad;
  }
}
