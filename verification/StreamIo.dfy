/**
 What passes between the drain code, QUIC and nghttp3, in the order it happens: the questions asked
 of a stream, the reads, and what nghttp3 is fed.
 */
module StreamIo {
  import opened ResponseQueue

  datatype IoEvent =
    | Asked(stream: nat, readFinished: bool, writeFinished: bool)
    | Read(stream: nat, room: nat, data: seq<Byte>, fin: bool)
    | Fed(stream: nat, data: seq<Byte>, fin: bool, failed: bool)

  /** Reads that brought something. */
  function ReadCount(io: seq<IoEvent>): nat {
    if io == [] then 0
    else ReadCount(io[..|io| - 1]) + var e := io[|io| - 1]; if e.Read? && e.data != [] then 1 else 0
  }

  function ReadBytes(io: seq<IoEvent>): seq<Byte> {
    if io == [] then []
    else ReadBytes(io[..|io| - 1]) + var e := io[|io| - 1]; if e.Read? then e.data else []
  }

  function FedBytes(io: seq<IoEvent>): seq<Byte> {
    if io == [] then []
    else FedBytes(io[..|io| - 1]) + var e := io[|io| - 1]; if e.Fed? then e.data else []
  }

  lemma Snoc(io: seq<IoEvent>, e: IoEvent)
    ensures ReadCount(io + [e]) == ReadCount(io) + if e.Read? && e.data != [] then 1 else 0
    ensures ReadBytes(io + [e]) == ReadBytes(io) + if e.Read? then e.data else []
    ensures FedBytes(io + [e]) == FedBytes(io) + if e.Fed? then e.data else []
  {
    assert (io + [e])[..|io|] == io;
  }

  lemma Nothing()
    ensures ReadCount([]) == 0 && ReadBytes([]) == [] && FedBytes([]) == []
  {
  }

  lemma {:induction false} Concat(a: seq<IoEvent>, b: seq<IoEvent>)
    ensures ReadCount(a + b) == ReadCount(a) + ReadCount(b)
    ensures ReadBytes(a + b) == ReadBytes(a) + ReadBytes(b)
    ensures FedBytes(a + b) == FedBytes(a) + FedBytes(b)
    decreases |b|
  {
    hide ReadCount, ReadBytes, FedBytes;
    Nothing();
    if b == [] {
      assert a + b == a;
    } else {
      var front, last := b[..|b| - 1], b[|b| - 1];
      Concat(a, front);
      assert a + b == a + front + [last] && b == front + [last];
      Snoc(a + front, last);
      Snoc(front, last);
    }
  }
}
