/**
 The round-robin cursor of drain_ready_streams (mod_http3/src/h3_stream.c), apart from what a
 visit does. A pass walks the n streams of its snapshot from the cursor; when the read or byte
 budget runs out at some stream it stops there and puts the cursor behind it.
 */
module DrainScheduler {

  /** How a pass on a live connection ended: every stream was visited, or the budget ran out at an offset. */
  datatype PassEnd = AllVisited | SpentAt(offset: nat)

  ghost predicate EndOk(n: nat, end: PassEnd) { end.SpentAt? ==> end.offset < n }

  function Start(n: nat, cursor: nat): nat
    requires n > 0
  {
    cursor % n
  }

  /** How many streams a pass visits. */
  function Length(n: nat, end: PassEnd): nat {
    if end.AllVisited? then n else end.offset + 1
  }

  /** The stream visited at an offset of a pass. */
  function VisitAt(n: nat, cursor: nat, offset: nat): (i: nat)
    requires n > 0
    ensures i < n
  {
    (Start(n, cursor) + offset) % n
  }

  function NextCursor(n: nat, cursor: nat, end: PassEnd): nat
    requires n > 0
  {
    if end.AllVisited? then cursor else (VisitAt(n, cursor, end.offset) + 1) % n
  }

  /** The cursor before the k-th of a series of passes. */
  function CursorAt(n: nat, cursor: nat, ends: seq<PassEnd>, k: nat): nat
    requires n > 0 && k <= |ends|
    decreases k
  {
    if k == 0 then cursor else CursorAt(n, NextCursor(n, cursor, ends[0]), ends[1..], k - 1)
  }

  ghost predicate Visits(n: nat, cursor: nat, end: PassEnd, j: nat)
    requires n > 0
  {
    exists offset :: 0 <= offset < Length(n, end) && VisitAt(n, cursor, offset) == j
  }

  /** How far stream j is ahead of the cursor. */
  function Ahead(n: nat, cursor: nat, j: nat): nat
    requires j < n
  {
    if j >= Start(n, cursor) then j - Start(n, cursor) else j + n - Start(n, cursor)
  }

  lemma Wrapped(a: nat, n: nat)
    requires a < 2 * n
    ensures a % n == if a < n then a else a - n
  {
  }

  lemma VisitAtAhead(n: nat, cursor: nat, j: nat)
    requires j < n
    ensures Ahead(n, cursor, j) < n && VisitAt(n, cursor, Ahead(n, cursor, j)) == j
  {
    Wrapped(Start(n, cursor) + Ahead(n, cursor, j), n);
  }

  /** A pass that stops at an offset short of j brings j that much closer. */
  lemma SpentBringsCloser(n: nat, cursor: nat, offset: nat, j: nat)
    requires j < n && offset < Ahead(n, cursor, j)
    ensures Ahead(n, NextCursor(n, cursor, SpentAt(offset)), j) == Ahead(n, cursor, j) - offset - 1
  {
    var start, v, next := Start(n, cursor), VisitAt(n, cursor, offset), NextCursor(n, cursor, SpentAt(offset));
    Wrapped(start + offset, n);
    Wrapped(v + 1, n);
    Wrapped(next, n);
    assert start < n && Start(n, next) == next;
    hide Start, VisitAt, NextCursor;
  }

  /**
   Fairness: among any n passes over the same n streams each stream is visited, namely within
   as many passes as the cursor is steps away from it.
   */
  lemma {:induction false} EveryStreamVisited(n: nat, cursor: nat, ends: seq<PassEnd>, j: nat) returns (k: nat)
    requires j < n && |ends| > Ahead(n, cursor, j)
    requires forall i | 0 <= i < |ends| :: EndOk(n, ends[i])
    ensures k <= Ahead(n, cursor, j) && k < |ends|
    ensures Visits(n, CursorAt(n, cursor, ends, k), ends[k], j)
    decreases |ends|
  {
    var d := Ahead(n, cursor, j);
    VisitAtAhead(n, cursor, j);
    if d < Length(n, ends[0]) {
      k := 0;
    } else {
      SpentBringsCloser(n, cursor, ends[0].offset, j);
      var later := EveryStreamVisited(n, NextCursor(n, cursor, ends[0]), ends[1..], j);
      k := later + 1;
      assert ends[1..][later] == ends[k];
    }
  }

  lemma FairWithinOneRound(n: nat, cursor: nat, ends: seq<PassEnd>, j: nat)
    requires j < n && |ends| >= n
    requires forall i | 0 <= i < |ends| :: EndOk(n, ends[i])
    ensures exists k :: 0 <= k < n && Visits(n, CursorAt(n, cursor, ends, k), ends[k], j)
  {
    VisitAtAhead(n, cursor, j);
    var k := EveryStreamVisited(n, cursor, ends, j);
  }

  lemma UnspentKeepsCursor(n: nat, cursor: nat)
    requires n > 0
    ensures NextCursor(n, cursor, AllVisited) == cursor
  {
  }

  /** One pass visits no stream twice. */
  lemma VisitAtInjective(n: nat, cursor: nat, a: nat, b: nat)
    requires a < b < n
    ensures VisitAt(n, cursor, a) != VisitAt(n, cursor, b)
  {
    Wrapped(Start(n, cursor) + a, n);
    Wrapped(Start(n, cursor) + b, n);
  }
}
