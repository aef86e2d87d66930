/**
 The connection table of the event thread (mod_http3/src/h3_io.c, mod_http3/src/h3_threads.c):
 accepting, pending handshakes, active sessions, and the exit. What QUIC, the allocator, the clock
 and the service passes answer in a round is passed in; a pass is seen here only through `aborted`.
 */
module Connections {
  import opened Options

  type Conn = nat

  datatype Pending = Pending(conn: Conn, acceptedAt: int)
  datatype Served = Served(conn: Conn, aborted: bool)

  /** What can become of a finished handshake. */
  datatype SpawnOutcome = NoPool | NoSession | NoControlStreams | ClosedMeanwhile | NoConnRec | Serving

  /** What the rest of the world answers in one round of the event loop. */
  datatype Answers = Answers(
    top: bool,                        // thread_running, where the loop tests it
    running: bool,                    // and where the round does
    waiting: nat,                     // connections QUIC has for us
    prepares: Conn -> bool,           // h3q_conn_prepare
    acceptedAt: Conn -> int,          // the clock when a connection is accepted
    now: int,                         // and when the handshakes are looked at
    closed: Conn -> bool,             // h3q_conn_is_closed
    done: Conn -> bool,               // h3q_conn_is_handshake_done
    spawn: Conn -> SpawnOutcome,      // what becomes of a new session
    aborts: Conn -> bool,             // whether its service pass aborts a session
    shutdownDone: Conn -> bool,       // h3q_conn_shutdown
    tasks: Conn -> nat)               // the atomic read of active_tasks

  // ---------------------------------------------------------------------------
  // Swap-with-last removal
  // ---------------------------------------------------------------------------

  function SwapRemove<T>(xs: seq<T>, i: nat): (r: seq<T>)
    requires i < |xs|
    ensures |r| == |xs| - 1
  {
    var n := |xs| - 1;
    if i < n then xs[i := xs[n]][..n] else xs[..n]
  }

  /** Exactly the removed element goes, the others stay once each. */
  lemma SwapRemoveTakesOne<T>(xs: seq<T>, i: nat)
    requires i < |xs|
    ensures multiset(SwapRemove(xs, i)) == multiset(xs) - multiset{xs[i]}
  {
    var n, r := |xs| - 1, SwapRemove(xs, i);
    if i < n {
      assert r[..i] == xs[..i] && r[i..] == [xs[n]] + xs[i + 1..n];
      hide SwapRemove;
      SplitBag(xs, i, n);
      assert multiset(r) == multiset(xs[..i]) + (multiset{xs[n]} + multiset(xs[i + 1..n])) by {
        assert r == r[..i] + r[i..];
      }
      TakeOut(multiset(xs[..i]), xs[i], multiset(xs[i + 1..n]), xs[n]);
    } else {
      assert xs == xs[..n] + [xs[n]];
    }
  }

  lemma TakeOut<T>(a: multiset<T>, x: T, b: multiset<T>, y: T)
    ensures a + multiset{x} + b + multiset{y} - multiset{x} == a + (multiset{y} + b)
  {
  }

  lemma SplitBag<T>(xs: seq<T>, i: nat, n: nat)
    requires i < n == |xs| - 1
    ensures multiset(xs) == multiset(xs[..i]) + multiset{xs[i]} + multiset(xs[i + 1..n]) + multiset{xs[n]}
  {
    assert xs == xs[..i] + xs[i..];
    assert xs[i..] == [xs[i]] + xs[i + 1..];
    assert xs[i + 1..] == xs[i + 1..n] + [xs[n]];
  }

  /** The part in front of the hole is untouched, and the part from it on loses just the removed element. */
  lemma SwapRemoveFrom<T>(xs: seq<T>, i: nat)
    requires i < |xs|
    ensures SwapRemove(xs, i)[..i] == xs[..i]
    ensures multiset(SwapRemove(xs, i)[i..]) == multiset(xs[i..]) - multiset{xs[i]}
  {
    assert SwapRemove(xs, i)[i..] == SwapRemove(xs[i..], 0);
    SwapRemoveTakesOne(xs[i..], 0);
  }

  // ---------------------------------------------------------------------------
  // Who owns a connection
  // ---------------------------------------------------------------------------

  function PendingConns(ps: seq<Pending>): (r: seq<Conn>)
    ensures |r| == |ps| && forall i | 0 <= i < |ps| :: r[i] == ps[i].conn
  {
    seq(|ps|, i requires 0 <= i < |ps| => ps[i].conn)
  }

  function ActiveConns(ss: seq<Served>): (r: seq<Conn>)
    ensures |r| == |ss| && forall i | 0 <= i < |ss| :: r[i] == ss[i].conn
  {
    seq(|ss|, i requires 0 <= i < |ss| => ss[i].conn)
  }

  /** Every place a connection can be, with the one the event thread has in hand. */
  ghost function Places(ps: seq<Pending>, ss: seq<Served>, freed: seq<Conn>): multiset<Conn> {
    multiset(PendingConns(ps)) + multiset(ActiveConns(ss)) + multiset(freed)
  }

  /** Each connection accepted so far is in exactly one place, once. */
  ghost predicate OnePlaceEach(places: multiset<Conn>, issued: nat) {
    forall c: Conn :: places[c] == if c < issued then 1 else 0
  }

  lemma ProjectRemove(ps: seq<Pending>, ss: seq<Served>, i: nat)
    ensures i < |ps| ==> PendingConns(SwapRemove(ps, i)) == SwapRemove(PendingConns(ps), i)
    ensures i < |ss| ==> ActiveConns(SwapRemove(ss, i)) == SwapRemove(ActiveConns(ss), i)
  {
  }

  /** The next connection from QUIC, put on either list or freed. */
  lemma NewPlace(ps: seq<Pending>, ss: seq<Served>, freed: seq<Conn>, issued: nat, p: Pending)
    requires OnePlaceEach(Places(ps, ss, freed), issued) && p.conn == issued
    ensures OnePlaceEach(Places(ps + [p], ss, freed), issued + 1)
    ensures OnePlaceEach(Places(ps, ss, freed + [issued]), issued + 1)
  {
    assert PendingConns(ps + [p]) == PendingConns(ps) + [issued];
    var places := Places(ps, ss, freed);
    assert Places(ps + [p], ss, freed) == places + multiset{issued};
    assert Places(ps, ss, freed + [issued]) == places + multiset{issued};
  }

  /** The connections the accept loop lets in: those that can be prepared, while there is room. */
  function Admitted(room: int, first: Conn, count: nat, prepares: Conn -> bool): (r: seq<Conn>)
    ensures room >= 0 ==> |r| <= room
    ensures forall k | 0 <= k < |r| :: first <= r[k] < first + count && prepares(r[k])
    decreases count
  {
    if count == 0 || room <= 0 then []
    else if prepares(first) then [first] + Admitted(room - 1, first + 1, count - 1, prepares)
    else Admitted(room, first + 1, count - 1, prepares)
  }

  /** The others. */
  function Refused(room: int, first: Conn, count: nat, prepares: Conn -> bool): (r: seq<Conn>)
    ensures |r| + |Admitted(room, first, count, prepares)| == count
    decreases count
  {
    if count == 0 then []
    else if room <= 0 then [first] + Refused(room, first + 1, count - 1, prepares)
    else if prepares(first) then Refused(room - 1, first + 1, count - 1, prepares)
    else [first] + Refused(room, first + 1, count - 1, prepares)
  }

  lemma AcceptStep(room: int, c: Conn, count: nat, prepares: Conn -> bool)
    requires count > 0
    ensures if room > 0 && prepares(c) then
              && Admitted(room, c, count, prepares) == [c] + Admitted(room - 1, c + 1, count - 1, prepares)
              && Refused(room, c, count, prepares) == Refused(room - 1, c + 1, count - 1, prepares)
            else
              && Admitted(room, c, count, prepares) == Admitted(room, c + 1, count - 1, prepares)
              && Refused(room, c, count, prepares) == [c] + Refused(room, c + 1, count - 1, prepares)
  {
  }

  function Entered(conns: seq<Conn>, acceptedAt: Conn -> int): (r: seq<Pending>)
    ensures |r| == |conns| && forall i | 0 <= i < |conns| :: r[i] == Pending(conns[i], acceptedAt(conns[i]))
  {
    seq(|conns|, i requires 0 <= i < |conns| => Pending(conns[i], acceptedAt(conns[i])))
  }

  /** How many of the connections before c could be prepared. */
  function Preparable(first: Conn, c: Conn, prepares: Conn -> bool): nat
    decreases c - first
  {
    if c <= first then 0 else Preparable(first, c - 1, prepares) + if prepares(c - 1) then 1 else 0
  }

  lemma {:induction false} PreparableFirst(first: Conn, c: Conn, prepares: Conn -> bool)
    requires first < c
    ensures Preparable(first, c, prepares) == Preparable(first + 1, c, prepares) + if prepares(first) then 1 else 0
    decreases c - first
  {
    if first < c - 1 {
      PreparableFirst(first, c - 1, prepares);
    }
  }

  /**
   First come, first served: a connection is let in exactly when it can be prepared and those before it
   have left room, and refused exactly when it is not let in.
   */
  lemma {:induction false} AdmittedExactly(room: nat, first: Conn, count: nat, prepares: Conn -> bool, c: Conn)
    requires first <= c < first + count
    ensures c in Admitted(room, first, count, prepares) <==> prepares(c) && Preparable(first, c, prepares) < room
    ensures c in Refused(room, first, count, prepares) <==> !(prepares(c) && Preparable(first, c, prepares) < room)
    decreases count
  {
    var room' := if room > 0 && prepares(first) then room - 1 else room;
    AcceptStep(room, first, count, prepares);
    assert Preparable(first, first, prepares) == 0;
    InFront(first, Admitted(room', first + 1, count - 1, prepares), c);
    InFront(first, Refused(room', first + 1, count - 1, prepares), c);
    if c > first {
      PreparableFirst(first, c, prepares);
      AdmittedExactly(room', first + 1, count - 1, prepares, c);
    } else {
      NotBefore(room', first + 1, count - 1, prepares, first);
    }
    hide Admitted, Refused, Preparable;
  }

  lemma InFront<T>(x: T, b: seq<T>, y: T)
    ensures y in [x] + b <==> y == x || y in b
  {
  }

  lemma {:induction false} NotBefore(room: int, first: Conn, count: nat, prepares: Conn -> bool, c: Conn)
    requires c < first
    ensures c !in Admitted(room, first, count, prepares) && c !in Refused(room, first, count, prepares)
    decreases count
  {
    if count > 0 {
      AcceptStep(room, first, count, prepares);
      hide Admitted, Refused;
      NotBefore(if room > 0 && prepares(first) then room - 1 else room, first + 1, count - 1, prepares, c);
    }
  }

  /** The list of handshakes and the freed connections once the accept loop is over. */
  function AfterAccept(ps: seq<Pending>, freed: seq<Conn>, room: int, first: Conn, count: nat, ans: Answers)
    : (seq<Pending>, seq<Conn>)
  {
    (ps + Entered(Admitted(room, first, count, ans.prepares), ans.acceptedAt),
     freed + Refused(room, first, count, ans.prepares))
  }

  lemma AcceptedNone(ps: seq<Pending>, freed: seq<Conn>, room: int, first: Conn, ans: Answers)
    ensures AfterAccept(ps, freed, room, first, 0, ans) == (ps, freed)
  {
    assert ps + Entered([], ans.acceptedAt) == ps && freed + [] == freed;
  }

  /** One connection more: admitted, which takes a place, or freed. */
  lemma AcceptedOne(ps: seq<Pending>, freed: seq<Conn>, room: int, c: Conn, count: nat, ans: Answers)
    requires count > 0
    ensures AfterAccept(ps, freed, room, c, count, ans) ==
            if room <= 0 || !ans.prepares(c) then AfterAccept(ps, freed + [c], room, c + 1, count - 1, ans)
            else AfterAccept(ps + [Pending(c, ans.acceptedAt(c))], freed, room - 1, c + 1, count - 1, ans)
  {
    hide Admitted, Refused, Entered;
    AcceptStep(room, c, count, ans.prepares);
    if room <= 0 || !ans.prepares(c) {
      Front(freed, c, Refused(room, c + 1, count - 1, ans.prepares));
    } else {
      var p, later := Pending(c, ans.acceptedAt(c)), Admitted(room - 1, c + 1, count - 1, ans.prepares);
      assert Entered([c] + later, ans.acceptedAt) == [p] + Entered(later, ans.acceptedAt);
      Front(ps, p, Entered(later, ans.acceptedAt));
    }
  }

  lemma Front<T>(a: seq<T>, x: T, b: seq<T>)
    ensures a + ([x] + b) == a + [x] + b
  {
  }

  /** A pending connection is freed, or gets a session. */
  lemma LeavePending(ps: seq<Pending>, ss: seq<Served>, freed: seq<Conn>, i: nat, x: Served)
    requires i < |ps| && x.conn == ps[i].conn
    ensures Places(SwapRemove(ps, i), ss, freed + [ps[i].conn]) == Places(ps, ss, freed)
    ensures Places(SwapRemove(ps, i), ss + [x], freed) == Places(ps, ss, freed)
  {
    var conns, c := PendingConns(ps), ps[i].conn;
    ProjectRemove(ps, ss, i);
    SwapRemoveTakesOne(conns, i);
    assert conns[i] == c;
    assert ActiveConns(ss + [x]) == ActiveConns(ss) + [c];
    assert multiset(conns) == multiset(SwapRemove(conns, i)) + multiset{c};
  }

  /** A session goes and its connection with it. */
  lemma LeaveActive(ps: seq<Pending>, ss: seq<Served>, freed: seq<Conn>, i: nat)
    requires i < |ss|
    ensures Places(ps, SwapRemove(ss, i), freed + [ss[i].conn]) == Places(ps, ss, freed)
  {
    var conns, c := ActiveConns(ss), ss[i].conn;
    ProjectRemove(ps, ss, i);
    SwapRemoveTakesOne(conns, i);
    assert conns[i] == c;
    assert multiset(conns) == multiset(SwapRemove(conns, i)) + multiset{c};
  }

  /** A service pass does not change which connection a session has. */
  lemma SameConns(ps: seq<Pending>, ss: seq<Served>, freed: seq<Conn>, i: nat, x: Served)
    requires i < |ss| && x.conn == ss[i].conn
    ensures Places(ps, ss[i := x], freed) == Places(ps, ss, freed)
  {
    assert ActiveConns(ss[i := x]) == ActiveConns(ss);
  }

  // ---------------------------------------------------------------------------
  // What becomes of a handshake and of a session
  // ---------------------------------------------------------------------------

  datatype Fate = Waits | Goes | Opens

  /** A handshake that is late, closed or cannot be served goes, a finished one opens a session, any other waits. */
  function FateOf(p: Pending, timeout: int, ans: Answers): Fate {
    if ans.now - p.acceptedAt >= timeout || ans.closed(p.conn) then Goes
    else if !ans.done(p.conn) then Waits
    else if ans.spawn(p.conn).Serving? then Opens
    else Goes
  }

  /** Those with this fate, in the order they are looked at. */
  function Those(ps: seq<Pending>, fate: Fate, timeout: int, ans: Answers): seq<Pending> {
    if ps == [] then []
    else
      var n := |ps| - 1;
      Those(ps[..n], fate, timeout, ans) + if FateOf(ps[n], timeout, ans) == fate then [ps[n]] else []
  }

  lemma ThoseNext(ps: seq<Pending>, p: Pending, fate: Fate, timeout: int, ans: Answers)
    ensures Those(ps + [p], fate, timeout, ans) ==
            Those(ps, fate, timeout, ans) + if FateOf(p, timeout, ans) == fate then [p] else []
  {
    assert (ps + [p])[..|ps|] == ps;
  }

  lemma {:induction false} ThoseIn(ps: seq<Pending>, p: Pending, fate: Fate, timeout: int, ans: Answers)
    ensures p in Those(ps, fate, timeout, ans) <==> p in ps && FateOf(p, timeout, ans) == fate
    decreases |ps|
  {
    if ps != [] {
      var n := |ps| - 1;
      ThoseIn(ps[..n], p, fate, timeout, ans);
      assert ps == ps[..n] + [ps[n]];
    }
  }

  function NewSessions(ps: seq<Pending>): (r: seq<Served>)
    ensures |r| == |ps| && forall i | 0 <= i < |ps| :: r[i] == Served(ps[i].conn, false)
  {
    seq(|ps|, i requires 0 <= i < |ps| => Served(ps[i].conn, false))
  }

  lemma ProjectNext(ps: seq<Pending>, p: Pending)
    ensures PendingConns(ps + [p]) == PendingConns(ps) + [p.conn]
    ensures NewSessions(ps + [p]) == NewSessions(ps) + [Served(p.conn, false)]
  {
  }

  /** A session once its pass is over. */
  function Passed(x: Served, ans: Answers): Served { x.(aborted := x.aborted || ans.aborts(x.conn)) }

  /** It goes when it is aborted, shut down, and without tasks. */
  predicate Retires(x: Served, ans: Answers) {
    Passed(x, ans).aborted && ans.shutdownDone(x.conn) && ans.tasks(x.conn) == 0
  }

  function Stayed(xs: seq<Served>, ans: Answers): seq<Served> {
    if xs == [] then []
    else
      var n := |xs| - 1;
      Stayed(xs[..n], ans) + if Retires(xs[n], ans) then [] else [Passed(xs[n], ans)]
  }

  function Retired(xs: seq<Served>, ans: Answers): seq<Conn> {
    if xs == [] then []
    else
      var n := |xs| - 1;
      Retired(xs[..n], ans) + if Retires(xs[n], ans) then [xs[n].conn] else []
  }

  lemma ServedNext(xs: seq<Served>, x: Served, ans: Answers)
    ensures Stayed(xs + [x], ans) == Stayed(xs, ans) + if Retires(x, ans) then [] else [Passed(x, ans)]
    ensures Retired(xs + [x], ans) == Retired(xs, ans) + if Retires(x, ans) then [x.conn] else []
    ensures ActiveConns(xs + [x]) == ActiveConns(xs) + [x.conn]
  {
    assert (xs + [x])[..|xs|] == xs;
  }

  lemma {:induction false} RetiredIn(xs: seq<Served>, x: Served, ans: Answers)
    requires x in xs
    ensures if Retires(x, ans) then x.conn in Retired(xs, ans) else Passed(x, ans) in Stayed(xs, ans)
    decreases |xs|
  {
    var n := |xs| - 1;
    if x != xs[n] {
      assert xs == xs[..n] + [xs[n]];
      RetiredIn(xs[..n], x, ans);
    }
  }

  // ---------------------------------------------------------------------------
  // A round
  // ---------------------------------------------------------------------------

  datatype Table = Table(pending: seq<Pending>, active: seq<Served>, freed: seq<Conn>, issued: nat, passes: seq<Conn>)

  /** What a round looked at, in order: handshakes, and sessions as it found them. */
  datatype Looked = Looked(examined: seq<Pending>, served: seq<Served>)

  /** The accept loop's effect, if the server still accepts. */
  function Taken(a: Table, max: nat, ans: Answers): Table {
    if !ans.running then a
    else
      var (ps, freed) := AfterAccept(a.pending, a.freed, max - |a.active| - |a.pending|, a.issued, ans.waiting, ans);
      a.(pending := ps, freed := freed, issued := a.issued + ans.waiting)
  }

  /** A handshake pass looks at every entry once; each waits, goes or opens a session. */
  ghost predicate HandshakesOk(a: Table, examined: seq<Pending>, timeout: int, ans: Answers, b: Table) {
    && multiset(examined) == multiset(a.pending)
    && b == a.(pending := Those(examined, Waits, timeout, ans),
               active := a.active + NewSessions(Those(examined, Opens, timeout, ans)),
               freed := a.freed + PendingConns(Those(examined, Goes, timeout, ans)))
  }

  /** Every session gets one pass; it stays or goes. */
  ghost predicate SessionsOk(a: Table, served: seq<Served>, ans: Answers, b: Table) {
    && multiset(served) == multiset(a.active)
    && b == a.(active := Stayed(served, ans), freed := a.freed + Retired(served, ans),
               passes := a.passes + ActiveConns(served))
  }

  ghost predicate RoundOk(a: Table, looked: Looked, max: nat, timeout: int, ans: Answers, b: Table) {
    exists mid: Table ::
      && (if ans.running then HandshakesOk(Taken(a, max, ans), looked.examined, timeout, ans, mid)
          else looked.examined == [] && mid == a)
      && SessionsOk(mid, looked.served, ans, b)
  }

  /**
   What a round in which the server accepts makes of a handshake, old or just accepted: it is freed if it
   is late or its peer has closed, or if it is done and cannot be served; it has had its first service
   pass if it is done and can be; and exactly otherwise it still waits.
   */
  lemma LateIsFreed(a: Table, looked: Looked, max: nat, timeout: int, ans: Answers, b: Table, p: Pending)
    requires RoundOk(a, looked, max, timeout, ans, b) && ans.running
    requires p in a.pending || p in Taken(a, max, ans).pending
    ensures var late, closed, done := ans.now - p.acceptedAt >= timeout, ans.closed(p.conn), ans.done(p.conn);
            && (late || closed ==> p.conn in b.freed)
            && (!late && !closed && done && !ans.spawn(p.conn).Serving? ==> p.conn in b.freed)
            && (!late && !closed && done && ans.spawn(p.conn).Serving? ==>
                  a.passes <= b.passes && p.conn in b.passes[|a.passes|..])
            && (!late && !closed && !done <==> p in b.pending)
  {
    var mid: Table :|
      && HandshakesOk(Taken(a, max, ans), looked.examined, timeout, ans, mid) && SessionsOk(mid, looked.served, ans, b);
    var fate := FateOf(p, timeout, ans);
    assert p in multiset(Taken(a, max, ans).pending);
    ThoseIn(looked.examined, p, fate, timeout, ans);
    ThoseIn(looked.examined, p, Waits, timeout, ans);
    var those := Those(looked.examined, fate, timeout, ans);
    var k :| 0 <= k < |those| && those[k] == p;
    if fate == Goes {
      assert PendingConns(those)[k] == p.conn;
    } else if fate == Opens {
      var x := NewSessions(those)[k];
      assert x in mid.active;
      ServedIn(mid, looked.served, ans, b, x);
    }
  }

  lemma ServedIn(mid: Table, served: seq<Served>, ans: Answers, b: Table, x: Served)
    requires SessionsOk(mid, served, ans, b) && x in mid.active
    ensures x in served && mid.passes <= b.passes && x.conn in b.passes[|mid.passes|..]
  {
    assert x in multiset(mid.active);
    var j :| 0 <= j < |served| && served[j] == x;
    assert ActiveConns(served)[j] == x.conn && b.passes[|mid.passes|..] == ActiveConns(served);
  }

  /**
   A session is served in every round. It is freed in the first that finds it, after its pass, aborted,
   shut down and without tasks; until then it stays, and stays aborted once it is.
   */
  lemma ServedEveryRound(a: Table, looked: Looked, max: nat, timeout: int, ans: Answers, b: Table, x: Served)
    requires RoundOk(a, looked, max, timeout, ans, b) && x in a.active
    ensures a.passes <= b.passes && x.conn in b.passes[|a.passes|..]
    ensures var aborted := x.aborted || ans.aborts(x.conn);
            if aborted && ans.shutdownDone(x.conn) && ans.tasks(x.conn) == 0 then x.conn in b.freed
            else Served(x.conn, aborted) in b.active
  {
    var mid: Table :|
      && (if ans.running then HandshakesOk(Taken(a, max, ans), looked.examined, timeout, ans, mid)
          else looked.examined == [] && mid == a)
      && SessionsOk(mid, looked.served, ans, b);
    assert x in mid.active;
    ServedIn(mid, looked.served, ans, b, x);
    RetiredIn(looked.served, x, ans);
  }

  /** Once the server stops, nothing is accepted and no handshake goes on; sessions are still served. */
  lemma StoppedRound(a: Table, looked: Looked, max: nat, timeout: int, ans: Answers, b: Table)
    requires RoundOk(a, looked, max, timeout, ans, b) && !ans.running
    ensures b.pending == a.pending && b.issued == a.issued && |b.active| <= |a.active|
    ensures multiset(looked.served) == multiset(a.active) && b.passes == a.passes + ActiveConns(looked.served)
  {
    StayedFewer(looked.served, ans);
    assert |looked.served| == |multiset(looked.served)| && |a.active| == |multiset(a.active)|;
    hide Stayed, Retired;
  }

  lemma {:induction false} StayedFewer(xs: seq<Served>, ans: Answers)
    ensures |Stayed(xs, ans)| <= |xs|
    decreases |xs|
  {
    if xs != [] {
      StayedFewer(xs[..|xs| - 1], ans);
    }
  }

  /** How many connections the rounds take from QUIC. */
  function Offered(rounds: seq<Answers>): nat {
    if rounds == [] then 0
    else
      var n := |rounds| - 1;
      Offered(rounds[..n]) + if rounds[n].running then rounds[n].waiting else 0
  }

  /** The loop: round after round from table to table, each time because it goes on. */
  ghost predicate Looped(tables: seq<Table>, looks: seq<Looked>, rounds: seq<Answers>, max: nat, timeout: int) {
    && |tables| == |looks| + 1 && |looks| <= |rounds|
    && forall k | 0 <= k < |looks| ::
         (rounds[k].top || tables[k].active != [])
           && RoundOk(tables[k], looks[k], max, timeout, rounds[k], tables[k + 1])
  }

  lemma LoopedNext(tables: seq<Table>, looks: seq<Looked>, rounds: seq<Answers>, max: nat, timeout: int,
                   looked: Looked, t: Table)
    requires Looped(tables, looks, rounds, max, timeout) && |looks| < |rounds|
    requires var k := |looks|;
             (rounds[k].top || tables[k].active != []) && RoundOk(tables[k], looked, max, timeout, rounds[k], t)
    ensures Looped(tables + [t], looks + [looked], rounds, max, timeout)
    ensures Offered(rounds[..|looks| + 1]) ==
            Offered(rounds[..|looks|]) + if rounds[|looks|].running then rounds[|looks|].waiting else 0
  {
    hide RoundOk;
    var k := |looks|;
    assert rounds[..k + 1][..k] == rounds[..k];
  }

  // ---------------------------------------------------------------------------
  // The table
  // ---------------------------------------------------------------------------

  class Io {
    var pending: seq<Pending>
    var active: seq<Served>
    var activeCount: int          // active_session_count, for the status page
    var issued: nat               // connections accepted from QUIC
    var freed: seq<Conn>          // connections freed, in order
    var added: nat                // note_conn_added
    var removed: nat              // note_conn_removed
    var passes: seq<Conn>         // service passes made, by the session's connection
    const maxConnections: nat
    const timeout: int            // handshake timeout

    ghost predicate Valid()
      reads this
    {
      && OnePlaceEach(Places(pending, active, freed), issued)
      && |active| + |pending| <= maxConnections
      && activeCount == |active| && added == removed + |active|
    }

    constructor (max: nat, handshakeTimeout: int)
      ensures Valid() && pending == [] && active == [] && issued == 0
      ensures maxConnections == max && timeout == handshakeTimeout
    {
      pending, active, activeCount, issued, freed, added, removed, passes := [], [], 0, 0, [], 0, 0, [];
      maxConnections, timeout := max, handshakeTimeout;
    }

    /** h3_io_at_connection_limit. */
    predicate AtLimit()
      reads this
    {
      |active| + |pending| >= maxConnections
    }

    /** prepare_accepted_connection. */
    method Prepare(conn: Conn, prepares: bool, now: int) returns (ok: bool)
      modifies this`pending
      ensures ok == prepares
      ensures pending == if ok then old(pending) + [Pending(conn, now)] else old(pending)
    {
      if !prepares {
        return false;
      }
      pending := pending + [Pending(conn, now)];
      ok := true;
    }

    function Tbl(): Table
      reads this
    {
      Table(pending, active, freed, issued, passes)
    }

    /**
     The accept loop over the connections QUIC has. A connection over the limit, or one that cannot be
     prepared, is freed at once; the others wait for their handshake, first come first served, and
     the table never grows past H3MaxConnections.
     */
    method AcceptAll(ans: Answers)
      requires Valid()
      modifies this`pending, this`issued, this`freed
      ensures Valid() && issued == old(issued) + ans.waiting
      ensures (pending, freed) ==
              AfterAccept(old(pending), old(freed), maxConnections - |active| - |old(pending)|, old(issued),
                          ans.waiting, ans)
    {
      hide Places, OnePlaceEach, AfterAccept;
      var left := ans.waiting;
      while left > 0
        invariant 0 <= left <= ans.waiting && issued == old(issued) + ans.waiting - left && Valid()
        invariant AfterAccept(pending, freed, maxConnections - |active| - |pending|, issued, left, ans) ==
                  AfterAccept(old(pending), old(freed), maxConnections - |active| - |old(pending)|, old(issued),
                              ans.waiting, ans)
      {
        var conn := issued;
        NewPlace(pending, active, freed, conn, Pending(conn, ans.acceptedAt(conn)));
        AcceptedOne(pending, freed, maxConnections - |active| - |pending|, conn, left, ans);
        issued := issued + 1;
        var drop := AtLimit();
        if !drop {
          var ok := Prepare(conn, ans.prepares(conn), ans.acceptedAt(conn));
          drop := !ok;
        }
        if drop {
          freed := freed + [conn];
        }
        left := left - 1;
      }
      AcceptedNone(pending, freed, maxConnections - |active| - |pending|, issued, ans);
    }

    /** remove_pending_handshake: the last entry takes the place of the removed one. */
    method RemovePending(i: nat, freeConn: bool)
      requires i < |pending|
      modifies this`pending, this`freed
      ensures pending == SwapRemove(old(pending), i)
      ensures freed == if freeConn then old(freed) + [old(pending)[i].conn] else old(freed)
    {
      if freeConn {
        freed := freed + [pending[i].conn];
      }
      var n := |pending| - 1;
      if i < n {
        pending := pending[i := pending[n]];
      }
      pending := pending[..n];
    }

    /** spawn_serviced_session: a session for the connection, or the connection is freed, whatever fails. */
    method Spawn(conn: Conn, out: SpawnOutcome)
      modifies this`active, this`activeCount, this`freed, this`added
      ensures out.Serving? ==> active == old(active) + [Served(conn, false)] && freed == old(freed)
      ensures !out.Serving? ==> active == old(active) && freed == old(freed) + [conn]
      ensures activeCount - |active| == old(activeCount) - |old(active)|
              && added - |active| == old(added) - |old(active)|
    {
      match out
      case NoPool => freed := freed + [conn];
      case NoSession => freed := freed + [conn];
      case NoControlStreams => DestroyConn(Some(conn));
      case ClosedMeanwhile => DestroyConn(Some(conn));
      case NoConnRec => DestroyConn(Some(conn));
      case Serving =>
        active := active + [Served(conn, false)];
        activeCount := activeCount + 1;
        added := added + 1;
    }

    /** The end of h3_session_destroy: the connection a session still has is freed. */
    method DestroyConn(conn: Option<Conn>)
      modifies this`freed
      ensures freed == old(freed) + if conn.Some? then [conn.value] else []
    {
      if conn.Some? {
        freed := freed + [conn.value];
      }
    }

    /** One entry of a handshake pass. */
    method ProgressOne(i: nat, ans: Answers) returns (gone: bool)
      requires Valid() && i < |pending|
      modifies this`pending, this`active, this`activeCount, this`freed, this`added
      ensures Valid()
      ensures var p, fate := old(pending)[i], FateOf(old(pending)[i], timeout, ans);
              && gone == !fate.Waits?
              && pending == (if fate.Waits? then old(pending) else SwapRemove(old(pending), i))
              && active == old(active) + (if fate.Opens? then [Served(p.conn, false)] else [])
              && freed == old(freed) + if fate.Goes? then [p.conn] else []
      ensures var p := old(pending)[i];
              var over := ans.now - p.acceptedAt >= timeout || ans.closed(p.conn);
              && (over ==> freed == old(freed) + [p.conn] && active == old(active))
              && (gone <==> over || ans.done(p.conn))
              && (!over && ans.done(p.conn) ==>
                    if ans.spawn(p.conn).Serving? then active == old(active) + [Served(p.conn, false)]
                    else freed == old(freed) + [p.conn])
    {
      hide Places, OnePlaceEach, SwapRemove;
      var p := pending[i];
      LeavePending(pending, active, freed, i, Served(p.conn, false));
      gone := true;
      if ans.now - p.acceptedAt >= timeout {
        RemovePending(i, true);
      } else if ans.closed(p.conn) {
        RemovePending(i, true);
      } else if ans.done(p.conn) {
        Spawn(p.conn, ans.spawn(p.conn));
        RemovePending(i, false);
      } else {
        gone := false;
      }
    }

    /**
     progress_pending_handshakes. The pass looks at every entry exactly once, also those a removal moves.
     An entry that has timed out or whose connection has closed is freed; one that has finished its
     handshake gets a session, or is freed if it cannot have one; the others wait on, in the order they
     were looked at.
     */
    method ProgressHandshakes(ans: Answers) returns (ghost examined: seq<Pending>)
      requires Valid()
      modifies this`pending, this`active, this`activeCount, this`freed, this`added
      ensures Valid() && HandshakesOk(old(Tbl()), examined, timeout, ans, Tbl())
    {
      hide Valid, SwapRemove, Those, FateOf;
      examined := [];
      LookedNone(timeout, ans);
      var i := 0;
      while i < |pending|
        invariant Valid() && 0 <= i <= |pending|
        invariant multiset(examined) + multiset(pending[i..]) == multiset(old(pending))
        invariant pending[..i] == Those(examined, Waits, timeout, ans)
        invariant active == old(active) + NewSessions(Those(examined, Opens, timeout, ans))
        invariant freed == old(freed) + PendingConns(Those(examined, Goes, timeout, ans))
        decreases |pending| - i
      {
        LookAt(pending, examined, i, timeout, ans);
        examined := examined + [pending[i]];
        var gone := ProgressOne(i, ans);
        if !gone {
          i := i + 1;
        }
      }
      assert pending[..i] == pending;
    }

    /** h3_session_destroy for the i-th session; the last one takes its place. */
    method RemoveActive(i: nat)
      requires Valid() && i < |active|
      modifies this`active, this`activeCount, this`freed, this`removed
      ensures Valid() && active == SwapRemove(old(active), i) && freed == old(freed) + [old(active)[i].conn]
    {
      hide Places, OnePlaceEach;
      LeaveActive(pending, active, freed, i);
      DestroyConn(Some(active[i].conn));
      removed := removed + 1;
      var n := |active| - 1;
      if i < n {
        active := active[i := active[n]];
      }
      active := active[..n];
      activeCount := activeCount - 1;
    }

    /** A service pass and what follows it. */
    method ServeOne(i: nat, ans: Answers) returns (gone: bool)
      requires Valid() && i < |active|
      modifies this`active, this`activeCount, this`freed, this`removed, this`passes
      ensures Valid()
      ensures var x := old(active)[i];
              && gone == Retires(x, ans) && passes == old(passes) + [x.conn]
              && active == (if gone then SwapRemove(old(active), i) else old(active)[i := Passed(x, ans)])
              && freed == old(freed) + if gone then [x.conn] else []
    {
      hide Places, OnePlaceEach;
      var session := active[i];
      passes := passes + [session.conn];
      if ans.aborts(session.conn) {
        session := session.(aborted := true);
      }
      SameConns(pending, active, freed, i, session);
      ghost var active0 := active;
      active := active[i := session];
      gone := false;
      if session.aborted {
        gone := ans.shutdownDone(session.conn) && ans.tasks(session.conn) == 0;
      }
      if gone {
        assert SwapRemove(active, i) == SwapRemove(active0, i);
        RemoveActive(i);
      }
    }

    /** The session loop: every session gets exactly one pass, also those a removal moves. */
    method ServeAll(ans: Answers) returns (ghost served: seq<Served>)
      requires Valid()
      modifies this`active, this`activeCount, this`freed, this`removed, this`passes
      ensures Valid() && SessionsOk(old(Tbl()), served, ans, Tbl())
    {
      hide Valid, SwapRemove, Stayed, Retired, Retires, ActiveConns;
      served := [];
      ServedNone(ans);
      var i := 0;
      while i < |active|
        invariant Valid() && 0 <= i <= |active|
        invariant multiset(served) + multiset(active[i..]) == multiset(old(active))
        invariant active[..i] == Stayed(served, ans) && freed == old(freed) + Retired(served, ans)
        invariant passes == old(passes) + ActiveConns(served)
        decreases |active| - i
      {
        ServeAt(active, served, i, ans);
        served := served + [active[i]];
        var gone := ServeOne(i, ans);
        if !gone {
          i := i + 1;
        }
      }
      assert active[..i] == active;
    }

    /** After the event loop: every handshake still pending is dropped. */
    method DropPending()
      requires Valid()
      modifies this`pending, this`freed
      ensures Valid() && pending == [] && old(freed) <= freed
    {
      hide Places, OnePlaceEach;
      while |pending| > 0
        invariant Valid() && old(freed) <= freed
        decreases |pending|
      {
        LeavePending(pending, active, freed, 0, Served(pending[0].conn, false));
        RemovePending(0, true);
      }
    }

    /** One turn of the event loop, from table to table as `RoundOk` says. */
    method Round(ans: Answers) returns (ghost looked: Looked)
      requires Valid()
      modifies this
      ensures Valid() && RoundOk(old(Tbl()), looked, maxConnections, timeout, ans, Tbl())
    {
      hide Valid, AfterAccept, HandshakesOk, SessionsOk;
      ghost var examined := [];
      if ans.running {
        AcceptAll(ans);
        assert Tbl() == Taken(old(Tbl()), maxConnections, ans);
        examined := ProgressHandshakes(ans);
      }
      ghost var mid := Tbl();
      ghost var served := ServeAll(ans);
      looked := Looked(examined, served);
      assert SessionsOk(mid, looked.served, ans, Tbl());
    }

    /**
     h3_event_thread, on any answers. It goes round exactly as long as the server runs or a session is
     left, takes from QUIC exactly what it is offered while it accepts, and exits exactly when it finds
     the server stopped and no session; then every connection it ever accepted has been freed, and none
     twice.
     */
    method EventThread(rounds: seq<Answers>) returns (exited: bool, ghost tables: seq<Table>, ghost looks: seq<Looked>)
      requires Valid()
      modifies this
      ensures Valid() && Looped(tables, looks, rounds, maxConnections, timeout) && tables[0] == old(Tbl())
      ensures issued == old(issued) + Offered(rounds[..|looks|])
      ensures exited == (|looks| < |rounds|)
      ensures !exited ==> Tbl() == tables[|looks|]
      ensures exited ==> !rounds[|looks|].top && tables[|looks|].active == [] && pending == [] && active == []
      ensures exited ==> passes == tables[|looks|].passes && tables[|looks|].freed <= freed && |freed| == issued
      ensures exited ==> forall c: Conn :: multiset(freed)[c] == if c < issued then 1 else 0
    {
      hide Valid, Looped, RoundOk, Offered;
      tables, looks := [Tbl()], [];
      LoopedNone(Tbl(), rounds, maxConnections, timeout);
      var k := 0;
      while k < |rounds| && (rounds[k].top || |active| > 0)
        invariant 0 <= k <= |rounds| && Valid() && |looks| == k && |tables| == k + 1
        invariant Looped(tables, looks, rounds, maxConnections, timeout)
        invariant tables[0] == old(Tbl()) && tables[k] == Tbl()
        invariant issued == old(issued) + Offered(rounds[..k])
      {
        ghost var looked := Round(rounds[k]);
        RoundIssues(tables[k], looked, maxConnections, timeout, rounds[k], Tbl());
        LoopedNext(tables, looks, rounds, maxConnections, timeout, looked, Tbl());
        tables, looks := tables + [Tbl()], looks + [looked];
        k := k + 1;
      }
      exited := k < |rounds|;
      if exited {
        DropPending();
        AllFreed(this);
      }
    }
  }

  lemma LoopedNone(t: Table, rounds: seq<Answers>, max: nat, timeout: int)
    ensures Looped([t], [], rounds, max, timeout) && Offered(rounds[..0]) == 0
  {
  }

  lemma RoundIssues(a: Table, looked: Looked, max: nat, timeout: int, ans: Answers, b: Table)
    requires RoundOk(a, looked, max, timeout, ans, b)
    ensures b.issued == a.issued + if ans.running then ans.waiting else 0
  {
  }

  lemma AllFreed(io: Io)
    requires io.Valid() && io.pending == [] && io.active == []
    ensures |io.freed| == io.issued
    ensures forall c: Conn :: multiset(io.freed)[c] == if c < io.issued then 1 else 0
  {
    assert Places([], [], io.freed) == multiset(io.freed);
    CountOnce(io.freed, io.issued);
  }

  /** A sequence that holds each number below n once has n elements. */
  lemma {:induction false} CountOnce(xs: seq<Conn>, n: nat)
    requires forall c: Conn :: multiset(xs)[c] == if c < n then 1 else 0
    ensures |xs| == n
    decreases n
  {
    if n == 0 {
      assert xs == [] || multiset(xs)[xs[0]] > 0;
    } else {
      assert n - 1 in multiset(xs);
      var i :| 0 <= i < |xs| && xs[i] == n - 1;
      SwapRemoveTakesOne(xs, i);
      CountOnce(SwapRemove(xs, i), n - 1);
    }
  }

  lemma LookedNone(timeout: int, ans: Answers)
    ensures forall fate :: Those([], fate, timeout, ans) == []
    ensures NewSessions([]) == [] && PendingConns([]) == []
  {
  }

  /** One entry is looked at: it stays and the index moves on, or the last one takes its place. */
  lemma LookAt(ps: seq<Pending>, examined: seq<Pending>, i: nat, timeout: int, ans: Answers)
    requires i < |ps| && ps[..i] == Those(examined, Waits, timeout, ans)
    ensures var p, fate := ps[i], FateOf(ps[i], timeout, ans);
            var ps', i' := if fate.Waits? then ps else SwapRemove(ps, i), if fate.Waits? then i + 1 else i;
            var opening, going := Those(examined, Opens, timeout, ans), Those(examined, Goes, timeout, ans);
            && multiset(examined + [p]) + multiset(ps'[i'..]) == multiset(examined) + multiset(ps[i..])
            && ps'[..i'] == Those(examined + [p], Waits, timeout, ans)
            && NewSessions(Those(examined + [p], Opens, timeout, ans)) ==
               NewSessions(opening) + (if fate.Opens? then [Served(p.conn, false)] else [])
            && PendingConns(Those(examined + [p], Goes, timeout, ans)) ==
               PendingConns(going) + if fate.Goes? then [p.conn] else []
  {
    hide SwapRemove, Those, FateOf;
    Peel(ps, i);
    SwapRemoveFrom(ps, i);
    ThoseNext(examined, ps[i], Waits, timeout, ans);
    ThoseNext(examined, ps[i], Opens, timeout, ans);
    ThoseNext(examined, ps[i], Goes, timeout, ans);
    ProjectNext(Those(examined, Opens, timeout, ans), ps[i]);
    ProjectNext(Those(examined, Goes, timeout, ans), ps[i]);
  }

  lemma ServedNone(ans: Answers)
    ensures Stayed([], ans) == [] && Retired([], ans) == [] && ActiveConns([]) == []
  {
  }

  /** One session is served: it stays and the index moves on, or the last one takes its place. */
  lemma ServeAt(xs: seq<Served>, served: seq<Served>, i: nat, ans: Answers)
    requires i < |xs| && xs[..i] == Stayed(served, ans)
    ensures var x := xs[i];
            var xs', i' := if Retires(x, ans) then SwapRemove(xs, i) else xs[i := Passed(x, ans)],
                           if Retires(x, ans) then i else i + 1;
            && multiset(served + [x]) + multiset(xs'[i'..]) == multiset(served) + multiset(xs[i..])
            && xs'[..i'] == Stayed(served + [x], ans)
            && Retired(served + [x], ans) == Retired(served, ans) + (if Retires(x, ans) then [x.conn] else [])
            && ActiveConns(served + [x]) == ActiveConns(served) + [x.conn]
  {
    hide SwapRemove, Stayed, Retired, Retires, Passed;
    Peel(xs, i);
    SwapRemoveFrom(xs, i);
    ServedNext(served, xs[i], ans);
    var xs' := xs[i := Passed(xs[i], ans)];
    assert xs'[..i + 1] == xs[..i] + [Passed(xs[i], ans)] && xs'[i + 1..] == xs[i + 1..];
  }

  lemma Peel<T>(xs: seq<T>, i: nat)
    requires i < |xs|
    ensures xs[..i + 1] == xs[..i] + [xs[i]]
    ensures multiset(xs[i..]) == multiset{xs[i]} + multiset(xs[i + 1..])
  {
    assert xs[i..] == [xs[i]] + xs[i + 1..];
  }
}
