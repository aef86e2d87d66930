/**
 Accepting the streams QUIC has opened (mod_http3/src/h3_io.c, mod_http3/src/h3_stream.c): which
 streams get an entry in the table, which handles are freed at once, and which are lost because
 their stream id came again.
 */
module StreamIntake {
  import opened Options
  import opened Session
  import opened SessionSafety
  import opened SessionRun
  import opened FlushLoop
  import GoAway

  // ---------------------------------------------------------------------------
  // The table of ids and handles
  // ---------------------------------------------------------------------------

  datatype Entry = Entry(sid: nat, tracked: bool, qstream: Option<Handle>)

  function Entries(ls: seq<Lane>): (r: seq<Entry>)
    ensures |r| == |ls| && forall i | 0 <= i < |ls| :: r[i] == Entry(ls[i].sid, ls[i].tracked, ls[i].qstream)
  {
    seq(|ls|, i requires 0 <= i < |ls| => Entry(ls[i].sid, ls[i].tracked, ls[i].qstream))
  }

  /** The entry a stream id has, from the k-th on. */
  function LookupFrom(es: seq<Entry>, id: int, k: nat): (r: Option<nat>)
    requires k <= |es|
    ensures r.Some? ==> k <= r.value < |es| && es[r.value].tracked && es[r.value].sid == id
    ensures r.None? ==> forall j | k <= j < |es| && es[j].tracked :: es[j].sid != id
    decreases |es| - k
  {
    if k == |es| then None else if es[k].tracked && es[k].sid == id then Some(k) else LookupFrom(es, id, k + 1)
  }

  function Lookup(es: seq<Entry>, id: int): (r: Option<nat>)
    ensures r.Some? ==> r.value < |es| && es[r.value].tracked && es[r.value].sid == id
    ensures r.None? ==> forall j | 0 <= j < |es| && es[j].tracked :: es[j].sid != id
  {
    LookupFrom(es, id, 0)
  }

  /** The table, the handles freed and lost so far, and how many QUIC has handed out. */
  datatype Intake = Intake(entries: seq<Entry>, freed: seq<Handle>, lost: seq<Handle>, issued: nat)

  /** One stream: its entry if there is one gets the handle, or it gets an entry, or the handle is freed. */
  function TakeOne(t: Intake, id: int, memoryOk: bool): Intake {
    var next := t.(issued := t.issued + 1);
    if id < 0 then next.(freed := t.freed + [t.issued])
    else
      match Lookup(t.entries, id)
      case Some(j) =>
        var e := t.entries[j];
        next.(entries := t.entries[j := e.(qstream := Some(t.issued))],
              lost := if e.qstream.Some? then t.lost + [e.qstream.value] else t.lost)
      case None =>
        if memoryOk then next.(entries := t.entries + [Entry(id, true, Some(t.issued))])
        else next.(freed := t.freed + [t.issued])
  }

  function TakeAll(t: Intake, ids: seq<int>, memoryOk: nat -> bool): Intake {
    if ids == [] then t
    else
      var k := |ids| - 1;
      TakeOne(TakeAll(t, ids[..k], memoryOk), ids[k], memoryOk(k))
  }

  lemma TakeNext(t: Intake, ids: seq<int>, k: nat, memoryOk: nat -> bool)
    requires k < |ids|
    ensures TakeAll(t, ids[..k + 1], memoryOk) == TakeOne(TakeAll(t, ids[..k], memoryOk), ids[k], memoryOk(k))
  {
    assert ids[..k + 1][..k] == ids[..k];
  }

  /** Handles freed and lost before make no difference to what follows. */
  lemma {:induction false} TakeApart(t: Intake, ids: seq<int>, memoryOk: nat -> bool)
    ensures var alone := TakeAll(t.(freed := [], lost := []), ids, memoryOk);
            TakeAll(t, ids, memoryOk) == alone.(freed := t.freed + alone.freed, lost := t.lost + alone.lost)
    decreases |ids|
  {
    if ids != [] {
      TakeApart(t, ids[..|ids| - 1], memoryOk);
    }
  }

  /**
   A stream costs a handle exactly when its id is in the table and the entry still has one, and that
   is the one lost.
   */
  lemma RepeatLosesExactly(t: Intake, id: int, memoryOk: bool)
    ensures var j := Lookup(t.entries, id);
            && (TakeOne(t, id, memoryOk).lost != t.lost <==> id >= 0 && j.Some? && t.entries[j.value].qstream.Some?)
            && (id >= 0 && j.Some? && t.entries[j.value].qstream.Some? ==>
                  TakeOne(t, id, memoryOk).lost == t.lost + [t.entries[j.value].qstream.value])
  {
  }

  /**
   Where a stream goes: an id that cannot be, or is new when there is no memory, has its handle freed and
   changes no entry; a new id gets an entry of its own behind the others; and a known one gets the
   handle in its entry. Either way one handle was handed out.
   */
  lemma TakesExactly(t: Intake, id: int, memoryOk: bool, j: nat)
    ensures var r, h := TakeOne(t, id, memoryOk), t.issued;
            var novel := forall k | 0 <= k < |t.entries| && t.entries[k].tracked :: t.entries[k].sid != id;
            && r.issued == h + 1
            && (id < 0 || (novel && !memoryOk) ==> r.entries == t.entries && r.freed == t.freed + [h])
            && (id >= 0 && novel && memoryOk ==>
                r.entries == t.entries + [Entry(id, true, Some(h))] && r.freed == t.freed)
    ensures id >= 0 && j < |t.entries| && t.entries[j].tracked && t.entries[j].sid == id
            && (forall k | 0 <= k < j :: !(t.entries[k].tracked && t.entries[k].sid == id)) ==>
              && TakeOne(t, id, memoryOk).entries == t.entries[j := Entry(id, true, Some(t.issued))]
              && TakeOne(t, id, memoryOk).freed == t.freed
  {
    if j <= |t.entries| && forall k | 0 <= k < j :: !(t.entries[k].tracked && t.entries[k].sid == id) {
      LookupSkips(t.entries, id, j);
    }
  }

  lemma {:induction false} LookupSkips(es: seq<Entry>, id: int, j: nat)
    requires j <= |es| && forall k | 0 <= k < j :: !(es[k].tracked && es[k].sid == id)
    ensures Lookup(es, id) == LookupFrom(es, id, j)
  {
    if j > 0 {
      LookupSkips(es, id, j - 1);
    }
  }

  /** With every id new to the table nothing is lost. */
  lemma {:induction false} NewIdsLoseNothing(t: Intake, ids: seq<int>, memoryOk: nat -> bool)
    requires forall a, b | 0 <= a < b < |ids| && ids[a] >= 0 :: ids[a] != ids[b]
    requires forall a | 0 <= a < |ids| && ids[a] >= 0 :: Lookup(t.entries, ids[a]).None?
    ensures TakeAll(t, ids, memoryOk).lost == t.lost
    ensures forall j | 0 <= j < |TakeAll(t, ids, memoryOk).entries| ::
              (j < |t.entries| && TakeAll(t, ids, memoryOk).entries[j] == t.entries[j])
              || TakeAll(t, ids, memoryOk).entries[j].sid in ids
    decreases |ids|
  {
    if ids != [] {
      var k := |ids| - 1;
      var front := ids[..k];
      NewIdsLoseNothing(t, front, memoryOk);
      var mid := TakeAll(t, front, memoryOk);
      if ids[k] >= 0 {
        assert Lookup(t.entries, ids[k]).None?;
        forall j | 0 <= j < |mid.entries| ensures !(mid.entries[j].tracked && mid.entries[j].sid == ids[k]) {
          assert (j < |t.entries| && mid.entries[j] == t.entries[j]) || mid.entries[j].sid in front;
        }
      }
    }
  }

  // ---------------------------------------------------------------------------
  // What it does to the streams
  // ---------------------------------------------------------------------------

  /** The stream table after one stream was taken in. */
  function Accepted(ls: seq<Lane>, id: int, memoryOk: bool, handle: Handle, limit: nat): seq<Lane> {
    if id < 0 then ls
    else
      match Lookup(Entries(ls), id)
      case Some(j) => ls[j := ls[j].(qstream := Some(handle))]
      case None => if memoryOk then ls + [NewLane(id, handle, limit, 0)] else ls
  }

  lemma AcceptedEntries(t: Intake, ls: seq<Lane>, id: int, memoryOk: bool, limit: nat)
    requires t.entries == Entries(ls)
    ensures Entries(Accepted(ls, id, memoryOk, t.issued, limit)) == TakeOne(t, id, memoryOk).entries
  {
  }

  /** The entries are untouched but for their handles and what workers do; those behind have only just come. */
  ghost predicate TookIn(a: seq<Lane>, b: seq<Lane>, limit: nat) {
    && |a| <= |b|
    && (forall i | 0 <= i < |a| :: WorkedOn(a[i].(qstream := b[i].qstream), b[i]))
    && (forall i | |a| <= i < |b| :: JustCame(b[i], limit))
  }

  ghost predicate JustCame(l: Lane, limit: nat) {
    l.qstream.Some? && l == NewLane(l.sid, l.qstream.value, limit, 0)
  }

  lemma TookInNone(a: seq<Lane>, limit: nat)
    ensures TookIn(a, a, limit)
  {
  }

  /** Workers do not touch a stream that has only just come. */
  lemma TookInWorked(a: seq<Lane>, b: seq<Lane>, c: seq<Lane>, limit: nat)
    requires TookIn(a, b, limit) && Worked(b, c)
    ensures TookIn(a, c, limit)
  {
    forall i | 0 <= i < |b| ensures WorkedOn(b[i], c[i]) {
    }
    forall i | 0 <= i < |a| ensures WorkedOn(a[i].(qstream := c[i].qstream), c[i]) {
      assert WorkedOn(a[i].(qstream := b[i].qstream), b[i]);
    }
    forall i | |a| <= i < |b| ensures JustCame(c[i], limit) {
      assert JustCame(b[i], limit);
    }
  }

  lemma Rehandle(a: Lane, b: Lane, handle: Option<Handle>)
    requires WorkedOn(a, b)
    ensures WorkedOn(a.(qstream := handle), b.(qstream := handle))
  {
  }

  /** A stream that has only just come is as new under another handle. */
  lemma StillNew(l: Lane, m: Lane, limit: nat)
    requires JustCame(l, limit) && m == l.(qstream := m.qstream) && m.qstream.Some?
    ensures JustCame(m, limit)
  {
  }

  lemma NewCame(sid: nat, handle: Handle, limit: nat)
    ensures JustCame(NewLane(sid, handle, limit, 0), limit)
  {
  }

  /** Taking a stream in changes one handle or adds one entry. */
  lemma AcceptedAt(b: seq<Lane>, id: int, memoryOk: bool, handle: Handle, limit: nat)
    ensures var c := Accepted(b, id, memoryOk, handle, limit);
            && |b| <= |c| <= |b| + 1
            && (forall i | 0 <= i < |b| :: c[i] == b[i].(qstream := c[i].qstream)
                                           && (c[i].qstream == b[i].qstream || c[i].qstream.Some?))
            && (|b| < |c| ==> JustCame(c[|b|], limit))
  {
    hide NewLane, JustCame, LookupFrom;
    if id >= 0 {
      NewCame(id, handle, limit);
    }
  }

  lemma TookInOne(a: seq<Lane>, b: seq<Lane>, id: int, memoryOk: bool, handle: Handle, limit: nat)
    requires TookIn(a, b, limit)
    ensures TookIn(a, Accepted(b, id, memoryOk, handle, limit), limit)
  {
    hide WorkedOn, Accepted, JustCame;
    AcceptedAt(b, id, memoryOk, handle, limit);
    var c := Accepted(b, id, memoryOk, handle, limit);
    forall i | 0 <= i < |a| ensures WorkedOn(a[i].(qstream := c[i].qstream), c[i]) {
      Rehandle(a[i].(qstream := b[i].qstream), b[i], c[i].qstream);
    }
    forall i | |a| <= i < |b| ensures JustCame(c[i], limit) {
      HasHandle(b[i], limit);
      StillNew(b[i], c[i], limit);
    }
  }

  lemma HasHandle(l: Lane, limit: nat)
    requires JustCame(l, limit)
    ensures l.qstream.Some?
  {
  }

  lemma EntriesWorked(a: seq<Lane>, b: seq<Lane>)
    requires Worked(a, b)
    ensures Entries(b) == Entries(a)
  {
    forall i | 0 <= i < |a| ensures Entries(b)[i] == Entries(a)[i] {
      assert WorkedOn(a[i], b[i]);
    }
  }

  // ---------------------------------------------------------------------------
  // The code
  // ---------------------------------------------------------------------------

  /** The table's entry for a stream id (h3_stream_find). */
  method Find(h: H3Session, sid: nat) returns (j: Option<nat>)
    ensures j == Lookup(Entries(h.lanes), sid)
  {
    ghost var es := Entries(h.lanes);
    var k := 0;
    while k < |h.lanes|
      invariant 0 <= k <= |h.lanes| && Lookup(es, sid) == LookupFrom(es, sid, k)
    {
      if h.lanes[k].tracked && h.lanes[k].sid == sid {
        return Some(k);
      }
      k := k + 1;
    }
    return None;
  }

  /** track_stream: a stream already in the table gets the new handle, any other id a new entry if there is memory. */
  method TrackStream(h: H3Session, sid: nat, handle: Handle, memoryOk: bool)
    returns (tracked: bool, replaced: Option<Handle>)
    modifies h`lanes
    ensures h.lanes == Accepted(old(h.lanes), sid, memoryOk, handle, h.limit)
    ensures tracked == (Lookup(Entries(old(h.lanes)), sid).Some? || memoryOk)
    ensures var j := Lookup(Entries(old(h.lanes)), sid);
            replaced == if j.Some? then old(h.lanes)[j.value].qstream else None
  {
    var at := Find(h, sid);
    replaced := None;
    if at.Some? {
      replaced := h.lanes[at.value].qstream;
      h.lanes := h.lanes[at.value := h.lanes[at.value].(qstream := Some(handle))];
      return true, replaced;
    }
    if !memoryOk {
      return false, replaced;
    }
    h.lanes := h.lanes + [NewLane(sid, handle, h.limit, 0)];
    tracked := true;
  }

  /** The step taking in a stream is. */
  function IntakeStep(ls: seq<Lane>, id: int, memoryOk: bool): Step {
    if id < 0 then Track(0, 0, false)
    else
      match Lookup(Entries(ls), id)
      case Some(j) => Retrack(j)
      case None => Track(id, 0, memoryOk)
  }

  lemma IntakeShape(s: State, id: int, memoryOk: bool)
    requires !s.destroyed && s.et.Idle?
    ensures var t, step := Intake(Entries(s.lanes), s.freed, s.lost, s.issued), IntakeStep(s.lanes, id, memoryOk);
            && Enabled(s, step) && !step.WriteTurn? && !WorkerStep(step) && !Handing(step)
            && var r := TakeOne(t, id, memoryOk);
               Next(s, step) == s.(lanes := Accepted(s.lanes, id, memoryOk, s.issued, s.limit),
                                   freed := r.freed, lost := r.lost, issued := r.issued)
  {
  }

  ghost function IntakeOf(h: H3Session): Intake
    reads h`lanes, h`freed, h`lost, h`issued
  {
    Intake(Entries(h.lanes), h.freed, h.lost, h.issued)
  }

  /** One stream QUIC has opened, whatever its id: one step, after which table and handles are as `TakeOne` says. */
  method AcceptOne(h: H3Session, id: int, memoryOk: bool)
    requires h.Mine() && h.Ok()
    modifies h`lanes, h`issued, h`freed, h`lost, h`trail
    ensures h.Ok() && OwnGrew(old(h.trail), h.trail)
    ensures IntakeOf(h) == TakeOne(old(IntakeOf(h)), id, memoryOk)
    ensures h.lanes == Accepted(old(h.lanes), id, memoryOk, old(h.issued), h.limit)
  {
    hide Inv, Run, Told, Enabled, Next, OwnGrew, IntakeStep, NewLane, LookupFrom;
    ghost var step := IntakeStep(h.lanes, id, memoryOk);
    IntakeShape(h.View(), id, memoryOk);
    AcceptedEntries(IntakeOf(h), h.lanes, id, memoryOk, h.limit);
    Took(h.limit, h.trail, h.wire, h.View(), step);
    GrewRefl(h.trail);
    GrewStep(h.trail, h.trail, step);
    h.trail := h.trail + [step];
    var handle := h.issued;
    h.issued := handle + 1;
    if id < 0 {
      h.freed := h.freed + [handle];
      return;
    }
    var tracked;
    var replaced;
    tracked, replaced := TrackStream(h, id, handle, memoryOk);
    if !tracked {
      h.freed := h.freed + [handle];
    }
    if replaced.Some? {
      h.lost := h.lost + [replaced.value];
    }
  }

  lemma OneMore(log: seq<GoAway.Event>, base: seq<GoAway.Event>, e: GoAway.Event, n: nat)
    requires log == base + GoAway.Times(e, n)
    ensures log + [e] == base + GoAway.Times(e, n + 1)
  {
  }

  /**
   The accept loop, for any ids, with workers moving in between: every stream is tracked, takes over
   the entry its id has, or has its handle freed.
   */
  method AcceptStreams(h: H3Session, ids: seq<int>, memoryOk: nat -> bool)
    requires h.Mine() && h.Ok()
    modifies h`lanes, h`issued, h`freed, h`lost, h`tasks, h`activeTasks, h`trail, h`log
    ensures h.Ok() && Handings(h.trail) == Handings(old(h.trail)) && KeepsWhole(h.limit, old(h.trail), h.trail)
    ensures IntakeOf(h) == TakeAll(old(IntakeOf(h)), ids, memoryOk)
    ensures TookIn(old(h.lanes), h.lanes, h.limit)
    ensures h.log == old(h.log) + GoAway.Times(GoAway.Accept, |ids|)
  {
    hide H3Session.Ok, Handings, TookIn, OwnGrew, Worked, TakeOne, TakeAll, Accepted, ReservedWhole;
    TookInNone(h.lanes, h.limit);
    TakeNone(IntakeOf(h), memoryOk);
    assert ids[..0] == [];
    var k := 0;
    while k < |ids|
      invariant 0 <= k <= |ids| && h.Ok() && Handings(h.trail) == Handings(old(h.trail))
      invariant KeepsWhole(h.limit, old(h.trail), h.trail)
      invariant IntakeOf(h) == TakeAll(old(IntakeOf(h)), ids[..k], memoryOk)
      invariant TookIn(old(h.lanes), h.lanes, h.limit)
      invariant h.log == old(h.log) + GoAway.Times(GoAway.Accept, k)
    {
      ghost var lanes0, trail0 := h.lanes, h.trail;
      h.Workers();
      KeepsSame(h.limit, trail0, h.trail);
      TookInWorked(old(h.lanes), lanes0, h.lanes, h.limit);
      EntriesWorked(lanes0, h.lanes);
      trail0 := h.trail;
      TakeNext(old(IntakeOf(h)), ids, k, memoryOk);
      TookInOne(old(h.lanes), h.lanes, ids[k], memoryOk(k), h.issued, h.limit);
      AcceptOne(h, ids[k], memoryOk(k));
      HandingsSame(trail0, h.trail);
      GrewKeeps(h.limit, trail0, h.trail);
      OneMore(h.log, old(h.log), GoAway.Accept, k);
      h.log := h.log + [GoAway.Accept];
      k := k + 1;
    }
    assert ids[..k] == ids;
  }

  lemma TakeNone(t: Intake, memoryOk: nat -> bool)
    ensures TakeAll(t, [], memoryOk) == t
  {
  }
}
