/**
 Control flow of service_session_pass (mod_http3/src/h3_io.c): the GOAWAY notice, the grace
 period and the abort, over whole runs of passes. Times are APR microseconds.
 */
module GoAway {
  import opened Options

  const GOAWAY_GRACE := 3_000_000

  /** What a pass does, in order, as seen from outside. */
  datatype Event = Notice | FinalShutdown | Flush | Accept | Drain | Dispatch

  /** `deadline` is None while goaway_deadline is still zero. */
  datatype Control = Control(aborted: bool, deadline: Option<int>, log: seq<Event>)

  const FRESH := Control(false, None, [])

  /** What the environment shows one pass: two clock readings, and the answers of QUIC and nghttp3. */
  datatype Input = Input(
    running: bool,
    setAt: int,
    checkedAt: int,
    drained: bool,
    closed: bool,
    scratchOk: bool,
    accepted: nat,
    deadAfterDrain: bool,
    dispatched: nat)

  function Times(e: Event, n: nat): seq<Event> { seq(n, _ => e) }

  /** The shutdown part: a notice on the first pass, and the deadline it starts. */
  function Notify(c: Control, setAt: int): Control {
    if c.deadline.None?
    then c.(deadline := Some(setAt + GOAWAY_GRACE), log := c.log + [Notice, Flush])
    else c.(log := c.log + [Flush])
  }

  predicate Expired(c: Control, obs: Input) {
    obs.drained || (c.deadline.Some? && obs.checkedAt >= c.deadline.value)
  }

  function Work(c: Control, obs: Input): Control {
    if obs.closed then c.(aborted := true)
    else if !obs.scratchOk then c
    else
      var drained := c.(log := c.log + Times(Accept, obs.accepted) + [Drain, Flush]);
      if obs.deadAfterDrain then drained.(aborted := true)
      else drained.(log := drained.log + Times(Dispatch, obs.dispatched) + [Flush])
  }

  function Pass(c: Control, obs: Input): Control {
    if c.aborted then c
    else if obs.running then Work(c, obs)
    else
      var noticed := Notify(c, obs.setAt);
      if Expired(noticed, obs) then noticed.(aborted := true, log := noticed.log + [FinalShutdown, Flush])
      else Work(noticed, obs)
  }

  function Passes(c: Control, ins: seq<Input>): Control
    decreases |ins|
  {
    if ins == [] then c else Passes(Pass(c, ins[0]), ins[1..])
  }

  // ---------------------------------------------------------------------------
  // Counting events
  // ---------------------------------------------------------------------------

  function Count(log: seq<Event>, e: Event): nat {
    if log == [] then 0 else (if log[0] == e then 1 else 0) + Count(log[1..], e)
  }

  lemma {:induction false} CountConcat(a: seq<Event>, b: seq<Event>, e: Event)
    ensures Count(a + b, e) == Count(a, e) + Count(b, e)
  {
    if a == [] {
      assert a + b == b;
    } else {
      assert (a + b)[1..] == a[1..] + b;
      CountConcat(a[1..], b, e);
    }
  }

  lemma {:induction false} CountAbsent(log: seq<Event>, e: Event)
    requires e !in log
    ensures Count(log, e) == 0
  {
    if log != [] {
      CountAbsent(log[1..], e);
    }
  }

  // ---------------------------------------------------------------------------
  // What every run keeps
  // ---------------------------------------------------------------------------

  /** The notice went out exactly when the deadline was set, and a final shutdown only after it and into an abort. */
  ghost predicate Ordered(c: Control) {
    && Count(c.log, Notice) == (if c.deadline.Some? then 1 else 0)
    && Count(c.log, FinalShutdown) <= (if c.aborted then 1 else 0)
    && (forall j | 0 <= j < |c.log| && c.log[j] == FinalShutdown :: exists i :: 0 <= i < j && c.log[i] == Notice)
  }

  lemma {:induction false} CountWitness(log: seq<Event>, e: Event)
    requires Count(log, e) > 0
    ensures exists i :: 0 <= i < |log| && log[i] == e
  {
    if log[0] != e {
      CountWitness(log[1..], e);
      var i :| 0 <= i < |log[1..]| && log[1..][i] == e;
      assert log[i + 1] == e;
    }
  }

  /** Appending events that are neither kind changes nothing. */
  lemma AppendPlain(c: Control, more: seq<Event>)
    requires Ordered(c) && Notice !in more && FinalShutdown !in more
    ensures Ordered(c.(log := c.log + more))
  {
    CountConcat(c.log, more, Notice);
    CountConcat(c.log, more, FinalShutdown);
    CountAbsent(more, Notice);
    CountAbsent(more, FinalShutdown);
    KeepsWitness(c.log, more);
  }

  lemma KeepsWitness(log: seq<Event>, more: seq<Event>)
    requires forall j | 0 <= j < |log| && log[j] == FinalShutdown :: exists i :: 0 <= i < j && log[i] == Notice
    requires forall k | 0 <= k < |more| :: more[k] != FinalShutdown
    ensures forall j | 0 <= j < |log + more| && (log + more)[j] == FinalShutdown ::
              exists i :: 0 <= i < j && (log + more)[i] == Notice
  {
    forall j | 0 <= j < |log + more| && (log + more)[j] == FinalShutdown
      ensures exists i :: 0 <= i < j && (log + more)[i] == Notice
    {
      var i :| 0 <= i < j && log[i] == Notice;
      assert (log + more)[i] == Notice;
    }
  }

  lemma NotifyKeeps(c: Control, setAt: int)
    requires Ordered(c) && !c.aborted
    ensures Ordered(Notify(c, setAt))
  {
    if c.deadline.None? {
      CountConcat(c.log, [Notice, Flush], Notice);
      CountConcat(c.log, [Notice, Flush], FinalShutdown);
      KeepsWitness(c.log, [Notice, Flush]);
      assert Count([Notice, Flush], Notice) == 1 && Count([Notice, Flush], FinalShutdown) == 0;
    } else {
      AppendPlain(c, [Flush]);
    }
  }

  lemma ShutdownKeeps(c: Control)
    requires Ordered(c) && !c.aborted && c.deadline.Some?
    ensures Ordered(c.(aborted := true, log := c.log + [FinalShutdown, Flush]))
  {
    var log := c.log + [FinalShutdown, Flush];
    CountConcat(c.log, [FinalShutdown, Flush], Notice);
    CountConcat(c.log, [FinalShutdown, Flush], FinalShutdown);
    assert Count([FinalShutdown, Flush], FinalShutdown) == 1 && Count([FinalShutdown, Flush], Notice) == 0;
    CountWitness(c.log, Notice);
    var first :| 0 <= first < |c.log| && c.log[first] == Notice;
    forall j | 0 <= j < |log| && log[j] == FinalShutdown ensures exists i :: 0 <= i < j && log[i] == Notice {
      if j < |c.log| {
        var i :| 0 <= i < j && c.log[i] == Notice;
        assert log[i] == Notice;
      } else {
        assert log[first] == Notice;
      }
    }
  }

  lemma WorkKeeps(c: Control, obs: Input)
    requires Ordered(c) && !c.aborted
    ensures Ordered(Work(c, obs))
  {
    if !obs.closed && obs.scratchOk {
      AppendPlain(c, Times(Accept, obs.accepted) + [Drain, Flush]);
      var drained := c.(log := c.log + (Times(Accept, obs.accepted) + [Drain, Flush]));
      assert drained.log == c.log + Times(Accept, obs.accepted) + [Drain, Flush];
      AppendPlain(drained, Times(Dispatch, obs.dispatched) + [Flush]);
      assert drained.log + (Times(Dispatch, obs.dispatched) + [Flush]) ==
             drained.log + Times(Dispatch, obs.dispatched) + [Flush];
    }
  }

  lemma PassKeeps(c: Control, obs: Input)
    requires Ordered(c)
    ensures Ordered(Pass(c, obs))
  {
    hide Ordered, Work;
    if c.aborted {
    } else if obs.running {
      WorkKeeps(c, obs);
    } else {
      var noticed := Notify(c, obs.setAt);
      NotifyKeeps(c, obs.setAt);
      if Expired(noticed, obs) {
        ShutdownKeeps(noticed);
      } else {
        WorkKeeps(noticed, obs);
      }
    }
  }

  lemma {:induction false} PassesKeep(c: Control, ins: seq<Input>)
    requires Ordered(c)
    ensures Ordered(Passes(c, ins))
    decreases |ins|
  {
    if ins != [] {
      PassKeeps(c, ins[0]);
      PassesKeep(Pass(c, ins[0]), ins[1..]);
    }
  }

  /**
   Over every run of a session the GOAWAY notice is sent at most once, the final shutdown at most
   once, and never before the notice.
   */
  lemma NoticeOnceBeforeShutdown(ins: seq<Input>)
    ensures var log := Passes(FRESH, ins).log;
            && Count(log, Notice) <= 1 && Count(log, FinalShutdown) <= 1
            && (forall j | 0 <= j < |log| && log[j] == FinalShutdown :: exists i :: 0 <= i < j && log[i] == Notice)
  {
    PassesKeep(FRESH, ins);
  }

  /** Once aborted, no later pass accepts, drains, dispatches or sends anything. */
  lemma {:induction false} AbortedIsAbsorbing(c: Control, ins: seq<Input>)
    requires c.aborted
    ensures Passes(c, ins) == c
    decreases |ins|
  {
    if ins != [] {
      AbortedIsAbsorbing(c, ins[1..]);
    }
  }

  /** The deadline, once set, never moves, and is the grace period after the first shutdown pass. */
  lemma {:induction false} DeadlineIsFixed(c: Control, ins: seq<Input>)
    requires c.deadline.Some?
    ensures Passes(c, ins).deadline == c.deadline
    decreases |ins|
  {
    if ins != [] {
      DeadlineIsFixed(Pass(c, ins[0]), ins[1..]);
    }
  }

  /**
   Say the first shutdown pass of a live session read the clock as `first.setAt`. Whatever passes
   follow, the session is aborted once one of them reads the grace deadline or later.
   */
  lemma {:induction false} AbortsAtDeadline(c: Control, first: Input, later: seq<Input>, k: nat)
    requires !c.aborted && c.deadline.None? && !first.running
    requires k < |later| && !later[k].running && later[k].checkedAt >= first.setAt + GOAWAY_GRACE
    ensures Passes(Pass(c, first), later[..k + 1]).aborted
  {
    var c1 := Pass(c, first);
    DeadlineIsFixed(c1, later[..k]);
    PassesSnoc(c1, later[..k], later[k]);
    assert later[..k + 1] == later[..k] + [later[k]];
  }

  lemma {:induction false} PassesSnoc(c: Control, ins: seq<Input>, last: Input)
    ensures Passes(c, ins + [last]) == Pass(Passes(c, ins), last)
    decreases |ins|
  {
    if ins == [] {
      assert ins + [last] == [last];
    } else {
      assert (ins + [last])[1..] == ins[1..] + [last];
      PassesSnoc(Pass(c, ins[0]), ins[1..], last);
    }
  }

  /** A shutdown pass on a live session ends it for good exactly when it is drained or past its deadline. */
  lemma ShutdownExactly(c: Control, obs: Input)
    requires Ordered(c) && !c.aborted && !obs.running
    ensures Count(Pass(c, obs).log, FinalShutdown) == 1 <==>
            obs.drained || obs.checkedAt >= (if c.deadline.Some? then c.deadline.value else obs.setAt + 3_000_000)
  {
    var noticed := Notify(c, obs.setAt);
    NotifyKeeps(c, obs.setAt);
    if Expired(noticed, obs) {
      CountConcat(noticed.log, [FinalShutdown, Flush], FinalShutdown);
      assert Count([FinalShutdown, Flush], FinalShutdown) == 1;
    } else {
      WorkAddsNoShutdown(noticed, obs);
    }
  }

  lemma WorkAddsNoShutdown(c: Control, obs: Input)
    ensures Count(Work(c, obs).log, FinalShutdown) == Count(c.log, FinalShutdown)
  {
    if !obs.closed && obs.scratchOk {
      var a, b := Times(Accept, obs.accepted) + [Drain, Flush], Times(Dispatch, obs.dispatched) + [Flush];
      CountConcat(c.log, a, FinalShutdown);
      CountConcat(c.log + a, b, FinalShutdown);
      CountAbsent(a, FinalShutdown);
      CountAbsent(b, FinalShutdown);
      assert c.log + a == c.log + Times(Accept, obs.accepted) + [Drain, Flush];
      assert c.log + a + b ==
             c.log + Times(Accept, obs.accepted) + [Drain, Flush] + Times(Dispatch, obs.dispatched) + [Flush];
    }
  }

  /**
   A whole pass over a session that is not aborted. While the server stops it sends the notice once and
   lets three seconds run; drained or out of time it sends the final shutdown and aborts. Otherwise a
   closed connection is aborted, and an open one, if there is memory, is accepted from, drained and
   flushed, and then either aborted because nghttp3 died or dispatched from and flushed again.
   */
  lemma PassIs(c: Control, obs: Input)
    requires !c.aborted
    ensures var r := Pass(c, obs);
            var until := if c.deadline.Some? then c.deadline.value else obs.setAt + 3_000_000;
            var over := !obs.running && (obs.drained || obs.checkedAt >= until);
            && r.deadline == (if obs.running then c.deadline else Some(until))
            && (r.aborted <==> over || obs.closed || (obs.scratchOk && obs.deadAfterDrain))
            && r.log == c.log + (if obs.running then [] else if c.deadline.None? then [Notice, Flush] else [Flush])
                        + (if over then [FinalShutdown, Flush]
                           else if obs.closed || !obs.scratchOk then []
                           else Times(Accept, obs.accepted) + [Drain, Flush]
                                + if obs.deadAfterDrain then [] else Times(Dispatch, obs.dispatched) + [Flush])
  {
    var base := c.log + if obs.running then [] else if c.deadline.None? then [Notice, Flush] else [Flush];
    var a, b := Times(Accept, obs.accepted), Times(Dispatch, obs.dispatched);
    hide Times;
    assert base + (a + [Drain, Flush] + (b + [Flush])) == base + a + [Drain, Flush] + b + [Flush];
    assert base + (a + [Drain, Flush] + []) == base + a + [Drain, Flush];
  }
}
