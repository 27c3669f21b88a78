/** The renewable lease: when a heartbeat is due, how long its receipt may be relied on.

    Times are seconds. The monotonic clock never goes back; the wall clock may jump by any
    amount in either direction whenever time passes. */
module Leases {
  import opened Records

  const LEASE_TTL: real := 30.0
  const NETWORK_SECONDS: real := 5.0

  function Min(a: real, b: real): real { if a <= b then a else b }
  function Max(a: real, b: real): real { if a >= b then a else b }

  /** A heartbeat's receipt, with the server's expiry in milliseconds of its own clock. */
  datatype Beat = Beat(receipt: Receipt, expiresMs: int)

  predicate Checked(beat: Beat, ticket: Ticket) {
    beat.receipt.run == ticket.run && beat.receipt.lease == ticket.nonce && 0 <= beat.expiresMs < 0x8000_0000_0000_0000
  }

  predicate Live(beat: Beat, wall: real) {
    && beat.receipt.state == ServerClaimed && !beat.receipt.cancelRequested && !beat.receipt.stopAck
    && beat.expiresMs as real > wall * 1000.0 + 1000.0
  }

  // ---- one tick, as a function of what it reads ------------------------------------------------

  datatype LeaseState = LeaseState(next: real, validUntil: real)

  const FRESH_LEASE := LeaseState(0.0, 0.0)

  /** What one status call reads: both clocks around the call, the reply (None: the call raised),
      and the wall clock once more when the receipt is judged. */
  datatype Reading = Reading(started: real, now: real, wall: real, judged: real, beat: Option<Beat>)

  datatype Verdict = Passed | Stale | Failed | Dead

  datatype Ticked = Ticked(lease: LeaseState, verdict: Verdict, end: real)

  predicate StatusOk(reading: Reading, ticket: Ticket) {
    reading.beat.Some? && Checked(reading.beat.value, ticket) && reading.now - reading.started < NETWORK_SECONDS
  }

  function Refreshed(interval: real, reading: Reading): LeaseState
    requires reading.beat.Some?
  {
    var remaining := reading.beat.value.expiresMs as real / 1000.0 - reading.wall - 1.0;
    var validUntil := Min(reading.started + LEASE_TTL - 1.0, reading.now + Max(0.0, remaining));
    LeaseState(Min(reading.now + interval, validUntil - 0.5), validUntil)
  }

  predicate IsStale(l: LeaseState, at: real) {
    l.next != 0.0 && at >= l.validUntil
  }

  predicate Due(l: LeaseState, at: real, force: bool) {
    force || at >= l.next
  }

  function TickOf(l: LeaseState, interval: real, ticket: Ticket, at: real, force: bool, reading: Reading): Ticked {
    if IsStale(l, at) then Ticked(l, Stale, at)
    else if !Due(l, at, force) then Ticked(l, Passed, at)
    else if !StatusOk(reading, ticket) then Ticked(l, Failed, reading.now)
    else Ticked(Refreshed(interval, reading),
                if Live(reading.beat.value, reading.judged) then Passed else Dead, reading.now)
  }

  /** A receipt that allows work, field by field: this lease, claimed, nobody asked to cancel it or
      acknowledged its stop, and more than a second from its expiry by the wall clock it was judged at. */
  predicate Granted(beat: Beat, ticket: Ticket, judged: real) {
    && beat.receipt.run == ticket.run && beat.receipt.lease == ticket.nonce
    && beat.receipt.state.ServerClaimed?
    && beat.receipt.cancelRequested == false && beat.receipt.stopAck == false
    && judged + 1.0 < beat.expiresMs as real / 1000.0 && 0 <= beat.expiresMs < 0x8000_0000_0000_0000
  }

  // ---- the object ------------------------------------------------------------------------------

  /** The clocks and the server: time passes only in the waits below. */
  class Surroundings {
    var mono: real
    var wall: real

    constructor (mono: real, wall: real)
      ensures this.mono == mono && this.wall == wall
    {
      this.mono := mono;
      this.wall := wall;
    }

    /** A wait that lasts at most `most` seconds; the wall clock may be set meanwhile. */
    method Wait(most: real)
      requires most >= 0.0
      modifies this
      ensures old(mono) <= mono <= old(mono) + most
    {
      var d: real :| 0.0 <= d <= most;
      mono := mono + d;
      wall := *;
    }

    /** A wait of exactly `d` seconds. */
    method Elapse(d: real)
      requires d >= 0.0
      modifies this
      ensures mono == old(mono) + d
    {
      mono := mono + d;
      wall := *;
    }

    /** A heartbeat call: it takes any time and returns any receipt, or raises. */
    method Heartbeat() returns (reply: Option<Beat>)
      modifies this
      ensures old(mono) <= mono
    {
      var d: real :| 0.0 <= d;
      mono := mono + d;
      wall := *;
      reply := *;
    }
  }

  class Lease {
    const env: Surroundings
    const ticket: Ticket
    const interval: real
    var next: real
    var validUntil: real
    /** The send time of the last receipt taken over, and whether that receipt was live. */
    ghost var sent: real
    ghost var live: bool
    /** The last receipt taken over, and the wall clock at which it was judged. */
    ghost var beat: Beat
    ghost var judged: real
    /** How many ticks did not pass. */
    ghost var refusals: nat

    ghost predicate Valid()
      reads this
    {
      && 0.0 < interval <= 5.0
      && ((next == 0.0 && validUntil == 0.0 && !live) || validUntil <= sent + LEASE_TTL - 1.0)
      && (live ==> Granted(beat, ticket, judged))
    }

    function State(): LeaseState
      reads this
    {
      LeaseState(next, validUntil)
    }

    constructor (env: Surroundings, ticket: Ticket, interval: real)
      requires 0.0 < interval <= 5.0
      ensures Valid() && State() == FRESH_LEASE && !live
      ensures this.env == env && this.ticket == ticket && this.interval == interval
    {
      this.env, this.ticket, this.interval := env, ticket, interval;
      next, validUntil, sent, live, refusals := 0.0, 0.0, 0.0, false, 0;
    }

    /** `status`: one heartbeat, taken over only when its receipt names this lease and came back
        in time. */
    method Status() returns (beat: Option<Beat>, ghost reading: Reading)
      requires Valid()
      modifies this`next, this`validUntil, this`sent, this`live, this`beat, env
      ensures Valid()
      ensures reading.started == old(env.mono) <= reading.now == env.mono
      ensures reading.wall == env.wall == reading.judged
      ensures beat.Some? <==> StatusOk(reading, ticket)
      ensures beat.Some? ==> beat == reading.beat && State() == Refreshed(interval, reading)
      ensures beat.Some? ==> sent == reading.started && !live && this.beat == beat.value
      ensures beat.Some? ==> beat.value.receipt.run == ticket.run && beat.value.receipt.lease == ticket.nonce
      ensures beat.Some? ==> 0 <= beat.value.expiresMs < 0x8000_0000_0000_0000
      ensures beat.Some? ==> reading.now < reading.started + 5.0
      ensures beat.None? ==> State() == old(State()) && sent == old(sent) && live == old(live) && this.beat == old(this.beat)
    {
      var started := env.mono;
      var reply := env.Heartbeat();
      var now := env.mono;
      reading := Reading(started, now, env.wall, env.wall, reply);
      if reply.None? || !Checked(reply.value, ticket) || now - started >= NETWORK_SECONDS {
        return None, reading;
      }
      var remaining := reply.value.expiresMs as real / 1000.0 - env.wall - 1.0;
      validUntil := Min(started + LEASE_TTL - 1.0, now + Max(0.0, remaining));
      next := Min(now + interval, validUntil - 0.5);
      sent, live, this.beat := started, false, reply.value;
      return reply, reading;
    }

    /** The due half of `tick`: a heartbeat, and a judgement of its receipt by the wall clock read
        after it. */
    method Renew() returns (verdict: Verdict, ghost reading: Reading)
      requires Valid()
      modifies this`next, this`validUntil, this`sent, this`live, this`beat, this`judged, env
      ensures Valid() && verdict != Stale
      ensures reading.started == old(env.mono) <= reading.now == env.mono
      ensures verdict == Failed <==> !StatusOk(reading, ticket)
      ensures verdict == Failed ==> State() == old(State()) && sent == old(sent) && live == old(live)
      ensures verdict != Failed ==>
                && State() == Refreshed(interval, reading) && sent == old(env.mono)
                && verdict == if Live(reading.beat.value, reading.judged) then Passed else Dead
      ensures verdict == Passed ==> env.mono < sent + NETWORK_SECONDS
      ensures verdict == Passed ==> live && reading.beat == Some(beat) && Granted(beat, ticket, reading.judged)
      ensures verdict == Dead ==> !live
    {
      var beat;
      beat, reading := Status();
      if beat.None? { return Failed, reading; }
      env.wall := *;
      reading := reading.(judged := env.wall);
      judged := env.wall;
      if !Live(beat.value, env.wall) { return Dead, reading; }
      live := true;
      return Passed, reading;
    }

    /** `tick`. Whatever the wall clock does, when it passes, the last receipt is live and was
        requested strictly less than 29 seconds ago. */
    method Tick(force: bool) returns (verdict: Verdict, ghost reading: Reading)
      requires Valid() && env.mono >= 0.0
      modifies this`next, this`validUntil, this`sent, this`live, this`beat, this`judged, this`refusals, env
      ensures Valid() && old(env.mono) <= env.mono
      ensures Ticked(State(), verdict, env.mono) == TickOf(old(State()), interval, ticket, old(env.mono), force, reading)
      ensures Due(old(State()), old(env.mono), force) && verdict != Stale ==> reading.started == old(env.mono)
      ensures !Due(old(State()), old(env.mono), force) || verdict == Stale ==> env.mono == old(env.mono) && env.wall == old(env.wall)
      ensures verdict == Passed ==> env.mono < sent + LEASE_TTL - 1.0
      ensures verdict == Passed && (old(live) || force) ==> live
      ensures verdict == Passed && force ==>
                reading.beat == Some(beat) && Granted(beat, ticket, reading.judged) && sent == old(env.mono)
      ensures verdict == Dead ==> !live
      ensures refusals == old(refusals) + (if verdict == Passed then 0 else 1)
    {
      verdict, reading := Passed, Reading(0.0, 0.0, 0.0, 0.0, None);
      if next != 0.0 && env.mono >= validUntil {
        refusals := refusals + 1;
        return Stale, reading;
      }
      if force || env.mono >= next {
        verdict, reading := Renew();
        if verdict != Passed { refusals := refusals + 1; }
      }
    }
  }

  // ---- a steady server: when does a tick never fail? ---------------------------------------------

  /** One tick of a run, with the moment at which the server handled its heartbeat, if any. */
  datatype Event = Event(at: real, force: bool, reading: Reading, handled: real)

  /** A reply under 5 seconds from a server whose clock is at most `behind` seconds behind a wall
      clock that stays `offset` ahead of the monotonic one. */
  predicate Steady(e: Event, ticket: Ticket, behind: real, offset: real) {
    && e.reading.started == e.at <= e.handled <= e.reading.now < e.at + NETWORK_SECONDS
    && e.reading.wall == e.reading.now + offset == e.reading.judged
    && e.reading.beat.Some? && Checked(e.reading.beat.value, ticket)
    && e.reading.beat.value.receipt.state == ServerClaimed
    && !e.reading.beat.value.receipt.cancelRequested && !e.reading.beat.value.receipt.stopAck
    && e.reading.beat.value.expiresMs as real / 1000.0 >= e.handled + offset - behind + LEASE_TTL
  }

  function Play(events: seq<Event>, interval: real, ticket: Ticket): Ticked {
    if |events| == 0 then Ticked(FRESH_LEASE, Passed, 0.0)
    else
      var e := events[|events| - 1];
      TickOf(Play(events[..|events| - 1], interval, ticket).lease, interval, ticket, e.at, e.force, e.reading)
  }

  /** Ticks follow each other at most one second apart; the first may come at any time. */
  ghost predicate SteadyRun(events: seq<Event>, interval: real, ticket: Ticket, behind: real, offset: real)
    decreases |events|
  {
    |events| > 0 ==>
      var e := events[|events| - 1];
      var before := events[..|events| - 1];
      var end := Play(before, interval, ticket).end;
      && SteadyRun(before, interval, ticket, behind, offset)
      && Play(before, interval, ticket).verdict == Passed
      && Steady(e, ticket, behind, offset)
      && end <= e.at
      && (|before| > 0 ==> e.at <= end + 1.0)
  }

  ghost predicate NeverFails(interval: real, ticket: Ticket, behind: real) {
    forall events: seq<Event>, offset: real | SteadyRun(events, interval, ticket, behind, offset) ::
      Play(events, interval, ticket).verdict == Passed
  }

  /** After a tick, more than one second of validity is left, both now and when the next
      heartbeat falls due. */
  predicate Ample(r: Ticked) {
    r.verdict == Passed && r.lease.validUntil > r.lease.next + 1.0 && r.lease.validUntil > r.end + 1.0
  }

  lemma {:induction false} SteadyStaysAmple(events: seq<Event>, interval: real, ticket: Ticket, behind: real, offset: real)
    requires 0.0 < interval <= 5.0 && behind <= 23.0 - interval
    requires SteadyRun(events, interval, ticket, behind, offset)
    ensures |events| > 0 ==> Ample(Play(events, interval, ticket))
  {
    if |events| > 0 {
      var e := events[|events| - 1];
      var before := events[..|events| - 1];
      SteadyStaysAmple(before, interval, ticket, behind, offset);
      var remaining := e.reading.beat.value.expiresMs as real / 1000.0 - e.reading.wall - 1.0;
      assert remaining >= 29.0 - behind - (e.reading.now - e.handled);
      assert remaining > interval + 1.0;
    }
  }

  // ---- 23 - interval is exact ----

  function LateBeat(ticket: Ticket): Beat {
    Beat(Receipt(ticket.run, ticket.nonce, ServerClaimed, false, false), 30000)
  }

  /** A tick whose heartbeat, if it sends one, is handled at once and answered after `delay`. */
  function Late(at: real, delay: real, ticket: Ticket, offset: real): Event {
    Event(at, false, Reading(at, at + delay, at + delay + offset, at + delay + offset, Some(LateBeat(ticket))), at)
  }

  /** A tick that sends no heartbeat: the server's part of the event is idle. */
  function Idle(at: real, ticket: Ticket, offset: real): Event {
    Event(at, false, Reading(at, at, at + offset, at + offset, Some(FarBeat(ticket))), at)
  }

  function FarBeat(ticket: Ticket): Beat {
    Beat(Receipt(ticket.run, ticket.nonce, ServerClaimed, false, false), 200000)
  }

  /** Ticks one second apart lead from any moment before the next heartbeat to the expiry, when
      the heartbeat falls due less than one second before it. */
  lemma {:induction false} RunsIntoExpiry(events: seq<Event>, interval: real, ticket: Ticket, behind: real, offset: real)
    returns (longer: seq<Event>)
    requires |events| > 0 && SteadyRun(events, interval, ticket, behind, offset)
    requires var r := Play(events, interval, ticket);
             && r.verdict == Passed && r.lease.next != 0.0 && r.end <= r.lease.validUntil <= 60.0
             && r.lease.validUntil - 1.0 < r.lease.next
    requires 0.0 <= offset <= 30.0 && behind > 0.0
    ensures SteadyRun(longer, interval, ticket, behind, offset)
    ensures Play(longer, interval, ticket).verdict == Stale
    decreases var r := Play(events, interval, ticket); -(r.end - r.lease.validUntil).Floor
  {
    var r := Play(events, interval, ticket);
    var at := if r.lease.validUntil <= r.end + 1.0 then r.lease.validUntil else Min(r.end + 1.0, r.lease.validUntil - 1.0);
    longer := events + [Idle(at, ticket, offset)];
    assert longer[..|longer| - 1] == events;
    if at < r.lease.validUntil {
      longer := RunsIntoExpiry(longer, interval, ticket, behind, offset);
    }
  }

  lemma FailsBeyond(interval: real, ticket: Ticket, behind: real) returns (events: seq<Event>)
    requires 0.0 < interval <= 5.0 && behind > 23.0 - interval
    ensures SteadyRun(events, interval, ticket, behind, behind - 1.0)
    ensures Play(events, interval, ticket).verdict != Passed
  {
    var delay := Max(0.0, 5.0 - (behind - (23.0 - interval)) / 2.0);
    var e := Late(1.0, delay, ticket, behind - 1.0);
    events := [e];
    assert events[..|events| - 1] == [];
    assert Play([], interval, ticket) == Ticked(FRESH_LEASE, Passed, 0.0);
    assert SteadyRun([], interval, ticket, behind, behind - 1.0);
    assert Steady(e, ticket, behind, behind - 1.0);
    var r := Play(events, interval, ticket);
    assert r == TickOf(FRESH_LEASE, interval, ticket, 1.0, false, e.reading);
    if r.verdict == Passed {
      assert r.lease.validUntil == 30.0 - behind;
      events := RunsIntoExpiry(events, interval, ticket, behind, behind - 1.0);
    }
  }

  /** Ticks at most one second apart never fail, whatever the run, exactly when the server's clock
      is at most 23 seconds less the heartbeat interval behind: 18 seconds for the default. */
  lemma NeverFailsIff(interval: real, ticket: Ticket, behind: real)
    requires 0.0 < interval <= 5.0
    ensures NeverFails(interval, ticket, behind) <==> behind <= 23.0 - interval
  {
    if behind <= 23.0 - interval {
      forall events: seq<Event>, offset: real | SteadyRun(events, interval, ticket, behind, offset)
        ensures Play(events, interval, ticket).verdict == Passed
      {
        SteadyStaysAmple(events, interval, ticket, behind, offset);
      }
    } else {
      var events := FailsBeyond(interval, ticket, behind);
      assert Play(events, interval, ticket).verdict != Passed;
    }
  }
}
