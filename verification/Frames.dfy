/** Bounded newline-terminated frames over nonblocking pipes, with a deadline and a lease tick
    before every wait. */
module Framing {
  import opened Records
  import opened Leases

  const NEWLINE: Byte := 10
  const MAX_FRAME: nat := 4194304 + 262144
  const PIECE: nat := 16384

  // ---- streams of frames -----------------------------------------------------------------------

  predicate NoNewline(s: seq<Byte>) {
    forall i | 0 <= i < |s| :: s[i] != NEWLINE
  }

  predicate IsFrame(f: seq<Byte>) {
    |f| > 0 && f[|f| - 1] == NEWLINE && NoNewline(f[..|f| - 1])
  }

  predicate AllFrames(fs: seq<seq<Byte>>) {
    forall i | 0 <= i < |fs| :: IsFrame(fs[i])
  }

  function Flatten(fs: seq<seq<Byte>>): seq<Byte> {
    if |fs| == 0 then [] else fs[0] + Flatten(fs[1..])
  }

  lemma {:induction false} FlattenAppend(fs: seq<seq<Byte>>, f: seq<Byte>)
    ensures Flatten(fs + [f]) == Flatten(fs) + f
  {
    if |fs| == 0 {
      assert Flatten([f]) == f + Flatten([]);
    } else {
      FlattenAppend(fs[1..], f);
      assert (fs + [f])[1..] == fs[1..] + [f];
    }
  }

  /** The position of the first newline, or the length. */
  function Find(s: seq<Byte>): (i: nat)
    ensures i <= |s| && NoNewline(s[..i]) && (i < |s| ==> s[i] == NEWLINE)
  {
    if |s| == 0 then 0
    else if s[0] == NEWLINE then 0
    else
      var i := Find(s[1..]);
      assert s[..i + 1] == [s[0]] + s[1..][..i];
      i + 1
  }

  lemma {:induction false} FrameEndsAtFirstNewline(f: seq<Byte>, stream: seq<Byte>)
    requires IsFrame(f) && f <= stream
    ensures |f| == Find(stream) + 1
  {
    if |f| > 1 {
      assert f[0] == f[..|f| - 1][0];
      assert f[1..][..|f| - 2] == f[..|f| - 1][1..];
      FrameEndsAtFirstNewline(f[1..], stream[1..]);
    }
  }

  lemma {:induction false} FirstNewlineIsBeyond(s: seq<Byte>, stream: seq<Byte>)
    requires NoNewline(s) && s <= stream
    ensures Find(stream) >= |s|
  {
    if |s| > 0 {
      FirstNewlineIsBeyond(s[1..], stream[1..]);
    }
  }

  /** Frames read from the front of a stream are the frames written to it, in order. */
  lemma {:induction false} FramesAgree(fs: seq<seq<Byte>>, gs: seq<seq<Byte>>, rest: seq<Byte>, stream: seq<Byte>)
    requires AllFrames(fs) && AllFrames(gs) && NoNewline(rest)
    requires Flatten(fs) <= stream <= Flatten(gs) + rest
    ensures |fs| <= |gs| && fs == gs[..|fs|]
  {
    if |fs| > 0 {
      var whole := Flatten(gs) + rest;
      assert |gs| == 0 ==> whole == rest;
      FirstNewlineIsBeyond(rest, rest);
      FrameEndsAtFirstNewline(fs[0], whole);
      if |gs| > 0 {
        FrameEndsAtFirstNewline(gs[0], whole);
        var n := |fs[0]|;
        assert whole[n..] == Flatten(gs[1..]) + rest;
        assert Flatten(fs)[n..] == Flatten(fs[1..]);
        FramesAgree(fs[1..], gs[1..], rest, stream[n..]);
        assert fs[0] == whole[..n] == gs[0];
        assert fs == [fs[0]] + fs[1..] && gs[..|fs|] == [gs[0]] + gs[1..][..|fs| - 1];
      }
    }
  }

  /** What is left after the frames read so far starts with the next frame written. */
  lemma {:induction false} Remainder(fs: seq<seq<Byte>>, gs: seq<seq<Byte>>, rest: seq<Byte>, pending: seq<Byte>)
    requires |fs| <= |gs| && fs == gs[..|fs|] && Flatten(fs) + pending <= Flatten(gs) + rest
    ensures pending <= Flatten(gs[|fs|..]) + rest
  {
    if |fs| > 0 {
      var n := |fs[0]|;
      assert (Flatten(fs) + pending)[n..] == Flatten(fs[1..]) + pending;
      assert (Flatten(gs) + rest)[n..] == Flatten(gs[1..]) + rest;
      Remainder(fs[1..], gs[1..], rest, pending);
      assert gs[1..][|fs| - 1..] == gs[|fs|..];
    } else {
      assert gs[0..] == gs;
      assert Flatten(fs) + pending == pending;
    }
  }

  /** A reader has taken `taken` bytes of a stream: the frames it returned, then what is pending. */
  ghost predicate Consistent(returned: seq<seq<Byte>>, pending: seq<Byte>, stream: seq<Byte>, taken: nat) {
    && AllFrames(returned) && |pending| <= MAX_FRAME
    && taken <= |stream| && stream[..taken] == Flatten(returned) + pending
  }

  lemma StaysConsistent(returned: seq<seq<Byte>>, pending: seq<Byte>, stream: seq<Byte>, taken: nat, longer: seq<Byte>)
    requires Consistent(returned, pending, stream, taken) && stream <= longer
    ensures Consistent(returned, pending, longer, taken)
  {
    assert longer[..taken] == stream[..taken];
  }

  lemma TakesBytes(returned: seq<seq<Byte>>, pending: seq<Byte>, stream: seq<Byte>, taken: nat, n: nat)
    requires Consistent(returned, pending, stream, taken) && taken + n <= |stream| && |pending| + n <= MAX_FRAME
    ensures Consistent(returned, pending + stream[taken..taken + n], stream, taken + n)
  {
    assert stream[..taken + n] == stream[..taken] + stream[taken..taken + n];
  }

  lemma FoundFrame(pending: seq<Byte>)
    requires Find(pending) < |pending|
    ensures IsFrame(pending[..Find(pending) + 1])
  {
    var n := Find(pending) + 1;
    assert pending[..n][..n - 1] == pending[..n - 1];
  }

  lemma TakesFrame(returned: seq<seq<Byte>>, pending: seq<Byte>, stream: seq<Byte>, taken: nat, n: nat)
    requires Consistent(returned, pending, stream, taken) && n <= |pending| && IsFrame(pending[..n])
    ensures Consistent(returned + [pending[..n]], pending[n..], stream, taken)
  {
    var frame, rest := pending[..n], pending[n..];
    FlattenAppend(returned, frame);
    assert pending == frame + rest;
    assert Flatten(returned) + (frame + rest) == (Flatten(returned) + frame) + rest;
  }

  // ---- pipes -------------------------------------------------------------------------------------

  /** A kernel pipe: all bytes ever written to it, in order. */
  class Pipe {
    var sent: seq<Byte>
    var closed: bool

    constructor ()
      ensures sent == [] && !closed
    {
      sent, closed := [], false;
    }

    /** The peer writes any bytes, and may then close its end. */
    method PeerWrites()
      modifies this
      ensures old(sent) <= sent && (old(closed) ==> closed && sent == old(sent))
    {
      if !closed {
        var more: seq<Byte> := *;
        sent := sent + more;
        closed := *;
      }
    }
  }

  datatype Outcome = Done | TooBig | TimedOut | NotLive | Ended

  /** What a receipt was when it was judged, and when it had been requested. */
  datatype Permit = Permit(sent: real, beat: Beat, judged: real)

  /** When a byte was written, and the receipt then relied on, if it was live. */
  datatype Stamp = Stamp(at: real, sent: real, permit: Option<Permit>)

  predicate Permitted(s: Stamp, ticket: Ticket) {
    && s.permit.Some? && s.permit.value.sent == s.sent && s.at < s.sent + 30.0
    && Granted(s.permit.value.beat, ticket, s.permit.value.judged)
  }

  datatype Wait = Ready | NotYet | Raised(why: Outcome)

  class Frames {
    const env: Surroundings
    const lease: Lease?
    const out: Pipe
    const inp: Pipe
    var pending: seq<Byte>
    var taken: nat
    ghost var returned: seq<seq<Byte>>
    ghost var stamps: seq<Stamp>

    ghost predicate Valid()
      reads this, env, inp, lease
    {
      && out != inp && env.mono >= 0.0
      && (lease != null ==> lease.env == env && lease.Valid())
      && Consistent(returned, pending, inp.sent, taken)
    }

    /** Every byte from `from` on was written strictly less than 30 seconds after the receipt it
        relies on was requested. */
    ghost predicate InTime(from: nat)
      reads this
    {
      from <= |stamps| && forall i | from <= i < |stamps| :: stamps[i].at < stamps[i].sent + LEASE_TTL
    }

    /** Every byte from `from` on was written on a receipt that allowed work, within 30 seconds of its
        request. */
    ghost predicate AllLive(from: nat)
      reads this
    {
      lease != null && from <= |stamps| && forall i | from <= i < |stamps| :: Permitted(stamps[i], lease.ticket)
    }

    constructor (env: Surroundings, lease: Lease?, out: Pipe, inp: Pipe)
      requires out != inp && env.mono >= 0.0 && (lease != null ==> lease.env == env && lease.Valid())
      ensures Valid() && this.env == env && this.lease == lease && this.out == out && this.inp == inp
      ensures pending == [] && returned == [] && stamps == []
    {
      this.env, this.lease, this.out, this.inp := env, lease, out, inp;
      pending, taken, returned, stamps := [], 0, [], [];
      new;
      assert inp.sent[..0] == [];
    }

    /** How many ticks of the lease did not pass. */
    ghost function Refusals(): nat
      reads this, lease
    {
      if lease == null then 0 else lease.refusals
    }

    method Tick() returns (ok: bool)
      requires Valid()
      modifies env, if lease == null then {} else {lease}
      ensures Valid() && env.mono >= old(env.mono)
      ensures ok && lease != null ==> env.mono < lease.sent + LEASE_TTL - 1.0 && (old(lease.live) ==> lease.live)
      ensures if ok then Refusals() == old(Refusals()) else Refusals() == old(Refusals()) + 1
      ensures lease == null ==> ok && env.mono == old(env.mono)
    {
      ok := true;
      if lease != null {
        var verdict, reading := lease.Tick(false);
        ok := verdict == Passed;
      }
    }

    /** `_ready`: a tick, the deadline, then a wait of at most one second. `waits` bounds how often
        the kernel still reports the descriptor ready; otherwise the wait runs its full length. */
    method WaitReady(deadline: real, waits: nat) returns (w: Wait, left: nat)
      requires Valid()
      modifies env, inp, if lease == null then {} else {lease}
      ensures Valid() && old(inp.sent) <= inp.sent && (old(inp.closed) ==> inp.closed && inp.sent == old(inp.sent))
      ensures env.mono >= old(env.mono)
      ensures w == Ready ==> left < waits
      ensures w == NotYet ==> left == waits && old(env.mono) < deadline && (env.mono >= old(env.mono) + 1.0 || env.mono >= deadline)
      ensures w.Raised? ==> w.why == TimedOut || w.why == NotLive
      ensures w == Raised(TimedOut) ==> env.mono >= deadline
      ensures Refusals() == old(Refusals()) + (if w == Raised(NotLive) then 1 else 0)
      ensures !w.Raised? && lease != null ==> env.mono < lease.sent + LEASE_TTL && (old(lease.live) ==> lease.live)
    {
      left := waits;
      var ok := Tick();
      if !ok { return Raised(NotLive), left; }
      var remaining := deadline - env.mono;
      if remaining <= 0.0 { return Raised(TimedOut), left; }
      ghost var stream := inp.sent;
      inp.PeerWrites();
      StaysConsistent(returned, pending, stream, taken, inp.sent);
      var ready: bool := *;
      if ready && waits > 0 {
        env.Wait(Min(remaining, 1.0));
        return Ready, left - 1;
      }
      env.Elapse(Min(remaining, 1.0));
      return NotYet, left;
    }

    /** `write`. However the kernel splits it, the peer gets a prefix, and all of it on success;
        under a lease every byte goes out on a receipt younger than its time to live. */
    method Write(encoded: seq<Byte>, deadline: real, waits: nat) returns (r: Outcome, offset: nat)
      requires Valid()
      modifies this`stamps, env, inp, out, if lease == null then {} else {lease}
      ensures Valid() && old(inp.sent) <= inp.sent
      ensures offset <= |encoded| && out.sent == old(out.sent) + encoded[..offset]
      ensures r == Done <==> offset == |encoded| && |encoded| <= MAX_FRAME
      ensures r == TooBig <==> |encoded| > MAX_FRAME
      ensures r == TooBig ==> offset == 0
      ensures |stamps| == old(|stamps|) + offset && old(stamps) <= stamps
      ensures lease != null ==> InTime(old(|stamps|))
      ensures lease != null && old(lease.live) ==> AllLive(old(|stamps|))
      // a failure is one of the deadline or of a tick
      ensures r in {Done, TooBig, TimedOut, NotLive}
      ensures r == TimedOut ==> env.mono >= deadline
      ensures Refusals() == old(Refusals()) + (if r == NotLive then 1 else 0)
    {
      offset := 0;
      if |encoded| > MAX_FRAME { return TooBig, 0; }
      var left := waits;
      while offset < |encoded|
        invariant Valid() && old(inp.sent) <= inp.sent
        invariant offset <= |encoded| && out.sent == old(out.sent) + encoded[..offset]
        invariant |stamps| == old(|stamps|) + offset && old(stamps) <= stamps
        invariant lease != null ==> InTime(old(|stamps|))
        invariant lease != null && old(lease.live) ==> AllLive(old(|stamps|)) && lease.live
        invariant Refusals() == old(Refusals())
        decreases left, -(env.mono - deadline).Floor
      {
        var w;
        w, left := WaitReady(deadline, left);
        match w
        case Raised(why) => return why, offset;
        case NotYet => {}
        case Ready =>
          var blocked: bool := *;
          if !blocked {
            var most: nat := if offset + PIECE <= |encoded| then PIECE else |encoded| - offset;
            var n: nat :| 1 <= n <= most;
            out.sent := out.sent + encoded[offset..offset + n];
            ghost var stamp := 
              if lease == null then Stamp(env.mono, env.mono, None)
              else Stamp(env.mono, lease.sent, if lease.live then Some(Permit(lease.sent, lease.beat, lease.judged)) else None);
            stamps := stamps + seq(n, _ => stamp);
            offset := offset + n;
          }
      }
      return Done, offset;
    }

    /** One `os.read` of at most what the bound leaves; it may find nothing after all. */
    method Receive() returns (ended: bool)
      requires Valid() && |pending| < MAX_FRAME
      modifies this`pending, this`taken
      ensures Valid() && old(pending) <= pending
      ensures ended ==> inp.closed && taken == |inp.sent| && pending == old(pending)
    {
      var blocked: bool := *;
      if blocked { return false; }
      if taken == |inp.sent| { return inp.closed; }
      var most: nat := if PIECE <= MAX_FRAME - |pending| then PIECE else MAX_FRAME - |pending|;
      var n: nat :| 1 <= n <= most && taken + n <= |inp.sent|;
      TakesBytes(returned, pending, inp.sent, taken, n);
      pending := pending + inp.sent[taken..taken + n];
      taken := taken + n;
      return false;
    }

    /** `read`. It returns the next frame of the incoming stream and keeps the rest; pending bytes
        never exceed the bound. */
    method Read(deadline: real, waits: nat) returns (r: Outcome, frame: seq<Byte>)
      requires Valid()
      modifies this`pending, this`taken, this`returned, env, inp, if lease == null then {} else {lease}
      ensures Valid() && old(inp.sent) <= inp.sent
      ensures r == Done ==> returned == old(returned) + [frame]
      ensures r != Done ==> returned == old(returned)
      ensures r == TooBig ==> |pending| == MAX_FRAME && NoNewline(pending)
      ensures r == Ended ==> inp.closed && taken == |inp.sent| && NoNewline(pending)
      ensures r == TimedOut ==> env.mono >= deadline
      ensures Refusals() == old(Refusals()) + (if r == NotLive then 1 else 0)
      // a frame that is already here is returned without a wait
      ensures lease == null && old(env.mono) < deadline && Find(old(pending)) < |old(pending)| ==> r == Done
    {
      var left := waits;
      ghost var first := true;
      while true
        invariant Valid() && old(inp.sent) <= inp.sent && returned == old(returned) && Refusals() == old(Refusals())
        invariant if first then pending == old(pending) && env.mono == old(env.mono) else Find(old(pending)) == |old(pending)|
        decreases left, -(env.mono - deadline).Floor
      {
        var ok := Tick();
        if !ok { return NotLive, []; }
        if env.mono >= deadline { return TimedOut, []; }
        var newline := Find(pending);
        if newline < |pending| {
          FoundFrame(pending);
          TakesFrame(returned, pending, inp.sent, taken, newline + 1);
          frame := pending[..newline + 1];
          pending := pending[newline + 1..];
          returned := returned + [frame];
          return Done, frame;
        }
        assert pending[..newline] == pending;
        if |pending| >= MAX_FRAME { return TooBig, []; }
        first := false;
        var w;
        w, left := WaitReady(deadline, left);
        match w
        case Raised(why) => return why, [];
        case NotYet => {}
        case Ready =>
          var ended := Receive();
          if ended { return Ended, []; }
      }
    }
  }

  // ---- round trip ----------------------------------------------------------------------------------

  /** In any state a reader can be in: when the stream holds the frames `written`, then a part of one
      more, what was returned so far is the first of them; and once the reader has taken everything
      and holds no newline, it has returned all of them and holds exactly the part. */
  lemma RoundTrip(reader: Frames, written: seq<seq<Byte>>, part: seq<Byte>)
    requires reader.Valid() && AllFrames(written) && NoNewline(part)
    requires reader.inp.sent == Flatten(written) + part
    ensures |reader.returned| <= |written| && reader.returned == written[..|reader.returned|]
    ensures reader.taken == |reader.inp.sent| && NoNewline(reader.pending) ==>
              reader.returned == written && reader.pending == part
  {
    var stream := reader.inp.sent[..reader.taken];
    FramesAgree(reader.returned, written, part, stream);
    if reader.taken == |reader.inp.sent| && NoNewline(reader.pending) {
      FramesAgree(written, reader.returned, reader.pending, stream);
      assert written == reader.returned[..|written|] == reader.returned;
      var w := Flatten(written);
      assert (w + part)[|w|..] == part && (w + reader.pending)[|w|..] == reader.pending;
    }
  }

  /** The bound refuses only a frame that is really too long: when it fires, the next frame of the
      stream, if the stream ever completes it, is longer than the bound. */
  lemma TooBigIsTrue(reader: Frames, written: seq<seq<Byte>>)
    requires reader.Valid() && AllFrames(written) && reader.inp.sent <= Flatten(written)
    requires |reader.pending| == MAX_FRAME && NoNewline(reader.pending)
    ensures |reader.returned| < |written| && |written[|reader.returned|]| > MAX_FRAME
  {
    var k := |reader.returned|;
    var stream := reader.inp.sent[..reader.taken];
    assert Flatten(written) + [] == Flatten(written);
    FramesAgree(reader.returned, written, [], stream);
    Remainder(reader.returned, written, [], reader.pending);
    var tail := Flatten(written[k..]) + [];
    assert reader.pending <= tail;
    if k < |written| {
      var next := written[k];
      assert next <= tail;
      FrameEndsAtFirstNewline(next, tail);
      FirstNewlineIsBeyond(reader.pending, tail);
    }
  }

  /** The controller's GO: a forced tick, then the three bytes. Each byte that leaves goes out within 30
      seconds of the request of a receipt that was claimed, not cancelled, not stopped and not expired
      when it was judged, however the wall clock moves. */
  method SendGo(lease: Lease, frames: Frames, waits: nat) returns (sent: nat)
    requires frames.Valid() && frames.lease == lease
    modifies frames`stamps, frames.env, frames.inp, frames.out, lease
    ensures frames.Valid()
    ensures |frames.stamps| == old(|frames.stamps|) + sent
    ensures frames.AllLive(old(|frames.stamps|))
    ensures sent <= |GO_LINE| && frames.out.sent == old(frames.out.sent) + GO_LINE[..sent]
  {
    var verdict, reading := lease.Tick(true);
    if verdict != Passed { return 0; }
    var r;
    r, sent := frames.Write(GO_LINE, frames.env.mono + 5.0, waits);
  }
}
