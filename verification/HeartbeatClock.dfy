/** The heartbeat task (src/heartbeat.rs): when it sends, and when it gives the
    peer up.  Times are in nanoseconds; sleeps are exact. */
module HeartbeatClock {
  import opened Bytes

  const MILLISECOND := 1_000_000

  /** `timeout` is half the negotiated interval; none once cancelled. */
  datatype Clock = Clock(lastRead: nat, lastWrite: nat, timeout: Option<nat>)

  datatype Verdict = Stop | PeerDead | Sleep(duration: nat, sent: bool)

  datatype Polled = Polled(clock: Clock, verdict: Verdict)

  function Since(now: nat, then_: nat): (d: nat) {
    if now < then_ then 0 else now - then_
  }

  /** `poll_timeout` at time `now`. */
  function Poll(c: Clock, now: nat): (r: Polled) {
    match c.timeout
    case None => Polled(c, Stop)
    case Some(t) =>
      if Since(now, c.lastRead) > 4 * t then Polled(Clock(c.lastRead, c.lastWrite, None), PeerDead)
      else if Since(now, c.lastWrite) <= t then
        Polled(c, Sleep(Max(t - Since(now, c.lastWrite), MILLISECOND), false))
      else Polled(Clock(c.lastRead, now, c.timeout), Sleep(t, true))
  }

  /** Half the negotiated interval, which is in seconds. */
  function HalfInterval(seconds: nat): (t: nat)
    ensures 2 * t == seconds * 1000 * MILLISECOND
    ensures seconds > 0 ==> t >= MILLISECOND
  {
    seconds * 500 * MILLISECOND
  }

  // ---- runs ----

  /** What the connection has seen of us: a write, or a heartbeat asked for. */
  datatype Event = Wrote(at: nat) | Requested(at: nat)

  /** The loop sleeps until `wake`; `dead` is set when the peer is given up.
      What really happened is kept apart from the clock: `heard` is when bytes
      last arrived, `log` lists the writes and the heartbeats requested. */
  datatype Sys = Sys(clock: Clock, now: nat, wake: Option<nat>, dead: bool, heard: nat, log: seq<Event>)

  datatype Move =
    | Pass(to: nat)    // time passes, not beyond the wake-up
    | Read             // bytes arrived
    | Write            // bytes were written
    | Wake             // the sleep is over
    | Cancel           // the connection is over
    | Reset            // it is started over

  predicate Can(s: Sys, m: Move) {
    match m
    case Pass(to) => s.now <= to && (s.wake.Some? ==> to <= s.wake.value)
    case Wake => s.wake == Some(s.now)
    case _ => true
  }

  function Apply(s: Sys, m: Move): (r: Sys) {
    match m
    case Pass(to) => Sys(s.clock, to, s.wake, s.dead, s.heard, s.log)
    case Read => Sys(Clock(s.now, s.clock.lastWrite, s.clock.timeout), s.now, s.wake, s.dead, s.now, s.log)
    case Write =>
      Sys(Clock(s.clock.lastRead, s.now, s.clock.timeout), s.now, s.wake, s.dead, s.heard, s.log + [Wrote(s.now)])
    case Cancel => Sys(Clock(s.clock.lastRead, s.clock.lastWrite, None), s.now, s.wake, s.dead, s.heard, s.log)
    case Reset => Sys(Clock(s.now, s.now, None), s.now, s.wake, s.dead, s.heard, s.log)
    case Wake =>
      var p := Poll(s.clock, s.now);
      match p.verdict
      case Stop => Sys(p.clock, s.now, None, s.dead, s.heard, s.log)
      case PeerDead => Sys(p.clock, s.now, None, true, s.heard, s.log)
      case Sleep(d, sent) =>
        Sys(p.clock, s.now, Some(s.now + d), s.dead, s.heard, s.log + if sent then [Requested(s.now)] else [])
  }

  ghost predicate Legal(s: Sys, ms: seq<Move>)
    decreases |ms|
  {
    ms == [] || (Can(s, ms[0]) && Legal(Apply(s, ms[0]), ms[1..]))
  }

  ghost function Exec(s: Sys, ms: seq<Move>): (r: Sys)
    requires Legal(s, ms)
    decreases |ms|
  {
    if ms == [] then s else Exec(Apply(s, ms[0]), ms[1..])
  }

  /** When the connection last saw anything of us. */
  function LastSaid(log: seq<Event>): (at: nat)
    requires log != []
  {
    log[|log| - 1].at
  }

  /** While the loop runs with timeout `t`, its clock tells what happened, and it
      wakes up at most a millisecond past `t` after the last write or request,
      and at most `t` past four times `t` after the last bytes arrived. */
  predicate Inv(s: Sys, t: nat) {
    && s.log != [] && LastSaid(s.log) <= s.now && s.heard <= s.now
    && (s.wake.Some? ==>
          && (s.clock.timeout.None? || s.clock == Clock(s.heard, LastSaid(s.log), Some(t)))
          && s.now <= s.wake.value
          && s.wake.value <= LastSaid(s.log) + t + MILLISECOND
          && s.wake.value <= s.heard + 5 * t)
  }

  /** What a wake-up does, in terms of what happened: it gives the peer up after
      more than `4 * t` of silence; it requests a heartbeat exactly when the loop
      goes on and more than `t` has passed since the last write or request; and
      it sleeps until that much will have passed, at least a millisecond. */
  lemma WakeExact(s: Sys, t: nat)
    requires Inv(s, t) && Can(s, Wake) && t >= MILLISECOND
    ensures
      var r := Apply(s, Wake);
      var silent := s.now - s.heard > 4 * t;
      var due := s.clock.timeout.Some? && !silent && s.now - LastSaid(s.log) > t;
      && (r.wake.None? <==> s.clock.timeout.None? || silent)
      && (r.dead <==> s.dead || (s.clock.timeout.Some? && silent))
      && r.log == s.log + (if due then [Requested(s.now)] else [])
      && (r.wake.Some? ==> r.wake.value == Max(LastSaid(r.log) + t, s.now + MILLISECOND))
      && r.heard == s.heard && r.now == s.now
  {
  }

  lemma InvMove(s: Sys, m: Move, t: nat)
    requires Inv(s, t) && Can(s, m) && t >= MILLISECOND
    ensures Inv(Apply(s, m), t)
    ensures !s.dead && Apply(s, m).dead ==> m == Wake && 4 * t < s.now - s.heard <= 5 * t
  {
  }

  /** The loop's first poll, on a connection that was written to and has been
      read from lately, as the handshake leaves it. */
  lemma FirstPoll(c: Clock, now: nat, t: nat, log: seq<Event>)
    requires c.timeout == Some(t) && t >= MILLISECOND
    requires c.lastRead <= now <= c.lastRead + 4 * t
    requires log != [] && LastSaid(log) == c.lastWrite <= now
    ensures
      var s := Apply(Sys(c, now, Some(now), false, c.lastRead, log), Wake);
      Inv(s, t) && s.wake.Some? && !s.dead
  {
  }

  lemma {:induction false} InvExec(s: Sys, ms: seq<Move>, t: nat)
    requires Inv(s, t) && Legal(s, ms) && t >= MILLISECOND
    ensures Inv(Exec(s, ms), t)
    decreases |ms|
  {
    if ms != [] {
      InvMove(s, ms[0], t);
      InvExec(Apply(s, ms[0]), ms[1..], t);
    }
  }

  /** In every run, as long as the loop is alive, no more than half the
      negotiated interval and a millisecond goes by without a write or a
      heartbeat request on record, and no more than five halves of silence. */
  lemma HeartbeatTiming(s: Sys, ms: seq<Move>, t: nat)
    requires Inv(s, t) && Legal(s, ms) && t >= MILLISECOND
    ensures
      var r := Exec(s, ms);
      r.wake.Some? ==>
        && (exists e :: e in r.log && r.now - e.at <= t + MILLISECOND)
        && r.now - r.heard <= 5 * t
  {
    InvExec(s, ms, t);
    var r := Exec(s, ms);
    assert r.log[|r.log| - 1] in r.log;
  }

  /** What one move adds to the record. */
  function Recorded(s: Sys, m: Move, t: nat): (e: seq<Event>)
    requires s.log != []
  {
    if m == Write then [Wrote(s.now)]
    else if m == Wake && s.clock.timeout.Some? && Since(s.now, s.heard) <= 4 * t && Since(s.now, LastSaid(s.log)) > t
    then [Requested(s.now)]
    else []
  }

  /** At every move of every run: heartbeats are requested by polls, exactly when
      the loop goes on and nothing was written or requested for longer than `t`;
      the rest of the record is the writes, and nothing leaves it. */
  lemma {:induction false} RequestedExactly(s: Sys, ms: seq<Move>, m: Move, t: nat)
    requires Inv(s, t) && Legal(s, ms) && t >= MILLISECOND && Can(Exec(s, ms), m)
    ensures
      var r := Exec(s, ms);
      r.log != [] && Apply(r, m).log == r.log + Recorded(r, m, t)
    decreases |ms|
  {
    if ms == [] {
      if m == Wake {
        WakeExact(s, t);
      }
    } else {
      InvMove(s, ms[0], t);
      RequestedExactly(Apply(s, ms[0]), ms[1..], m, t);
    }
  }

  /** The peer is given up only after more than four halves of silence, the two
      intervals of the protocol, and at the latest after five: whenever a run
      gets there, it was at a wake-up with that much silence. */
  lemma {:induction false} PeerGivenUp(s: Sys, ms: seq<Move>, t: nat) returns (k: nat)
    requires Inv(s, t) && Legal(s, ms) && t >= MILLISECOND
    requires !s.dead && Exec(s, ms).dead
    ensures k < |ms| && Legal(s, ms[..k]) && ms[k] == Wake
    ensures
      var r := Exec(s, ms[..k]);
      !r.dead && 4 * t < r.now - r.heard <= 5 * t
    decreases |ms|
  {
    var s' := Apply(s, ms[0]);
    InvMove(s, ms[0], t);
    if s'.dead {
      k := 0;
      assert ms[..0] == [];
    } else {
      var j := PeerGivenUp(s', ms[1..], t);
      k := j + 1;
      assert ms[..k][1..] == ms[1..][..j] && ms[..k][0] == ms[0];
    }
  }

  class Heartbeat {
    var lastRead: nat
    var lastWrite: nat
    var timeout: Option<nat>

    function State(): (c: Clock)
      reads this
    {
      Clock(lastRead, lastWrite, timeout)
    }

    constructor (now: nat)
      ensures State() == Clock(now, now, None)
    {
      lastRead, lastWrite, timeout := now, now, None;
    }

    method SetTimeout(t: nat)
      modifies this`timeout
      ensures State() == Clock(old(lastRead), old(lastWrite), Some(t))
    {
      timeout := Some(t);
    }

    method PollTimeout(now: nat) returns (v: Verdict)
      modifies this
      ensures Polled(State(), v) == Poll(old(State()), now)
    {
      if timeout.None? {
        return Stop;
      }
      var t := timeout.value;
      if Since(now, lastRead) > 4 * t {
        timeout := None;
        return PeerDead;
      }
      var elapsed := Since(now, lastWrite);
      if elapsed <= t {
        return Sleep(Max(t - elapsed, MILLISECOND), false);
      }
      lastWrite := now;
      return Sleep(t, true);
    }
  }
}
