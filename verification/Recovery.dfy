/** Recovery of a channel: kill switches, the FIFO of internal commands, and
    what ackers of earlier connections may still do (src/channel_status.rs,
    src/internal_rpc.rs, src/killswitch.rs, src/acker.rs). */
module Recovery {
  import opened Bytes

  type ErrorId = nat

  /** The switches a channel ever had are numbered; `current` is its last. */
  type Switch = nat

  datatype Command =
    | SetChannelStatus(switch: Switch)
    | Scoped(id: nat)     // ack, nack, reject, cancel, close or remove on this channel

  datatype World = World(
    current: Switch,
    killed: set<Switch>,
    cause: Option<ErrorId>,        // why the channel is being recovered
    connected: bool,
    queue: seq<Command>,           // commands not yet handled
    registered: Option<Switch>,    // the switch known to the command loop
    ackers: seq<Switch>,           // the channel switch each acker was made with
    passed: seq<nat>,              // scoped commands let through
    refused: seq<nat>)             // scoped commands skipped: whoever awaits them waits for ever

  datatype Move =
    | WillReceive                  // a delivery starts: an acker is made
    | SetReconnecting(error: ErrorId)
    | Finalize
    | Send(id: nat)
    | HandleNext

  /** A channel is announced to the command loop when it is created. */
  const START := World(0, {}, None, false, [SetChannelStatus(0)], None, [], [], [])

  predicate ChannelOk(w: World) {
    w.registered.Some? && w.registered.value !in w.killed
  }

  function Handled(w: World): (r: World)
    requires w.queue != []
  {
    match w.queue[0]
    case SetChannelStatus(k) =>
      World(w.current, w.killed, w.cause, w.connected, w.queue[1..], Some(k), w.ackers, w.passed, w.refused)
    case Scoped(id) =>
      World(w.current, w.killed, w.cause, w.connected, w.queue[1..], w.registered, w.ackers,
            if ChannelOk(w) then w.passed + [id] else w.passed,
            if ChannelOk(w) then w.refused else w.refused + [id])
  }

  function Apply(w: World, m: Move): (r: World) {
    match m
    case WillReceive =>
      World(w.current, w.killed, w.cause, w.connected, w.queue, w.registered, w.ackers + [w.current], w.passed, w.refused)
    case SetReconnecting(error) =>
      World(w.current + 1, w.killed + {w.current}, if w.cause.Some? then w.cause else Some(error), false,
            w.queue, w.registered, w.ackers, w.passed, w.refused)
    case Finalize =>
      World(w.current, w.killed, None, true, w.queue + [SetChannelStatus(w.current)], w.registered, w.ackers, w.passed, w.refused)
    case Send(id) =>
      World(w.current, w.killed, w.cause, w.connected, w.queue + [Scoped(id)], w.registered, w.ackers, w.passed, w.refused)
    case HandleNext => if w.queue == [] then w else Handled(w)
  }

  function Exec(w: World, ms: seq<Move>): (r: World)
    decreases |ms|
  {
    if ms == [] then w else Exec(Apply(w, ms[0]), ms[1..])
  }

  ghost predicate Inv(w: World) {
    && (forall k :: k in w.killed <==> 0 <= k < w.current)
    && (w.registered.Some? ==> w.registered.value <= w.current)
    && (forall i :: 0 <= i < |w.queue| && w.queue[i].SetChannelStatus? ==> w.queue[i].switch <= w.current)
    && (forall i :: 0 <= i < |w.ackers| ==> w.ackers[i] <= w.current)
  }

  lemma InvMove(w: World, m: Move)
    requires Inv(w)
    ensures Inv(Apply(w, m))
  {
    if m.HandleNext? && w.queue != [] {
      assert forall i :: 0 <= i < |w.queue[1..]| ==> w.queue[1..][i] == w.queue[i + 1];
    }
  }

  lemma {:induction false} InvExec(w: World, ms: seq<Move>)
    requires Inv(w)
    ensures Inv(Exec(w, ms))
    decreases |ms|
  {
    if ms != [] {
      InvMove(w, ms[0]);
      InvExec(Apply(w, ms[0]), ms[1..]);
    }
  }

  /** In every run, an acker's channel switch is killed exactly when it is not
      the channel's current one, and the command loop lets this channel's
      commands through only while the switch it knows is the current one. */
  lemma SwitchesTellEpochs(ms: seq<Move>, i: nat)
    requires i < |Exec(START, ms).ackers|
    ensures
      var w := Exec(START, ms);
      && (w.ackers[i] in w.killed <==> w.ackers[i] != w.current)
      && (ChannelOk(w) <==> w.registered == Some(w.current))
  {
    InvExec(START, ms);
  }

  /** How often the connection was lost. */
  function Losses(ms: seq<Move>): (n: nat) {
    if ms == [] then 0 else (if ms[0].SetReconnecting? then 1 else 0) + Losses(ms[1..])
  }

  /** Every loss, and nothing else, brings a new switch; ackers keep theirs. */
  lemma {:induction false} SwitchesCount(w: World, ms: seq<Move>)
    ensures Exec(w, ms).current == w.current + Losses(ms) && w.ackers <= Exec(w, ms).ackers
    decreases |ms|
  {
    if ms != [] {
      SwitchesCount(Apply(w, ms[0]), ms[1..]);
    }
  }

  /** An acker made at any point of any run is poisoned exactly when the
      connection has been lost since. */
  lemma AckerLives(before: seq<Move>, after: seq<Move>)
    ensures
      var i, r := |Exec(START, before).ackers|, Exec(Apply(Exec(START, before), WillReceive), after);
      i < |r.ackers| && (r.ackers[i] in r.killed <==> Losses(after) > 0)
  {
    var w := Exec(START, before);
    InvExec(START, before);
    InvMove(w, WillReceive);
    InvExec(Apply(w, WillReceive), after);
    SwitchesCount(Apply(w, WillReceive), after);
  }

  // ---- what becomes of a command ----

  /** The commands sent by a run, in order. */
  function SentBy(ms: seq<Move>): (ids: seq<nat>) {
    if ms == [] then [] else (if ms[0].Send? then [ms[0].id] else []) + SentBy(ms[1..])
  }

  function Waiting(queue: seq<Command>): (ids: seq<nat>) {
    if queue == [] then [] else (if queue[0].Scoped? then [queue[0].id] else []) + Waiting(queue[1..])
  }

  /** The commands handled by a run while the channel was up, or while it was not. */
  function HandledBy(w: World, ms: seq<Move>, up: bool): (ids: seq<nat>)
    decreases |ms|
  {
    if ms == [] then []
    else
      (if ms[0].HandleNext? && w.queue != [] && w.queue[0].Scoped? && ChannelOk(w) == up then [w.queue[0].id] else [])
      + HandledBy(Apply(w, ms[0]), ms[1..], up)
  }

  /** The commands handled by a run, up or not. */
  function Taken(w: World, ms: seq<Move>): (ids: seq<nat>)
    decreases |ms|
  {
    if ms == [] then []
    else
      (if ms[0].HandleNext? && w.queue != [] && w.queue[0].Scoped? then [w.queue[0].id] else [])
      + Taken(Apply(w, ms[0]), ms[1..])
  }

  /** In every run commands are handled in the order they were sent, and a
      command is skipped, so that whoever awaits it waits for ever, exactly when
      it is handled while the channel is not up. */
  lemma {:induction false} CommandsAnswered(w: World, ms: seq<Move>)
    ensures
      var r := Exec(w, ms);
      && r.passed == w.passed + HandledBy(w, ms, true)
      && r.refused == w.refused + HandledBy(w, ms, false)
      && Waiting(w.queue) + SentBy(ms) == Taken(w, ms) + Waiting(r.queue)
    decreases |ms|
  {
    if ms == [] {
      assert w.passed + [] == w.passed && w.refused + [] == w.refused && Waiting(w.queue) + [] == [] + Waiting(w.queue);
    } else {
      var m, w' := ms[0], Apply(w, ms[0]);
      CommandsAnswered(w', ms[1..]);
      HandledFirst(w, ms, true);
      HandledFirst(w, ms, false);
      TakenFirst(w, ms);
    }
  }

  lemma HandledFirst(w: World, ms: seq<Move>, up: bool)
    requires ms != []
    requires
      var w', r := Apply(w, ms[0]), Exec(w, ms);
      if up then r.passed == w'.passed + HandledBy(w', ms[1..], up)
      else r.refused == w'.refused + HandledBy(w', ms[1..], up)
    ensures
      var r := Exec(w, ms);
      if up then r.passed == w.passed + HandledBy(w, ms, up) else r.refused == w.refused + HandledBy(w, ms, up)
  {
    var w' := Apply(w, ms[0]);
    var rest := HandledBy(w', ms[1..], up);
    assert [] + rest == rest;
    if w.queue != [] && w.queue[0].Scoped? {
      Assoc(w.passed, [w.queue[0].id], rest);
      Assoc(w.refused, [w.queue[0].id], rest);
    }
  }

  lemma TakenFirst(w: World, ms: seq<Move>)
    requires ms != []
    requires
      var w', r := Apply(w, ms[0]), Exec(w, ms);
      Waiting(w'.queue) + SentBy(ms[1..]) == Taken(w', ms[1..]) + Waiting(r.queue)
    ensures Waiting(w.queue) + SentBy(ms) == Taken(w, ms) + Waiting(Exec(w, ms).queue)
  {
    var m, w' := ms[0], Apply(w, ms[0]);
    var sent, taken, left := SentBy(ms[1..]), Taken(w', ms[1..]), Waiting(Exec(w, ms).queue);
    assert [] + sent == sent && [] + taken == taken;
    match m
    case Send(id) =>
      WaitingSnoc(w.queue, Scoped(id));
      Assoc(Waiting(w.queue), [id], sent);
    case Finalize =>
      WaitingSnoc(w.queue, SetChannelStatus(w.current));
      assert Waiting(w.queue) + [] == Waiting(w.queue);
    case HandleNext =>
      if w.queue != [] {
        var first := if w.queue[0].Scoped? then [w.queue[0].id] else [];
        Assoc(first, Waiting(w'.queue), sent);
        Assoc(first, taken, left);
      }
    case _ =>
  }

  lemma {:induction false} WaitingSnoc(queue: seq<Command>, c: Command)
    ensures Waiting(queue + [c]) == Waiting(queue) + if c.Scoped? then [c.id] else []
    decreases |queue|
  {
    if queue == [] {
      assert [] + [c] == [c] && [c][1..] == [];
    } else {
      WaitingSnoc(queue[1..], c);
      assert (queue + [c])[1..] == queue[1..] + [c];
      Assoc(if queue[0].Scoped? then [queue[0].id] else [], Waiting(queue[1..]), if c.Scoped? then [c.id] else []);
    }
  }

  // ---- outages ----

  /** The loop does not know the current switch, and nothing among the next `k`
      commands will tell it. */
  ghost predicate Shut(w: World, k: nat) {
    && w.registered != Some(w.current)
    && k <= |w.queue|
    && forall i :: 0 <= i < k ==> w.queue[i] != SetChannelStatus(w.current)
  }

  lemma ReconnectingShuts(w: World, error: ErrorId)
    requires Inv(w)
    ensures Shut(Apply(w, SetReconnecting(error)), |w.queue|)
  {
  }

  function CountHandled(ms: seq<Move>): (n: nat) {
    if ms == [] then 0 else (if ms[0].HandleNext? then 1 else 0) + CountHandled(ms[1..])
  }

  /** While shut, whatever happens, the next `k` commands handled let nothing
      through. */
  lemma {:induction false} ShutRun(w: World, ms: seq<Move>, k: nat)
    requires Inv(w) && Shut(w, k) && CountHandled(ms) <= k
    ensures Exec(w, ms).passed == w.passed
    decreases |ms|
  {
    if ms != [] {
      var m := ms[0];
      InvMove(w, m);
      var w' := Apply(w, m);
      if m.HandleNext? {
        assert w.queue != [] && w.queue[0] != SetChannelStatus(w.current);
        assert Shut(w', k - 1) by {
          assert forall i :: 0 <= i < k - 1 ==> w'.queue[i] == w.queue[i + 1];
        }
        ShutRun(w', ms[1..], k - 1);
      } else {
        assert Shut(w', k);
        ShutRun(w', ms[1..], k);
      }
    }
  }

  /** With no finalized connection since, nothing ever gets through, however
      long the run. */
  lemma {:induction false} NeverFinalized(w: World, ms: seq<Move>)
    requires Inv(w) && Shut(w, |w.queue|) && forall m :: m in ms ==> !m.Finalize?
    ensures Exec(w, ms).passed == w.passed && Shut(Exec(w, ms), |Exec(w, ms).queue|)
    decreases |ms|
  {
    if ms != [] {
      var m := ms[0];
      assert m in ms;
      InvMove(w, m);
      var w' := Apply(w, m);
      assert Shut(w', |w'.queue|) by {
        if m.HandleNext? && w.queue != [] {
          assert w.queue[0] != SetChannelStatus(w.current);
          assert forall i :: 0 <= i < |w'.queue| ==> w'.queue[i] == w.queue[i + 1];
        }
      }
      NeverFinalized(w', ms[1..]);
    }
  }

  /** From the loss of the connection until the command loop has handled the
      status sent by the next finalized connection, no channel-scoped command
      passes: neither those of the outage nor those queued before that status. */
  lemma NothingPassesDuringOutage(before: seq<Move>, error: ErrorId, outage: seq<Move>, after: seq<Move>)
    requires forall m :: m in outage ==> !m.Finalize?
    requires
      var down := Exec(Apply(Exec(START, before), SetReconnecting(error)), outage);
      CountHandled(after) <= |down.queue|
    ensures
      var lost := Exec(START, before);
      var down := Exec(Apply(lost, SetReconnecting(error)), outage);
      Exec(Apply(down, Finalize), after).passed == lost.passed
  {
    var lost := Exec(START, before);
    InvExec(START, before);
    ReconnectingShuts(lost, error);
    InvMove(lost, SetReconnecting(error));
    var w := Apply(lost, SetReconnecting(error));
    NeverFinalized(w, outage);
    InvExec(w, outage);
    var down := Exec(w, outage);
    InvMove(down, Finalize);
    assert Shut(Apply(down, Finalize), |down.queue|);
    ShutRun(Apply(down, Finalize), after, |down.queue|);
  }

  /** And right after that status is handled the channel's commands pass again. */
  lemma StatusReopens(w: World)
    requires Inv(w) && w.queue != [] && w.queue[0] == SetChannelStatus(w.current)
    ensures ChannelOk(Apply(w, HandleNext))
  {
  }

  /** The status of the current switch comes after `k` commands, and none of an
      earlier switch comes later. */
  ghost predicate Opening(w: World, k: nat) {
    && k < |w.queue| && w.queue[k] == SetChannelStatus(w.current)
    && forall i :: k <= i < |w.queue| && w.queue[i].SetChannelStatus? ==> w.queue[i].switch == w.current
  }

  /** The loop knows the current switch, and no status of an earlier one waits. */
  ghost predicate Opened(w: World) {
    && w.registered == Some(w.current)
    && forall i :: 0 <= i < |w.queue| && w.queue[i].SetChannelStatus? ==> w.queue[i].switch == w.current
  }

  lemma OpenedMove(w: World, m: Move)
    requires Opened(w) && !m.SetReconnecting?
    ensures Opened(Apply(w, m))
  {
    var w' := Apply(w, m);
    if m.HandleNext? && w.queue != [] {
      assert forall i :: 0 <= i < |w'.queue| ==> w'.queue[i] == w.queue[i + 1];
    }
  }

  lemma OpeningMove(w: World, m: Move, k: nat)
    requires Opening(w, k) && !m.SetReconnecting?
    ensures
      var w' := Apply(w, m);
      if !m.HandleNext? then Opening(w', k) else if k > 0 then Opening(w', k - 1) else Opened(w')
  {
    var w' := Apply(w, m);
    if m.HandleNext? {
      assert forall i :: 0 <= i < |w'.queue| ==> w'.queue[i] == w.queue[i + 1];
    }
  }

  lemma {:induction false} OpenedRun(w: World, ms: seq<Move>)
    requires Opened(w) && forall m :: m in ms ==> !m.SetReconnecting?
    ensures Opened(Exec(w, ms))
    decreases |ms|
  {
    if ms != [] {
      assert ms[0] in ms;
      OpenedMove(w, ms[0]);
      OpenedRun(Apply(w, ms[0]), ms[1..]);
    }
  }

  lemma {:induction false} OpeningRun(w: World, ms: seq<Move>, k: nat)
    requires Opening(w, k) && CountHandled(ms) > k && forall m :: m in ms ==> !m.SetReconnecting?
    ensures Opened(Exec(w, ms))
    decreases |ms|
  {
    var m := ms[0];
    assert m in ms;
    OpeningMove(w, m, k);
    if !m.HandleNext? {
      OpeningRun(Apply(w, m), ms[1..], k);
    } else if k > 0 {
      OpeningRun(Apply(w, m), ms[1..], k - 1);
    } else {
      OpenedRun(Apply(w, m), ms[1..]);
    }
  }

  /** The other half: once a connection is finalized and the command loop has gone
      through what was queued and the status behind it, the channel's commands
      pass, and do so until the connection is lost again. */
  lemma PassesAfterOutage(before: seq<Move>, after: seq<Move>)
    requires CountHandled(after) > |Exec(START, before).queue| && forall m :: m in after ==> !m.SetReconnecting?
    ensures ChannelOk(Exec(Apply(Exec(START, before), Finalize), after))
  {
    var w := Exec(START, before);
    InvExec(START, before);
    InvMove(w, Finalize);
    InvExec(Apply(w, Finalize), after);
    OpeningRun(Apply(w, Finalize), after, |w.queue|);
  }

  lemma {:induction false} StaysDown(w: World, ms: seq<Move>)
    requires !w.connected && forall m :: m in ms ==> !m.Finalize?
    ensures !Exec(w, ms).connected
    decreases |ms|
  {
    if ms != [] {
      assert ms[0] in ms;
      StaysDown(Apply(w, ms[0]), ms[1..]);
    }
  }

  lemma {:induction false} StaysUp(w: World, ms: seq<Move>)
    requires w.connected && w.cause.None? && forall m :: m in ms ==> !m.SetReconnecting?
    ensures Exec(w, ms).connected && Exec(w, ms).cause.None?
    decreases |ms|
  {
    if ms != [] {
      assert ms[0] in ms;
      StaysUp(Apply(w, ms[0]), ms[1..]);
    }
  }

  /** From the loss of a connection until one is finalized the channel is not
      connected, and it is being recovered for the error that came first; from
      then on until the next loss it is connected and not being recovered. */
  lemma StatusTold(w: World, error: ErrorId, outage: seq<Move>, after: seq<Move>)
    requires w.cause.None? && (forall m :: m in outage ==> !m.Finalize?) && (forall m :: m in after ==> !m.SetReconnecting?)
    ensures
      var down := Exec(Apply(w, SetReconnecting(error)), outage);
      var up := Exec(Apply(down, Finalize), after);
      down.cause == Some(error) && !down.connected && up.cause.None? && up.connected
  {
    var lost := Apply(w, SetReconnecting(error));
    FirstCauseStays(lost, outage);
    StaysDown(lost, outage);
    StaysUp(Apply(Exec(lost, outage), Finalize), after);
  }

  /** However many errors an outage brings, its cause is the first one. */
  lemma {:induction false} FirstCauseStays(w: World, ms: seq<Move>)
    requires w.cause.Some? && forall m :: m in ms ==> !m.Finalize?
    ensures Exec(w, ms).cause == w.cause
    decreases |ms|
  {
    if ms != [] {
      assert ms[0] in ms;
      FirstCauseStays(Apply(w, ms[0]), ms[1..]);
    }
  }

  // ---- one acker, its clones and its callers ----

  /** Where a caller of ack, nack or reject is. */
  datatype Caller = Checking | Swapping | Through | Refused

  /** `used` is the acker's own switch, shared by its clones. */
  datatype Acker = Acker(used: bool, channelKilled: bool, callers: seq<Caller>)

  datatype AMove = Call | Advance(caller: nat) | Invalidate | KillChannel

  function AApply(a: Acker, m: AMove): (r: Acker) {
    match m
    case Call => Acker(a.used, a.channelKilled, a.callers + [Checking])
    case Invalidate => Acker(true, a.channelKilled, a.callers)
    case KillChannel => Acker(a.used, true, a.callers)
    case Advance(c) =>
      if c >= |a.callers| then a
      else match a.callers[c]
        case Checking => Acker(a.used, a.channelKilled, a.callers[c := if a.channelKilled then Refused else Swapping])
        case Swapping => Acker(true, a.channelKilled, a.callers[c := if a.used then Refused else Through])
        case _ => a
  }

  function AExec(a: Acker, ms: seq<AMove>): (r: Acker)
    decreases |ms|
  {
    if ms == [] then a else AExec(AApply(a, ms[0]), ms[1..])
  }

  ghost predicate OneThrough(a: Acker) {
    && (forall i :: 0 <= i < |a.callers| && a.callers[i].Through? ==> a.used)
    && forall i, j :: 0 <= i < j < |a.callers| ==> !(a.callers[i].Through? && a.callers[j].Through?)
  }

  /** Whoever is through in `b` already was in `a`. */
  ghost predicate NobodyNew(a: Acker, b: Acker) {
    && |a.callers| <= |b.callers|
    && forall i :: 0 <= i < |b.callers| && b.callers[i].Through? ==> i < |a.callers| && a.callers[i].Through?
  }

  /** At most one of all the calls on an acker and its clones gets through, in
      every interleaving, and none once it is used or invalidated. */
  lemma {:induction false} AtMostOneThrough(a: Acker, ms: seq<AMove>)
    requires OneThrough(a)
    ensures OneThrough(AExec(a, ms))
    ensures a.used ==> NobodyNew(a, AExec(a, ms))
    decreases |ms|
  {
    if ms != [] {
      var b := AApply(a, ms[0]);
      assert a.used ==> b.used && NobodyNew(a, b);
      AtMostOneThrough(b, ms[1..]);
    }
  }

  /** Someone is through. */
  ghost predicate SomeThrough(a: Acker) {
    exists i :: 0 <= i < |a.callers| && a.callers[i].Through?
  }

  /** An acker that is used has let someone through, and nobody is refused for
      nothing. */
  ghost predicate Accounted(a: Acker) {
    && (a.used <==> SomeThrough(a))
    && forall i :: 0 <= i < |a.callers| && a.callers[i].Refused? ==> a.used || a.channelKilled
  }

  lemma AccountedMove(a: Acker, m: AMove)
    requires Accounted(a) && !m.Invalidate?
    ensures Accounted(AApply(a, m))
  {
    var b := AApply(a, m);
    if SomeThrough(a) {
      var i :| 0 <= i < |a.callers| && a.callers[i].Through?;
      assert b.callers[i].Through?;
    }
    if m.Advance? && m.caller < |a.callers| && a.callers[m.caller].Swapping? && !a.used {
      assert b.callers[m.caller].Through?;
    }
  }

  /** In every interleaving, as long as it is not invalidated, an acker is used up
      exactly by letting one call through, and a call is refused only if another
      got through or the channel was lost. */
  lemma {:induction false} NobodyRefusedForNothing(a: Acker, ms: seq<AMove>)
    requires Accounted(a) && forall m :: m in ms ==> !m.Invalidate?
    ensures Accounted(AExec(a, ms))
    decreases |ms|
  {
    if ms != [] {
      assert ms[0] in ms;
      AccountedMove(a, ms[0]);
      NobodyRefusedForNothing(AApply(a, ms[0]), ms[1..]);
    }
  }

  /** Past the check of the channel's switch. */
  predicate PastCheck(a: Acker, i: nat) {
    i < |a.callers| && (a.callers[i].Swapping? || a.callers[i].Through?)
  }

  /** Once the channel is lost, no call gets past the check any more. */
  lemma {:induction false} LostChannelRefuses(a: Acker, ms: seq<AMove>, i: nat)
    requires a.channelKilled && PastCheck(AExec(a, ms), i)
    ensures PastCheck(a, i)
    decreases |ms|
  {
    if ms != [] {
      LostChannelRefuses(AApply(a, ms[0]), ms[1..], i);
    }
  }

  /** A call on its own gets through exactly when the acker is usable. */
  lemma CallAlone(a: Acker)
    ensures
      var n := |a.callers|;
      var r := AApply(AApply(AApply(a, Call), Advance(n)), Advance(n));
      && r.callers == a.callers + [if a.used || a.channelKilled then Refused else Through]
      && (r.used <==> a.used || !a.channelKilled)
  {
  }

  // ---- the code ----

  class KillSwitch {
    var flag: bool

    constructor ()
      ensures !flag
    {
      flag := false;
    }

    /** True for the call that kills it. */
    method Kill() returns (first: bool)
      modifies this
      ensures flag && first == !old(flag)
    {
      first := !flag;
      flag := true;
    }
  }

  datatype Sent = Status(switch: KillSwitch) | Request(id: nat)

  ghost predicate Named(switches: seq<KillSwitch>, k: KillSwitch, n: Switch) {
    n < |switches| && switches[n] == k
  }

  ghost predicate SameCommand(switches: seq<KillSwitch>, c: Sent, d: Command) {
    match c
    case Status(k) => d.SetChannelStatus? && Named(switches, k, d.switch)
    case Request(id) => d == Scoped(id)
  }

  /** The switches held here and there are those the model numbers. */
  ghost predicate Known(switches: seq<KillSwitch>, registered: Option<KillSwitch>, ackers: seq<KillSwitch>,
                        commands: seq<Sent>, w: World)
  {
    && (if registered.Some? then w.registered.Some? && Named(switches, registered.value, w.registered.value)
        else w.registered.None?)
    && |ackers| == |w.ackers| && (forall i :: 0 <= i < |ackers| ==> Named(switches, ackers[i], w.ackers[i]))
    && |commands| == |w.queue| && (forall i :: 0 <= i < |commands| ==> SameCommand(switches, commands[i], w.queue[i]))
  }

  lemma KnownLater(switches: seq<KillSwitch>, k: KillSwitch, registered: Option<KillSwitch>, ackers: seq<KillSwitch>,
                   commands: seq<Sent>, w: World, w': World)
    requires Known(switches, registered, ackers, commands, w)
    requires w'.registered == w.registered && w'.ackers == w.ackers && w'.queue == w.queue
    ensures Known(switches + [k], registered, ackers, commands, w')
  {
  }

  /** A channel's status and what the command loop keeps of it.  `model` is the
      value of it all, in which switches go by their numbers: `switches` lists
      every one the channel ever had. */
  class ChannelStatus {
    var killswitch: KillSwitch
    var cause: Option<ErrorId>
    var connected: bool
    var commands: seq<Sent>
    var registered: Option<KillSwitch>
    var ackers: seq<KillSwitch>
    var passed: seq<nat>
    var refused: seq<nat>
    ghost var switches: seq<KillSwitch>
    ghost var model: World

    ghost predicate Valid()
      reads this, switches
    {
      && Inv(model) && Distinct(switches)
      && |switches| == model.current + 1 && switches[model.current] == killswitch
      && (forall n :: 0 <= n < |switches| ==> (switches[n].flag <==> n in model.killed))
      && cause == model.cause && connected == model.connected
      && passed == model.passed && refused == model.refused
      && Known(switches, registered, ackers, commands, model)
    }

    constructor ()
      ensures Valid() && model == START && fresh(switches)
    {
      var k := new KillSwitch();
      killswitch, cause, connected, commands := k, None, false, [Status(k)];
      registered, ackers, passed, refused := None, [], [], [];
      switches, model := [k], START;
    }

    /** A delivery starts: the switch its acker gets. */
    method SetWillReceive() returns (k: KillSwitch)
      requires Valid()
      modifies this
      ensures Valid() && switches == old(switches) && k == killswitch
      ensures model == Apply(old(model), WillReceive)
    {
      k := killswitch;
      ackers := ackers + [k];
      InvMove(model, WillReceive);
      model := Apply(model, WillReceive);
    }

    /** A new switch takes the place of the current one, which is killed. */
    method RenewSwitch()
      requires Distinct(switches) && switches != [] && switches[|switches| - 1] == killswitch
      modifies this`killswitch, this`switches, killswitch
      ensures fresh(killswitch) && !killswitch.flag && old(killswitch).flag
      ensures switches == old(switches) + [killswitch] && Distinct(switches)
      ensures forall n :: 0 <= n < |switches| - 2 ==> switches[n].flag == old(switches[n].flag)
    {
      var before := killswitch;
      killswitch := new KillSwitch();
      var _ := before.Kill();
      switches := switches + [killswitch];
    }

    /** The connection is lost: returns the error that started the outage. */
    method SetReconnecting(error: ErrorId) returns (e: ErrorId)
      requires Valid()
      modifies this, killswitch
      ensures Valid() && fresh(killswitch) && switches == old(switches) + [killswitch]
      ensures model == Apply(old(model), Move.SetReconnecting(error)) && model.cause == Some(e)
    {
      connected := false;
      RenewSwitch();
      if cause.None? {
        cause := Some(error);
      }
      e := cause.value;
      KnownLater(old(switches), killswitch, registered, ackers, commands, model, Apply(model, Move.SetReconnecting(error)));
      InvMove(model, Move.SetReconnecting(error));
      model := Apply(model, Move.SetReconnecting(error));
    }

    /** The connection is back, and the command loop is told. */
    method FinalizeConnection()
      requires Valid()
      modifies this
      ensures Valid() && switches == old(switches)
      ensures model == Apply(old(model), Finalize)
    {
      connected := true;
      commands := commands + [Status(killswitch)];
      cause := None;
      InvMove(model, Finalize);
      model := Apply(model, Finalize);
    }

    method SendCommand(id: nat)
      requires Valid()
      modifies this
      ensures Valid() && switches == old(switches)
      ensures model == Apply(old(model), Send(id))
    {
      commands := commands + [Request(id)];
      InvMove(model, Send(id));
      model := Apply(model, Send(id));
    }

    /** One turn of the command loop. */
    method HandleCommand()
      requires Valid()
      modifies this
      ensures Valid() && switches == old(switches)
      ensures model == Apply(old(model), HandleNext)
    {
      InvMove(model, HandleNext);
      model := Apply(model, HandleNext);
      if commands == [] {
        return;
      }
      var c := commands[0];
      commands := commands[1..];
      match c
      case Status(k) => registered := Some(k);
      case Request(id) =>
        if registered.Some? && !registered.value.flag {
          passed := passed + [id];
        } else {
          refused := refused + [id];
        }
    }
  }
}
