/** What becomes of every promise given to the scheduler, end to end: through
    the queues, the send buffer, the socket, new connections, and the end of the
    loop (src/frames.rs and src/io_loop.rs together). */
module IoPromises {
  import opened Bytes
  import opened Generator
  import opened RingBuffer
  import opened OutgoingBytes
  import S = Scheduler
  import R = FrameRuns
  import P = FramePromises
  import O = FrameOutcomes
  import opened IoLoop

  /** A frame that was entirely written has `p` as its resolver. */
  ghost predicate WrittenFor(q: seq<S.FrameSending>, p: S.PromiseId) {
    exists x :: x in q && x.resolver == Some(p)
  }

  ghost predicate InFlightFor(q: seq<Serialized>, p: S.PromiseId) {
    exists x :: x in q && P.RejectOwes(x.sending) == Some(p)
  }

  /** The scheduler and the frame in hand, without what has been sent. */
  function Unsent(w: R.World): (r: R.World) {
    R.World(w.inner, w.hand, w.lost, [], w.next)
  }

  /** `p` is settled, by the scheduler or by the loop. */
  ghost predicate Finished(io: Io, p: S.PromiseId) {
    || P.Settled(io.world.inner.settled, p)
    || P.Settled(io.log, p)
    || WrittenFor(io.sender.resolved, p)
  }

  /** `p` is settled, or the loop will settle it when it clears the connection. */
  ghost predicate Closed(io: Io, p: S.PromiseId) {
    Finished(io, p) || InFlightFor(io.sender.serialized, p)
  }

  /** A frame that was refused by its generator answered for `p`. */
  ghost predicate Stranded(io: Io, p: S.PromiseId) {
    P.Stranded(io.world, p, true) || P.HeldIn(io.gone, p, true)
  }

  // ---- what clearing a connection settles ----

  lemma {:induction false} ResolvesExact(q: seq<S.FrameSending>, p: S.PromiseId)
    ensures P.Settled(Resolves(q), p) <==> WrittenFor(q, p)
    decreases |q|
  {
    if q != [] {
      var init, x := q[..|q| - 1], q[|q| - 1];
      ResolvesExact(init, p);
      SettledConcat(Resolves(init), S.Resolve(x), p);
      assert q == init + [x];
      if x.resolver == Some(p) {
        assert S.Resolve(x)[0] == S.Settlement(p, S.Ok);
        assert x in q;
      }
      if P.Settled(S.Resolve(x), p) {
        assert x in q;
      }
      if WrittenFor(init, p) {
        var y :| y in init && y.resolver == Some(p);
        assert y in q;
      }
    }
  }

  lemma SettledConcat(a: S.Log, b: S.Log, p: S.PromiseId)
    ensures P.Settled(a + b, p) <==> P.Settled(a, p) || P.Settled(b, p)
  {
    if P.Settled(a, p) || P.Settled(b, p) {
      P.SettledGrows(a, b, p);
    }
  }

  lemma {:induction false} RejectsExact(q: seq<Serialized>, error: S.ErrorId, p: S.PromiseId)
    ensures P.Settled(Rejects(q, error), p) <==> InFlightFor(q, p)
    decreases |q|
  {
    if q != [] {
      var init, x := q[..|q| - 1], q[|q| - 1];
      RejectsExact(init, error, p);
      SettledConcat(Rejects(init, error), S.Reject(x.sending, error), p);
      assert q == init + [x];
      if P.RejectOwes(x.sending) == Some(p) {
        assert S.Reject(x.sending, error)[0] == S.Settlement(p, S.Err(error));
        assert x in q;
      }
      if P.Settled(S.Reject(x.sending, error), p) {
        assert x in q;
      }
      if InFlightFor(init, p) {
        var y :| y in init && P.RejectOwes(y.sending) == Some(p);
        assert y in q;
      }
    }
  }

  /** Clearing a connection settles with success exactly the frames entirely
      written, by their resolver, and rejects with that error exactly those still
      in the send buffer. */
  lemma ClosingExact(s: Sender, error: S.ErrorId, p: S.PromiseId)
    ensures P.Settled(Closing(s, error), p) <==> WrittenFor(s.resolved, p) || InFlightFor(s.serialized, p)
    ensures S.Settlement(p, S.Ok) in Closing(s, error) <==> WrittenFor(s.resolved, p)
    ensures forall x :: S.Settlement(p, S.Err(x)) in Closing(s, error) <==> x == error && InFlightFor(s.serialized, p)
  {
    ResolvesExact(s.resolved, p);
    RejectsExact(s.serialized, error, p);
    SettledConcat(Resolves(s.resolved), Rejects(s.serialized, error), p);
    OnlyResolves(s.resolved);
    OnlyRejects(s.serialized, error);
  }

  lemma {:induction false} OnlyResolves(q: seq<S.FrameSending>)
    ensures forall x :: x in Resolves(q) ==> x.outcome == S.Ok
    decreases |q|
  {
    if q != [] {
      OnlyResolves(q[..|q| - 1]);
    }
  }

  lemma {:induction false} OnlyRejects(q: seq<Serialized>, error: S.ErrorId)
    ensures forall x :: x in Rejects(q, error) ==> x.outcome == S.Err(error)
    decreases |q|
  {
    if q != [] {
      OnlyRejects(q[..|q| - 1], error);
    }
  }

  // ---- the frames sent on this connection ----

  lemma {:induction false} EncodedAt(out: seq<S.FrameEntry>, encode: Encoder, i: nat)
    requires i < |out|
    ensures |Encoded(out, encode)| == |out| && Encoded(out, encode)[i].sending == out[i].sending
    decreases |out|
  {
    var init := out[..|out| - 1];
    if init != [] {
      EncodedAt(init, encode, if i < |init| then i else 0);
    }
  }

  lemma {:induction false} SendingsAt(q: seq<Sent>, i: nat)
    requires i < |q|
    ensures |Sendings(q)| == |q| && Sendings(q)[i] == q[i].sending
    decreases |q|
  {
    if |q| > 1 {
      SendingsAt(q[1..], if i > 0 then i - 1 else 0);
    }
  }

  lemma {:induction false} WholeAt(q: seq<Serialized>, live: seq<Sent>, i: nat)
    requires Whole(q, live) && i < |live|
    ensures i < |q| && q[i].sending == live[i].sending
    decreases |live|
  {
    if i > 0 {
      WholeAt(q[1..], live[1..], i - 1);
    }
  }

  lemma MatchesAt(q: seq<Serialized>, live: seq<Sent>, i: nat)
    requires Matches(q, live) && i < |live|
    ensures i < |q| && q[i].sending == live[i].sending
  {
    if i > 0 {
      WholeAt(q[1..], live[1..], i - 1);
    }
  }

  /** The loop answers for every frame it has sent. */
  lemma SentAnswered(io: Io, h: History, encode: Encoder, p: S.PromiseId)
    requires IoInv(io, h, encode) && !io.over && P.HeldIn(io.world.out, p, true)
    ensures WrittenFor(io.sender.resolved, p) || InFlightFor(io.sender.serialized, p)
  {
    var e :| e in io.world.out && P.Answers(e, true) == Some(p);
    var i :| 0 <= i < |io.world.out| && io.world.out[i] == e;
    EncodedAt(io.world.out, encode, i);
    if i < |h.done| {
      SendingsAt(h.done, i);
      assert io.sender.resolved[i] == e.sending && io.sender.resolved[i] in io.sender.resolved;
    } else {
      var k := i - |h.done|;
      MatchesAt(io.sender.serialized, h.live, k);
      assert io.sender.serialized[k].sending == e.sending && io.sender.serialized[k] in io.sender.serialized;
    }
  }

  /** The last byte of the `i`-th frame of this connection is on the wire. */
  ghost predicate OnWire(io: Io, encode: Encoder, i: nat) {
    var sent := Encoded(io.world.out, encode);
    i < |sent| && EndOfFrame(sent, i) <= |io.wire|
  }

  /** A frame of this connection with resolver `p` is entirely on the wire. */
  ghost predicate Delivered(io: Io, encode: Encoder, p: S.PromiseId) {
    exists i :: 0 <= i < |io.world.out| && OnWire(io, encode, i) && io.world.out[i].sending.resolver == Some(p)
  }

  /** A frame of this connection that answers for `p` is not. */
  ghost predicate Unfinished(io: Io, encode: Encoder, p: S.PromiseId) {
    exists i :: 0 <= i < |io.world.out| && !OnWire(io, encode, i) && P.RejectOwes(io.world.out[i].sending) == Some(p)
  }

  /** Where the loop keeps the `i`-th frame it has sent. */
  lemma SentAt(io: Io, h: History, encode: Encoder, i: nat)
    requires IoInv(io, h, encode) && !io.over && i < |io.world.out|
    ensures |io.world.out| == |io.sender.resolved| + |io.sender.serialized|
    ensures OnWire(io, encode, i) <==> i < |io.sender.resolved|
    ensures
      var k := |io.sender.resolved|;
      io.world.out[i].sending == if i < k then io.sender.resolved[i] else io.sender.serialized[i - k].sending
  {
    EncodedAt(io.world.out, encode, i);
    SendingsLength(h.done);
    MatchesLength(io.sender.serialized, h.live);
    ResolvedWithLastByte(io.sender, h, i);
    if i < |h.done| {
      SendingsAt(h.done, i);
    } else {
      MatchesAt(io.sender.serialized, h.live, i - |h.done|);
    }
  }

  lemma {:induction false} WholeLength(q: seq<Serialized>, live: seq<Sent>)
    requires Whole(q, live)
    ensures |q| == |live|
    decreases |q|
  {
    if q != [] {
      WholeLength(q[1..], live[1..]);
    }
  }

  lemma MatchesLength(q: seq<Serialized>, live: seq<Sent>)
    requires Matches(q, live)
    ensures |q| == |live|
  {
    if q != [] {
      WholeLength(q[1..], live[1..]);
    }
  }

  lemma {:induction false} EncodedLength(out: seq<S.FrameEntry>, encode: Encoder)
    ensures |Encoded(out, encode)| == |out|
    decreases |out|
  {
    if out != [] {
      EncodedLength(out[..|out| - 1], encode);
    }
  }

  lemma SentLength(io: Io, h: History, encode: Encoder)
    requires IoInv(io, h, encode) && !io.over
    ensures |io.world.out| == |io.sender.resolved| + |io.sender.serialized|
  {
    EncodedLength(io.world.out, encode);
    SendingsLength(h.done);
    MatchesLength(io.sender.serialized, h.live);
  }

  /** The loop's two lists tell what is on the wire. */
  lemma ListsTell(io: Io, h: History, encode: Encoder, p: S.PromiseId)
    requires IoInv(io, h, encode) && !io.over
    ensures WrittenFor(io.sender.resolved, p) <==> Delivered(io, encode, p)
    ensures InFlightFor(io.sender.serialized, p) <==> Unfinished(io, encode, p)
  {
    var out, k := io.world.out, |io.sender.resolved|;
    SentLength(io, h, encode);
    forall i | 0 <= i < |out|
      ensures OnWire(io, encode, i) <==> i < k
      ensures out[i].sending == if i < k then io.sender.resolved[i] else io.sender.serialized[i - k].sending
    {
      SentAt(io, h, encode, i);
    }
    if WrittenFor(io.sender.resolved, p) {
      var i :| 0 <= i < k && io.sender.resolved[i].resolver == Some(p);
      assert OnWire(io, encode, i) && out[i].sending.resolver == Some(p);
    }
    if InFlightFor(io.sender.serialized, p) {
      var j :| 0 <= j < |io.sender.serialized| && P.RejectOwes(io.sender.serialized[j].sending) == Some(p);
      assert !OnWire(io, encode, k + j) && P.RejectOwes(out[k + j].sending) == Some(p);
    }
  }

  // ---- what the loop says of the frames it was given ----

  /** Over a run, on this connection or a later one, a frame with resolver `p`
      was entirely on the wire when the connection was cleared, or is now. */
  ghost predicate EverDelivered(io: Io, ops: seq<IoOp>, encode: Encoder, p: S.PromiseId)
    requires Legal(io, ops, encode)
    decreases |ops|
  {
    if ops == [] then !io.over && Delivered(io, encode, p)
    else
      || (Clears(ops[0]) && Delivered(io, encode, p))
      || EverDelivered(Step(io, ops[0], encode), ops[1..], encode, p)
  }

  /** Over a run, a frame that answers for `p` was not, when its connection was
      cleared with that error. */
  ghost predicate EverCutOff(io: Io, ops: seq<IoOp>, encode: Encoder, p: S.PromiseId, error: S.ErrorId)
    requires Legal(io, ops, encode)
    decreases |ops|
  {
    ops != [] &&
    (|| (Clears(ops[0]) && ops[0].error == error && Unfinished(io, encode, p))
     || EverCutOff(Step(io, ops[0], encode), ops[1..], encode, p, error))
  }

  predicate Clears(op: IoOp) {
    op.Restart? || op.Quit?
  }

  /** The loop has told `p` that its frame was sent. */
  ghost predicate SaidSent(io: Io, p: S.PromiseId) {
    S.Settlement(p, S.Ok) in io.log || WrittenFor(io.sender.resolved, p)
  }

  /** Once the loop is left, its lists are empty. */
  ghost predicate Emptied(io: Io) {
    io.over ==> io.sender.resolved == [] && io.sender.serialized == []
  }

  lemma EmptiedStep(io: Io, op: IoOp, encode: Encoder)
    requires Enabled(io, op, encode) && Emptied(io)
    ensures
      var r := Step(io, op, encode);
      Emptied(r) && (!Clears(op) ==> r.log == io.log) && (Clears(op) ==> r.sender.resolved == [])
  {
  }

  /** What one clearing adds to the loop's log. */
  lemma ClearedLog(io: Io, h: History, op: IoOp, encode: Encoder, p: S.PromiseId)
    requires IoInv(io, h, encode) && Enabled(io, op, encode) && Clears(op)
    ensures
      var r := Step(io, op, encode);
      && (SaidSent(r, p) <==> S.Settlement(p, S.Ok) in io.log || Delivered(io, encode, p))
      && forall x :: S.Settlement(p, S.Err(x)) in r.log <==>
           S.Settlement(p, S.Err(x)) in io.log || (x == op.error && Unfinished(io, encode, p))
  {
    ClosingExact(io.sender, op.error, p);
    ListsTell(io, h, encode, p);
    var r := Step(io, op, encode);
    assert r.log == io.log + Closing(io.sender, op.error) && r.sender.resolved == [];
  }

  /** Over every run: the loop reports as sent exactly the frames whose last byte
      reached the wire, on whichever connection, and rejects exactly those that
      were cut off, each with the error its connection was cleared with. */
  lemma {:induction false} LoopOutcomes(io: Io, h: History, ops: seq<IoOp>, encode: Encoder, p: S.PromiseId, error: S.ErrorId)
    requires IoInv(io, h, encode) && Emptied(io) && Legal(io, ops, encode)
    ensures
      var r := Exec(io, ops, encode);
      && Emptied(r)
      && (SaidSent(r, p) <==> S.Settlement(p, S.Ok) in io.log || EverDelivered(io, ops, encode, p))
      && (S.Settlement(p, S.Err(error)) in r.log <==>
          S.Settlement(p, S.Err(error)) in io.log || EverCutOff(io, ops, encode, p, error))
    decreases |ops|
  {
    if ops == [] {
      if !io.over {
        ListsTell(io, h, encode, p);
      }
    } else {
      var op := ops[0];
      var io' := Step(io, op, encode);
      IoInvStep(io, h, op, encode);
      if Clears(op) {
        ClearedLog(io, h, op, encode, p);
      }
      EmptiedStep(io, op, encode);
      LoopOutcomes(io', NextHistory(io, h, op, encode), ops[1..], encode, p, error);
    }
  }

  ghost predicate GivesToCancel(op: IoOp, p: S.PromiseId) {
    op.Queue? && O.GivenToCancel(op.op, p)
  }

  lemma NoCancelIo(io: Io, op: IoOp, encode: Encoder, p: S.PromiseId)
    requires Enabled(io, op, encode) && O.NoCancel(io.world, p) && !GivesToCancel(op, p)
    ensures O.NoCancel(Step(io, op, encode).world, p)
  {
    match op
    case Queue(o) => O.NoCancelStep(io.world, o, p);
    case EmitHeld => O.NoCancelStep(io.world, Verdict(io.sender.ring, encode(io.world.hand.value.frame)), p);
    case _ =>
  }

  lemma {:induction false} NoCancelRun(io: Io, ops: seq<IoOp>, encode: Encoder, p: S.PromiseId)
    requires Legal(io, ops, encode) && O.NoCancel(io.world, p) && (forall op :: op in ops ==> !GivesToCancel(op, p))
    ensures O.NoCancel(Exec(io, ops, encode).world, p)
    decreases |ops|
  {
    if ops != [] {
      assert ops[0] in ops;
      NoCancelIo(io, ops[0], encode, p);
      NoCancelRun(Step(io, ops[0], encode), ops[1..], encode, p);
    }
  }

  /** A promise is told of success by nobody else: over every run of scheduler
      and loop together, a promise not passed in for a basic.cancel is resolved
      if and only if the last byte of a frame with that resolver was written, on
      whichever connection; whatever else it is settled with is an error. */
  lemma SuccessMeansWritten(io: Io, ops: seq<IoOp>, encode: Encoder, p: S.PromiseId)
    requires Fresh(io) && Legal(io, ops, encode) && (forall op :: op in ops ==> !GivesToCancel(op, p))
    requires O.NoCancel(io.world, p) && S.Settlement(p, S.Ok) !in io.log
    ensures
      var r := Exec(io, ops, encode);
      S.Settlement(p, S.Ok) in r.world.inner.settled || SaidSent(r, p) <==> EverDelivered(io, ops, encode, p)
  {
    NoCancelRun(io, ops, encode, p);
    LoopOutcomes(io, History([], [], []), ops, encode, p, 0);
  }

  // ---- every run ----

  /** Something answers for `p` to the end, or did and was refused. */
  ghost predicate Kept(io: Io, p: S.PromiseId) {
    || P.Safe(Unsent(io.world), p, true)
    || Stranded(io, p)
    || P.Settled(io.log, p)
    || (!io.over && P.HeldIn(io.world.out, p, true))
  }

  ghost predicate Gives(op: IoOp, p: S.PromiseId) {
    op.Queue? && P.Given(op.op, p, true)
  }

  ghost predicate Hands(io: Io, op: IoOp, p: S.PromiseId) {
    op.Queue? && P.HandsOver(io.world, op.op, p)
  }

  lemma UnsentStep(w: R.World, o: R.Op)
    requires R.Enabled(w, o) && !o.DoSend? && !o.DoLose?
    ensures R.Enabled(Unsent(w), o) && R.Step(Unsent(w), o) == Unsent(R.Step(w, o))
    ensures R.Step(w, o).out == w.out && R.Step(w, o).lost == w.lost
  {
  }

  lemma KeptQueue(io: Io, o: R.Op, encode: Encoder, p: S.PromiseId)
    requires Enabled(io, Queue(o), encode) && (Kept(io, p) || P.Given(o, p, true)) && !P.HandsOver(io.world, o, p)
    ensures Kept(Step(io, Queue(o), encode), p)
  {
    UnsentStep(io.world, o);
    if P.Safe(Unsent(io.world), p, true) || P.Given(o, p, true) {
      UnsentSafe(io.world, o, p);
    } else {
      KeptAside(io, Step(io, Queue(o), encode), p);
    }
  }

  lemma UnsentSafe(w: R.World, o: R.Op, p: S.PromiseId)
    requires R.Enabled(w, o) && !o.DoSend? && !o.DoLose? && !P.HandsOver(w, o, p)
    requires P.Safe(Unsent(w), p, true) || P.Given(o, p, true)
    ensures P.Safe(Unsent(R.Step(w, o)), p, true)
  {
    UnsentStep(w, o);
    P.SafeStep(Unsent(w), o, p, true);
  }

  /** What the loop has on record does not depend on the queues. */
  lemma KeptAside(io: Io, r: Io, p: S.PromiseId)
    requires Kept(io, p) && !P.Safe(Unsent(io.world), p, true)
    requires r.gone == io.gone && r.log == io.log && r.over == io.over
    requires r.world.out == io.world.out && r.world.lost == io.world.lost
    ensures Kept(r, p)
  {
  }

  lemma KeptEmit(io: Io, encode: Encoder, p: S.PromiseId)
    requires Enabled(io, EmitHeld, encode) && Kept(io, p)
    ensures Kept(Step(io, EmitHeld, encode), p)
  {
    var e := io.world.hand.value;
    var r := Step(io, EmitHeld, encode).world;
    var op := Verdict(io.sender.ring, encode(e.frame));
    assert op.DoSend? ==> e in r.out && forall x :: x in io.world.out ==> x in r.out;
    assert op.DoRetry? ==> e in r.inner.retry && forall x :: x in io.world.inner.retry ==> x in r.inner.retry;
  }

  lemma KeptClose(io: Io, h: History, op: IoOp, encode: Encoder, p: S.PromiseId)
    requires IoInv(io, h, encode) && (op.Restart? || op.Quit?) && Enabled(io, op, encode) && Kept(io, p)
    ensures Kept(Step(io, op, encode), p)
  {
    SettledConcat(io.log, Closing(io.sender, op.error), p);
    ClosingExact(io.sender, op.error, p);
    if P.HeldIn(io.world.out, p, true) {
      SentAnswered(io, h, encode, p);
    } else if Stranded(io, p) {
      StrandedLater(io, op, encode, p);
    }
  }

  /** A lost frame stays on record. */
  lemma StrandedLater(io: Io, op: IoOp, encode: Encoder, p: S.PromiseId)
    requires (op.Restart? || op.Quit?) && Enabled(io, op, encode) && Stranded(io, p)
    ensures Stranded(Step(io, op, encode), p)
  {
    var r := Step(io, op, encode);
    if op.Restart? {
      assert r.gone == io.gone + R.Taken(io.world);
      if P.HeldIn(io.gone, p, true) {
        var e :| e in io.gone && P.Answers(e, true) == Some(p);
        assert e in r.gone;
      } else {
        assert io.world.lost.value in r.gone;
      }
    }
  }

  lemma KeptStep(io: Io, h: History, op: IoOp, encode: Encoder, p: S.PromiseId)
    requires IoInv(io, h, encode) && Enabled(io, op, encode)
    requires (Kept(io, p) || Gives(op, p)) && !Hands(io, op, p)
    ensures Kept(Step(io, op, encode), p)
  {
    match op
    case Queue(o) => KeptQueue(io, o, encode, p);
    case EmitHeld => KeptEmit(io, encode, p);
    case WriteSome(_) =>
    case Enlarge(_) =>
    case Restart(_, _) => KeptClose(io, h, op, encode, p);
    case Quit(_) => KeptClose(io, h, op, encode, p);
  }

  ghost predicate EverGiven(ops: seq<IoOp>, p: S.PromiseId) {
    exists op :: op in ops && Gives(op, p)
  }

  ghost predicate NeverHanded(io: Io, ops: seq<IoOp>, encode: Encoder, p: S.PromiseId)
    requires Legal(io, ops, encode)
    decreases |ops|
  {
    ops == [] || (!Hands(io, ops[0], p) && NeverHanded(Step(io, ops[0], encode), ops[1..], encode, p))
  }

  lemma {:induction false} KeptExec(io: Io, h: History, ops: seq<IoOp>, encode: Encoder, p: S.PromiseId)
    requires IoInv(io, h, encode) && Legal(io, ops, encode) && NeverHanded(io, ops, encode, p)
    requires Kept(io, p) || EverGiven(ops, p)
    ensures Kept(Exec(io, ops, encode), p)
    decreases |ops|
  {
    if ops != [] {
      var op := ops[0];
      if Kept(io, p) || Gives(op, p) {
        KeptStep(io, h, op, encode, p);
      } else {
        var x :| x in ops && Gives(x, p);
        assert x in ops[1..];
      }
      IoInvStep(io, h, op, encode);
      KeptExec(Step(io, op, encode), NextHistory(io, h, op, encode), ops[1..], encode, p);
    }
  }

  // ---- the end of the loop ----

  /** `drop_pending` settles exactly the promises that something held or awaited. */
  lemma DropLogExact(s: S.Inner, error: S.ErrorId, order: seq<S.ChannelId>, p: S.PromiseId)
    requires S.Enumerates(order, s.replies)
    ensures P.Settled(P.DropLog(s, error, order), p) <==> P.Queued(s, p, false) || P.Awaited(s, p)
  {
    if P.Queued(s, p, false) {
      P.QueuedSettles(s, error, order, p, false);
    }
    if P.Awaited(s, p) {
      P.AwaitedSettles(s, error, order, p);
    }
    if P.Settled(P.DropLog(s, error, order), p) {
      var o :| S.Settlement(p, o) in P.DropLog(s, error, order);
      var x := S.Settlement(p, o);
      if x in S.DropFrames(s.retry, error) {
        P.DropFramesOnly(s.retry, error, x);
      } else if x in S.DropFrames(s.publish, error) {
        P.DropFramesOnly(s.publish, error, x);
      } else if x in S.DropFrames(s.frames, error) {
        P.DropFramesOnly(s.frames, error, x);
      } else if x in S.DropFrames(s.lowPrio, error) {
        P.DropFramesOnly(s.lowPrio, error, x);
      } else {
        O.CancelTableIff(s.replies, error, order, x);
      }
    }
  }

  /** Leaving the loop settles exactly the promises that are settled already or
      answered for by a frame in the send buffer: the loop's word is success for
      frames entirely written, and the error for those that are not. */
  lemma QuitExact(io: Io, encode: Encoder, error: S.ErrorId, p: S.PromiseId)
    requires Enabled(io, Quit(error), encode)
    ensures
      var r := Step(io, Quit(error), encode);
      && (Finished(r, p) <==> Closed(io, p))
      && (S.Settlement(p, S.Ok) in r.log <==> SaidSent(io, p))
      && forall x :: S.Settlement(p, S.Err(x)) in r.log <==>
           S.Settlement(p, S.Err(x)) in io.log || (x == error && InFlightFor(io.sender.serialized, p))
  {
    SettledConcat(io.log, Closing(io.sender, error), p);
    ClosingExact(io.sender, error, p);
    assert Step(io, Quit(error), encode).log == io.log + Closing(io.sender, error);
  }

  /** A queue or the reply table holds on to `p`. */
  ghost predicate Waiting(io: Io, p: S.PromiseId) {
    P.Queued(io.world.inner, p, true) || P.Awaited(io.world.inner, p)
  }

  /** A promise kept that nothing has settled is held by the scheduler or was
      stranded, unless its frame is in hand. */
  lemma KeptOpen(io: Io, h: History, encode: Encoder, p: S.PromiseId)
    requires IoInv(io, h, encode) && Kept(io, p) && io.world.hand.None?
    ensures (!io.over && Closed(io, p)) || Finished(io, p) || Waiting(io, p) || Stranded(io, p)
  {
    if !io.over && P.HeldIn(io.world.out, p, true) {
      SentAnswered(io, h, encode, p);
    }
  }

  /** What becomes of every promise, end to end: over every run of the loop, a
      promise given to the scheduler, unless its reply was handed to the caller,
      is settled by the time the loop is left if and only if it is not a queue,
      an awaited reply or a refused frame that is all that holds it; and the loop
      itself says success exactly of what was written, and the error of the end
      exactly of what it cut off with that error. */
  lemma PromisesKept(io: Io, ops: seq<IoOp>, encode: Encoder, error: S.ErrorId, p: S.PromiseId)
    requires Fresh(io) && Legal(io, ops, encode) && EverGiven(ops, p) && NeverHanded(io, ops, encode, p)
    requires Enabled(Exec(io, ops, encode), Quit(error), encode)
    ensures
      var r := Exec(io, ops, encode);
      var left := Step(r, Quit(error), encode);
      && (Finished(left, p) <==> Closed(r, p))
      && (Closed(r, p) || Waiting(r, p) || Stranded(r, p))
      && (S.Settlement(p, S.Ok) in left.log <==> S.Settlement(p, S.Ok) in io.log || EverDelivered(io, ops, encode, p))
      && (S.Settlement(p, S.Err(error)) in left.log <==>
            || S.Settlement(p, S.Err(error)) in io.log
            || EverCutOff(io, ops, encode, p, error) || Unfinished(r, encode, p))
  {
    var h0 := History([], [], []);
    KeptExec(io, h0, ops, encode, p);
    var r := Exec(io, ops, encode);
    IoInvExec(io, h0, ops, encode);
    var h := HistoryAfter(io, h0, ops, encode);
    QuitExact(r, encode, error, p);
    KeptOpen(r, h, encode, p);
    LoopOutcomes(io, h0, ops, encode, p, error);
    ListsTell(r, h, encode, p);
  }

  // ---- once everything was dropped ----

  ghost predicate LiftsPoison(op: IoOp) {
    op.Queue? && op.op.DoDropPoison?
  }

  lemma PoisonedIoStep(io: Io, op: IoOp, encode: Encoder, held: Option<S.FrameEntry>)
    requires Enabled(io, op, encode) && P.Poisoned(io.world, held) && !LiftsPoison(op)
    ensures P.Poisoned(Step(io, op, encode).world, held)
  {
    match op
    case Queue(o) => P.PoisonedState(io.world, o, held);
    case EmitHeld => P.PoisonedState(io.world, Verdict(io.sender.ring, encode(io.world.hand.value.frame)), held);
    case _ =>
  }

  lemma {:induction false} PoisonedIoRun(io: Io, ops: seq<IoOp>, encode: Encoder, held: Option<S.FrameEntry>)
    requires Legal(io, ops, encode) && P.Poisoned(io.world, held) && (forall op :: op in ops ==> !LiftsPoison(op))
    ensures P.Poisoned(Exec(io, ops, encode).world, held)
    decreases |ops|
  {
    if ops != [] {
      assert ops[0] in ops;
      PoisonedIoStep(io, ops[0], encode, held);
      PoisonedIoRun(Step(io, ops[0], encode), ops[1..], encode, held);
    }
  }

  /** The frame in hand when everything was dropped was put back since, and
      answers for `p`. */
  ghost predicate PutBack(held: Option<S.FrameEntry>, io: Io, p: S.PromiseId) {
    held.Some? && io.world.inner.retry == [held.value] && P.Answers(held.value, true) == Some(p)
  }

  lemma PoisonedWaiting(io: Io, held: Option<S.FrameEntry>, p: S.PromiseId)
    requires P.Poisoned(io.world, held)
    ensures Waiting(io, p) <==> PutBack(held, io, p)
  {
    if PutBack(held, io, p) {
      assert held.value in io.world.inner.retry;
    }
  }

  /** Once everything was dropped, and until the poison is lifted, what the end
      of the loop leaves open is exactly what a refused frame held, or the frame
      in hand at the drop if it was put back: no matter what was given before or
      since, and on how many connections. */
  lemma PromisesAfterDrop(io: Io, before: seq<IoOp>, error: S.ErrorId, order: seq<S.ChannelId>, after: seq<IoOp>,
                          encode: Encoder, quitError: S.ErrorId, p: S.PromiseId)
    requires Fresh(io) && Legal(io, before, encode) && NeverHanded(io, before, encode, p)
    requires Enabled(Exec(io, before, encode), Queue(R.DoDropPending(error, order)), encode)
    requires
      var dropped := Step(Exec(io, before, encode), Queue(R.DoDropPending(error, order)), encode);
      && Legal(dropped, after, encode) && NeverHanded(dropped, after, encode, p)
      && Enabled(Exec(dropped, after, encode), Quit(quitError), encode)
    requires EverGiven(before, p) || EverGiven(after, p)
    requires forall op :: op in after ==> !LiftsPoison(op)
    ensures
      var mid := Exec(io, before, encode);
      var r := Exec(Step(mid, Queue(R.DoDropPending(error, order)), encode), after, encode);
      Finished(Step(r, Quit(quitError), encode), p) <==>
      !(!Closed(r, p) && (Stranded(r, p) || PutBack(mid.world.hand, r, p)))
  {
    var h := History([], [], []);
    KeptSoFar(io, before, encode, p);
    FromDrop(Exec(io, before, encode), HistoryAfter(io, h, before, encode), error, order, after, encode, quitError, p);
  }

  lemma KeptSoFar(io: Io, ops: seq<IoOp>, encode: Encoder, p: S.PromiseId)
    requires Fresh(io) && Legal(io, ops, encode) && NeverHanded(io, ops, encode, p)
    ensures IoInv(Exec(io, ops, encode), HistoryAfter(io, History([], [], []), ops, encode), encode)
    ensures EverGiven(ops, p) ==> Kept(Exec(io, ops, encode), p)
  {
    IoInvExec(io, History([], [], []), ops, encode);
    if EverGiven(ops, p) {
      KeptExec(io, History([], [], []), ops, encode, p);
    }
  }

  lemma FromDrop(io: Io, h: History, error: S.ErrorId, order: seq<S.ChannelId>, after: seq<IoOp>, encode: Encoder,
                 quitError: S.ErrorId, p: S.PromiseId)
    requires IoInv(io, h, encode) && Enabled(io, Queue(R.DoDropPending(error, order)), encode)
    requires
      var dropped := Step(io, Queue(R.DoDropPending(error, order)), encode);
      && Legal(dropped, after, encode) && NeverHanded(dropped, after, encode, p)
      && Enabled(Exec(dropped, after, encode), Quit(quitError), encode)
    requires (Kept(io, p) || EverGiven(after, p)) && forall op :: op in after ==> !LiftsPoison(op)
    ensures
      var r := Exec(Step(io, Queue(R.DoDropPending(error, order)), encode), after, encode);
      Finished(Step(r, Quit(quitError), encode), p) <==>
      !(!Closed(r, p) && (Stranded(r, p) || PutBack(io.world.hand, r, p)))
  {
    DropKeeps(io, h, error, order, encode, p);
    AfterDrop(Step(io, Queue(R.DoDropPending(error, order)), encode), h, after, encode, io.world.hand, quitError, p);
  }

  lemma DropKeeps(io: Io, h: History, error: S.ErrorId, order: seq<S.ChannelId>, encode: Encoder, p: S.PromiseId)
    requires IoInv(io, h, encode) && Enabled(io, Queue(R.DoDropPending(error, order)), encode)
    ensures
      var dropped := Step(io, Queue(R.DoDropPending(error, order)), encode);
      && IoInv(dropped, h, encode) && P.Poisoned(dropped.world, io.world.hand)
      && (Kept(io, p) ==> Kept(dropped, p))
  {
    var drop := Queue(R.DoDropPending(error, order));
    IoInvStep(io, h, drop, encode);
    P.DropPoisons(io.world, error, order);
    if Kept(io, p) {
      KeptStep(io, h, drop, encode, p);
    }
  }

  lemma AfterDrop(io: Io, h: History, ops: seq<IoOp>, encode: Encoder, held: Option<S.FrameEntry>,
                  error: S.ErrorId, p: S.PromiseId)
    requires IoInv(io, h, encode) && Legal(io, ops, encode) && NeverHanded(io, ops, encode, p)
    requires P.Poisoned(io.world, held) && (forall op :: op in ops ==> !LiftsPoison(op))
    requires Kept(io, p) || EverGiven(ops, p)
    requires Enabled(Exec(io, ops, encode), Quit(error), encode)
    ensures
      var r := Exec(io, ops, encode);
      Finished(Step(r, Quit(error), encode), p) <==> !(!Closed(r, p) && (Stranded(r, p) || PutBack(held, r, p)))
  {
    KeptExec(io, h, ops, encode, p);
    PoisonedIoRun(io, ops, encode, held);
    var r := Exec(io, ops, encode);
    IoInvExec(io, h, ops, encode);
    var h' := HistoryAfter(io, h, ops, encode);
    QuitExact(r, encode, error, p);
    KeptOpen(r, h', encode, p);
    PoisonedWaiting(r, held, p);
  }

  // ---- the promises that are forgotten ----

  lemma {:induction false} ExecSnoc(io: Io, ops: seq<IoOp>, op: IoOp, encode: Encoder)
    requires Legal(io, ops, encode) && Enabled(Exec(io, ops, encode), op, encode)
    ensures Legal(io, ops + [op], encode) && Exec(io, ops + [op], encode) == Step(Exec(io, ops, encode), op, encode)
    decreases |ops|
  {
    if ops == [] {
      assert ops + [op] == [op] && [op][1..] == [];
    } else {
      ExecSnoc(Step(io, ops[0], encode), ops[1..], op, encode);
      assert (ops + [op])[1..] == ops[1..] + [op];
    }
  }

  /** Generators of two bytes, except that headers fail. */
  function HeaderFails(f: S.Frame): (g: Gen) {
    if f.Header? then Fails else Raw([1, 1])
  }

  function TwoBytes(f: S.Frame): (g: Gen) {
    Raw([1, 1])
  }

  /** A new loop with a buffer of three cells. */
  const THREE_CELLS := Io(R.START, [], [], true, false, Sender(Linear([0, 0, 0], 0), [], []), [], [])

  lemma ThreeCellsFresh()
    ensures Fresh(THREE_CELLS)
  {
    R.InvStart();
    assert THREE_CELLS.past + THREE_CELLS.world.out == [];
  }

  /** A publish without a payload, its method popped and generated, its header
      left with the promise. */
  lemma MethodEmitted(promise: S.PromiseId, encode: Encoder) returns (ops: seq<IoOp>)
    requires forall f: S.Frame :: f.Method? ==> encode(f) == Raw([1, 1])
    ensures ops == [Queue(R.DoPublish(1, [], 0, promise)), Queue(R.DoPop(true)), EmitHeld]
    ensures Legal(THREE_CELLS, ops, encode)
    ensures
      var r := Exec(THREE_CELLS, ops, encode);
      && r.world.inner == S.Inner([LastHeader(promise)], [], [], [], map[], None, map[], [])
      && r.world.hand.None? && r.world.lost.None? && r.gone == [] && r.log == [] && !r.over
      && r.sender.resolved == [] && r.sender.ring.Valid() && |r.sender.ring.cells| == 3 && r.sender.ring.available == 2
      && r.sender.serialized == [Serialized(2, S.FrameSending(None, None))]
  {
    ops := MethodPopped(promise, encode);
    var io := Exec(THREE_CELLS, ops, encode);
    assert io.world.hand.value.frame.Method?;
    assert [1, 1][..2] == [1, 1];
    assert Run(io.sender.ring, Raw([1, 1])).ok;
    ExecSnoc(THREE_CELLS, ops, EmitHeld, encode);
    ops := ops + [EmitHeld];
  }

  lemma MethodPopped(promise: S.PromiseId, encode: Encoder) returns (ops: seq<IoOp>)
    ensures ops == [Queue(R.DoPublish(1, [], 0, promise)), Queue(R.DoPop(true))]
    ensures Legal(THREE_CELLS, ops, encode)
    ensures Exec(THREE_CELLS, ops, encode) ==
            Io(R.World(S.Inner([LastHeader(promise)], [], [], [], map[], None, map[], []),
                       Some(S.FrameEntry(S.Method(1, S.Part(0, 0)), S.FrameSending(None, None))), None, [], 1),
               [], [], true, false, THREE_CELLS.sender, [], [])
  {
    var _ := R.StartedPublish(promise);
    var a, b := R.DoPublish(1, [], 0, promise), R.DoPop(true);
    ExecSnoc(THREE_CELLS, [], Queue(a), encode);
    ExecSnoc(THREE_CELLS, [Queue(a)], Queue(b), encode);
    assert [] + [Queue(a)] == [Queue(a)] && [Queue(a)] + [Queue(b)] == [Queue(a), Queue(b)];
    R.ExecSnoc(R.START, [], a);
    R.ExecSnoc(R.START, [a], b);
    assert [] + [a] == [a] && [a] + [b] == [a, b];
    ops := [Queue(a), Queue(b)];
  }

  /** The last frame of that publish, with its promise. */
  function LastHeader(promise: S.PromiseId): (e: S.FrameEntry) {
    S.FrameEntry(S.Header(1, 0, S.Part(0, 1)), S.FrameSending(None, Some(promise)))
  }

  /** The header in hand, the method in the buffer, and nothing settled. */
  ghost predicate HeaderInHand(io: Io, promise: S.PromiseId) {
    && io.world.hand == Some(LastHeader(promise)) && io.world.lost.None? && !io.over
    && io.world.inner.settled == [] && io.log == [] && io.sender.resolved == []
    && io.sender.ring.Valid() && |io.sender.ring.cells| == 3 && io.sender.ring.available == 2
    && io.sender.serialized == [Serialized(2, S.FrameSending(None, None))]
  }

  lemma RefusedStep(io: Io, promise: S.PromiseId, error: S.ErrorId)
    requires HeaderInHand(io, promise)
    ensures Enabled(io, EmitHeld, HeaderFails)
    ensures
      var r := Step(io, EmitHeld, HeaderFails);
      Enabled(r, Quit(error), HeaderFails) && !Closed(r, promise)
  {
    var g := HeaderFails(LastHeader(promise).frame);
    assert g == Fails && Verdict(io.sender.ring, g) == R.DoLose;
    assert Emit(io.sender, g, LastHeader(promise).sending).serialized == io.sender.serialized;
  }

  lemma PutBackStep(io: Io, promise: S.PromiseId, error: S.ErrorId)
    requires HeaderInHand(io, promise)
    ensures Enabled(io, EmitHeld, TwoBytes)
    ensures
      var r := Step(io, EmitHeld, TwoBytes);
      r.world.lost.None? && Enabled(r, Quit(error), TwoBytes) && !Closed(r, promise)
  {
    var g := TwoBytes(LastHeader(promise).frame);
    assert !Run(io.sender.ring, g).ok && Verdict(io.sender.ring, g) == R.DoRetry;
    assert Emit(io.sender, g, LastHeader(promise).sending).serialized == io.sender.serialized;
  }

  lemma CloseStep(io: Io, promise: S.PromiseId, canceler: S.PromiseId, error: S.ErrorId)
    requires promise != canceler && io.sender == THREE_CELLS.sender
    requires io.world.inner.settled == [] && io.world.lost.None? && io.log == [] && !io.over
    requires io.world.hand == Some(S.FrameEntry(S.Method(0, S.Own), S.FrameSending(Some(canceler), Some(canceler))))
    ensures Enabled(io, EmitHeld, TwoBytes)
    ensures
      var r := Step(io, EmitHeld, TwoBytes);
      r.world.lost.None? && Enabled(r, Quit(error), TwoBytes) && !Closed(r, promise)
  {
    assert [1, 1][..2] == [1, 1];
    assert Run(io.sender.ring, Raw([1, 1])).ok;
    assert Step(io, EmitHeld, TwoBytes).sender.serialized == [Serialized(2, S.FrameSending(Some(canceler), Some(canceler)))];
  }

  /** Then its header popped. */
  lemma HeaderPopped(promise: S.PromiseId, encode: Encoder) returns (ops: seq<IoOp>)
    requires forall f: S.Frame :: f.Method? ==> encode(f) == Raw([1, 1])
    ensures ops == [Queue(R.DoPublish(1, [], 0, promise)), Queue(R.DoPop(true)), EmitHeld, Queue(R.DoPop(true))]
    ensures Legal(THREE_CELLS, ops, encode)
    ensures
      var r := Exec(THREE_CELLS, ops, encode);
      HeaderInHand(r, promise) && r.world.inner == S.Inner([], [], [], [], map[], None, map[], [])
  {
    ops := MethodEmitted(promise, encode);
    ExecSnoc(THREE_CELLS, ops, Queue(R.DoPop(true)), encode);
    ops := ops + [Queue(R.DoPop(true))];
    assert [LastHeader(promise)][1..] == [];
  }

  /** The run after one more step leaves `p` open at the end. */
  lemma StaysOpen(ops: seq<IoOp>, op: IoOp, encode: Encoder, error: S.ErrorId, p: S.PromiseId)
    requires Legal(THREE_CELLS, ops, encode) && Enabled(Exec(THREE_CELLS, ops, encode), op, encode)
    requires
      var r := Step(Exec(THREE_CELLS, ops, encode), op, encode);
      Enabled(r, Quit(error), encode) && !Closed(r, p)
    ensures Legal(THREE_CELLS, ops + [op], encode)
    ensures
      var r := Exec(THREE_CELLS, ops + [op], encode);
      && r == Step(Exec(THREE_CELLS, ops, encode), op, encode)
      && Enabled(r, Quit(error), encode) && !Finished(Step(r, Quit(error), encode), p)
  {
    ExecSnoc(THREE_CELLS, ops, op, encode);
    QuitExact(Step(Exec(THREE_CELLS, ops, encode), op, encode), encode, error, p);
  }

  /** The header is refused, and nothing settles its promise. */
  lemma RefusedForgotten(promise: S.PromiseId, error: S.ErrorId) returns (ops: seq<IoOp>)
    ensures ops == [Queue(R.DoPublish(1, [], 0, promise)), Queue(R.DoPop(true)), EmitHeld, Queue(R.DoPop(true)), EmitHeld]
    ensures Fresh(THREE_CELLS) && Legal(THREE_CELLS, ops, HeaderFails)
    ensures
      var r := Exec(THREE_CELLS, ops, HeaderFails);
      Enabled(r, Quit(error), HeaderFails) && !Finished(Step(r, Quit(error), HeaderFails), promise)
  {
    ThreeCellsFresh();
    ops := HeaderPopped(promise, HeaderFails);
    RefusedStep(Exec(THREE_CELLS, ops, HeaderFails), promise, error);
    StaysOpen(ops, EmitHeld, HeaderFails, error, promise);
    ops := ops + [EmitHeld];
  }

  /** Everything is dropped while the header is in hand. */
  lemma DroppedInHand(promise: S.PromiseId, error: S.ErrorId) returns (ops: seq<IoOp>)
    ensures ops == [Queue(R.DoPublish(1, [], 0, promise)), Queue(R.DoPop(true)), EmitHeld, Queue(R.DoPop(true)),
                    Queue(R.DoDropPending(error, []))]
    ensures Legal(THREE_CELLS, ops, TwoBytes)
    ensures HeaderInHand(Exec(THREE_CELLS, ops, TwoBytes), promise)
  {
    ops := HeaderPopped(promise, TwoBytes);
    ExecSnoc(THREE_CELLS, ops, Queue(R.DoDropPending(error, [])), TwoBytes);
    ops := ops + [Queue(R.DoDropPending(error, []))];
  }

  /** There is no room for that header, so it is put back, and its promise stays
      open. */
  lemma PutBackForgotten(promise: S.PromiseId, error: S.ErrorId) returns (ops: seq<IoOp>)
    ensures ops == [Queue(R.DoPublish(1, [], 0, promise)), Queue(R.DoPop(true)), EmitHeld, Queue(R.DoPop(true)),
                    Queue(R.DoDropPending(error, [])), EmitHeld]
    ensures Fresh(THREE_CELLS) && Legal(THREE_CELLS, ops, TwoBytes)
    ensures
      var r := Exec(THREE_CELLS, ops, TwoBytes);
      && r.world.lost.None? && Enabled(r, Quit(error), TwoBytes)
      && !Finished(Step(r, Quit(error), TwoBytes), promise)
  {
    ThreeCellsFresh();
    ops := DroppedInHand(promise, error);
    PutBackStep(Exec(THREE_CELLS, ops, TwoBytes), promise, error);
    StaysOpen(ops, EmitHeld, TwoBytes, error, promise);
    ops := ops + [EmitHeld];
  }

  /** connection.close, as its caller pushes it. */
  function Close(canceler: S.PromiseId): (op: R.Op) {
    R.DoPush(0, S.Method(0, S.Own), canceler, None, Some(canceler))
  }

  /** A publish waits for its turn, a close overtakes it. */
  lemma CloseOvertakes(promise: S.PromiseId, canceler: S.PromiseId) returns (ops: seq<IoOp>)
    ensures ops == [Queue(R.DoPublish(1, [], 0, promise)), Queue(Close(canceler)), Queue(R.DoPop(true))]
    ensures Legal(THREE_CELLS, ops, TwoBytes)
    ensures
      var r := Exec(THREE_CELLS, ops, TwoBytes);
      && r.world.inner.settled == [] && r.world.out == [] && r.world.lost.None? && r.log == [] && !r.over
      && r.world.hand == Some(S.FrameEntry(S.Method(0, S.Own), S.FrameSending(Some(canceler), Some(canceler))))
      && r.sender == THREE_CELLS.sender
  {
    var a := Queue(R.DoPublish(1, [], 0, promise));
    ExecSnoc(THREE_CELLS, [], a, TwoBytes);
    ops := [] + [a];
    ExecSnoc(THREE_CELLS, ops, Queue(Close(canceler)), TwoBytes);
    ops := ops + [Queue(Close(canceler))];
    ExecSnoc(THREE_CELLS, ops, Queue(R.DoPop(true)), TwoBytes);
    ops := ops + [Queue(R.DoPop(true))];
  }

  /** The close goes through, the loop is left, and nothing settles the publish. */
  lemma CloseForgets(promise: S.PromiseId, canceler: S.PromiseId, error: S.ErrorId) returns (ops: seq<IoOp>)
    requires promise != canceler
    ensures ops == [Queue(R.DoPublish(1, [], 0, promise)), Queue(Close(canceler)), Queue(R.DoPop(true)), EmitHeld]
    ensures Fresh(THREE_CELLS) && Legal(THREE_CELLS, ops, TwoBytes)
    ensures
      var r := Exec(THREE_CELLS, ops, TwoBytes);
      && r.world.lost.None? && Enabled(r, Quit(error), TwoBytes)
      && !Finished(Step(r, Quit(error), TwoBytes), promise)
  {
    ThreeCellsFresh();
    ops := CloseOvertakes(promise, canceler);
    CloseStep(Exec(THREE_CELLS, ops, TwoBytes), promise, canceler, error);
    StaysOpen(ops, EmitHeld, TwoBytes, error, promise);
    ops := ops + [EmitHeld];
  }
}
