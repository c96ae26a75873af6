/** The I/O loop's sending side put together: the scheduler decides which frame
    leaves next, a generator writes it into the send buffer, the socket takes
    bytes from there (`serialize`, `write_to_stream` in src/io_loop.rs). */
module IoLoop {
  import opened Bytes
  import opened RingBuffer
  import opened Generator
  import S = Scheduler
  import R = FrameRuns
  import opened OutgoingBytes

  type Encoder = S.Frame -> Gen

  /** Generating leaves the accounting in step, whether it succeeds or not: no
      full turn, and a size that is neither nothing nor too large to store. */
  predicate Fits(l: Linear, g: Gen)
    requires l.Valid()
  {
    NoFullTurn(l, g) && (Run(l, g).ok ==> 0 < |Encoding(g)| < FRAME_SIZE_LIMIT)
  }

  /** The loop, its scheduler and the socket.  `world.out` is what was sent on
      this connection, `past` what was sent or lost on earlier ones, `gone` the
      frames among them that were lost, and `clean` says whether this connection
      began with a frame that needs nothing before it.  `log` is what the loop
      itself has settled on connections that are over; `over` is set when it is
      left. */
  datatype Io = Io(world: R.World, past: seq<S.FrameEntry>, gone: seq<S.FrameEntry>, clean: bool, over: bool,
                   sender: Sender, wire: seq<byte>, log: S.Log)

  datatype IoOp =
    | Queue(op: R.Op)       // any other thread, and `pop`
    | EmitHeld              // generate the popped frame, then keep, retry or lose it
    | WriteSome(n: nat)     // the socket takes `n` bytes
    | Enlarge(cells: seq<byte>)                     // the send buffer grows
    | Restart(cells: seq<byte>, error: S.ErrorId)   // clear, reset, a new connection
    | Quit(error: S.ErrorId)                        // clear, and leave the loop

  ghost predicate Enabled(io: Io, op: IoOp, encode: Encoder) {
    var ring := io.sender.ring;
    && ring.Valid()
    && match op
       case Queue(o) =>
         R.Enabled(io.world, o) && !o.DoSend? && !o.DoRetry? && !o.DoLose? && (o.DoPop? ==> !io.over)
       case EmitHeld =>
         && !io.over && io.world.hand.Some? && io.world.lost.None?
         && Fits(ring, encode(io.world.hand.value.frame))
       case WriteSome(n) => !io.over && io.world.lost.None? && n <= ring.available && n < FRAME_SIZE_LIMIT
       case Enlarge(cells) => !io.over && |cells| >= |ring.cells| && cells[..ring.available] == ring.Contents()
       case Restart(cells, _) => !io.over && io.world.hand.None? && |cells| == |ring.cells|
       case Quit(_) => !io.over && io.world.hand.None?
  }

  function Resolves(q: seq<S.FrameSending>): (log: S.Log) {
    if q == [] then [] else Resolves(q[..|q| - 1]) + S.Resolve(q[|q| - 1])
  }

  function Rejects(q: seq<Serialized>, error: S.ErrorId): (log: S.Log) {
    if q == [] then [] else Rejects(q[..|q| - 1], error) + S.Reject(q[|q| - 1].sending, error)
  }

  /** What the loop has settled on a connection once it is cleared. */
  function Closing(s: Sender, error: S.ErrorId): (log: S.Log) {
    Resolves(s.resolved) + Rejects(s.serialized, error)
  }

  /** What becomes of the popped frame. */
  function Verdict(l: Linear, g: Gen): (op: R.Op)
    requires l.Valid()
  {
    if Run(l, g).ok then R.DoSend else if Refused(l, g) then R.DoLose else R.DoRetry
  }

  ghost function Step(io: Io, op: IoOp, encode: Encoder): (r: Io)
    requires Enabled(io, op, encode)
  {
    match op
    case Queue(o) => Io(R.Step(io.world, o), io.past, io.gone, io.clean, io.over, io.sender, io.wire, io.log)
    case EmitHeld =>
      var e := io.world.hand.value;
      var g := encode(e.frame);
      Io(R.Step(io.world, Verdict(io.sender.ring, g)), io.past, io.gone, io.clean, false,
         Emit(io.sender, g, e.sending), io.wire, io.log)
    case WriteSome(n) =>
      Io(io.world, io.past, io.gone, io.clean, false, Written(io.sender, n),
         io.wire + io.sender.ring.Contents()[..n], io.log)
    case Enlarge(cells) =>
      Io(io.world, io.past, io.gone, io.clean, false,
         Sender(Linear(cells, io.sender.ring.available), io.sender.serialized, io.sender.resolved), io.wire, io.log)
    case Restart(cells, error) =>
      Io(R.Restarted(io.world), io.past + (io.world.out + R.Taken(io.world)), io.gone + R.Taken(io.world),
         R.StartsClean(io.world.inner), false, Sender(Linear(cells, 0), [], []), [], io.log + Closing(io.sender, error))
    case Quit(error) =>
      Io(io.world, io.past, io.gone, io.clean, true, Sender(io.sender.ring, [], []), io.wire,
         io.log + Closing(io.sender, error))
  }

  ghost predicate Legal(io: Io, ops: seq<IoOp>, encode: Encoder)
    decreases |ops|
  {
    ops == [] || (Enabled(io, ops[0], encode) && Legal(Step(io, ops[0], encode), ops[1..], encode))
  }

  ghost function Exec(io: Io, ops: seq<IoOp>, encode: Encoder): (r: Io)
    requires Legal(io, ops, encode)
    decreases |ops|
  {
    if ops == [] then io else Exec(Step(io, ops[0], encode), ops[1..], encode)
  }

  /** All that was ever sent or lost, in front of what the scheduler holds. */
  function Ever(io: Io): (w: R.World) {
    R.World(io.world.inner, io.world.hand, io.world.lost, io.past + io.world.out, io.world.next)
  }

  /** A connection is set up, whatever the scheduler holds already. */
  ghost predicate Fresh(io: Io) {
    && R.Inv(Ever(io)) && (io.clean ==> R.Inv(io.world)) && io.world.out == [] && io.world.lost.None? && !io.over
    && io.sender.ring.Valid() && io.sender.ring.available == 0
    && io.sender.serialized == [] && io.sender.resolved == [] && io.wire == []
  }

  /** The bytes of the frames sent so far, with their promises. */
  ghost function Encoded(out: seq<S.FrameEntry>, encode: Encoder): (q: seq<Sent>) {
    if out == [] then []
    else
      var e := out[|out| - 1];
      Encoded(out[..|out| - 1], encode) + [Sent(Encoding(encode(e.frame)), e.sending)]
  }

  ghost predicate IoInv(io: Io, h: History, encode: Encoder) {
    && R.Inv(Ever(io)) && (io.clean ==> R.Inv(io.world)) && io.sender.ring.Valid()
    && (!io.over ==>
          Inv(io.sender, h) && h.wire == io.wire && h.done + h.live == Encoded(io.world.out, encode))
  }

  /** The history after one step. */
  ghost function NextHistory(io: Io, h: History, op: IoOp, encode: Encoder): (r: History)
    requires Enabled(io, op, encode)
  {
    match op
    case Queue(_) => h
    case EmitHeld =>
      var e := io.world.hand.value;
      EmitHistory(io.sender, h, encode(e.frame), e.sending)
    case WriteSome(n) => WrittenHistory(io.sender, h, n)
    case Enlarge(_) => h
    case Restart(_, _) => History([], [], [])
    case Quit(_) => h
  }

  /** A step of the scheduler is the same step on all that was ever sent. */
  lemma EverStep(io: Io, o: R.Op)
    requires R.Enabled(io.world, o)
    ensures R.Enabled(Ever(io), o)
    ensures
      var w := R.Step(io.world, o);
      R.Step(Ever(io), o) == R.World(w.inner, w.hand, w.lost, io.past + w.out, w.next)
  {
    if o.DoSend? {
      Assoc(io.past, io.world.out, [io.world.hand.value]);
    }
  }

  lemma InvBoth(io: Io, o: R.Op)
    requires R.Inv(Ever(io)) && (io.clean ==> R.Inv(io.world)) && R.Enabled(io.world, o)
    ensures
      var w := R.Step(io.world, o);
      R.Inv(R.World(w.inner, w.hand, w.lost, io.past + w.out, w.next)) && (io.clean ==> R.Inv(w))
  {
    EverStep(io, o);
    R.InvStep(Ever(io), o);
    if io.clean {
      R.InvStep(io.world, o);
    }
  }

  lemma IoInvEmit(io: Io, h: History, encode: Encoder)
    requires IoInv(io, h, encode) && Enabled(io, EmitHeld, encode)
    ensures IoInv(Step(io, EmitHeld, encode), NextHistory(io, h, EmitHeld, encode), encode)
  {
    var e := io.world.hand.value;
    var g := encode(e.frame);
    InvEmit(io.sender, h, g, e.sending);
    InvBoth(io, Verdict(io.sender.ring, g));
    if Run(io.sender.ring, g).ok {
      EncodedSnoc(io.world.out, e, encode);
      Assoc(h.done, h.live, [Sent(Encoding(g), e.sending)]);
    }
  }

  lemma EncodedSnoc(out: seq<S.FrameEntry>, e: S.FrameEntry, encode: Encoder)
    ensures Encoded(out + [e], encode) == Encoded(out, encode) + [Sent(Encoding(encode(e.frame)), e.sending)]
  {
    assert (out + [e])[..|out|] == out;
  }

  lemma IoInvWrite(io: Io, h: History, n: nat, encode: Encoder)
    requires IoInv(io, h, encode) && Enabled(io, WriteSome(n), encode)
    ensures IoInv(Step(io, WriteSome(n), encode), NextHistory(io, h, WriteSome(n), encode), encode)
  {
    InvWritten(io.sender, h, n);
    var _ := AccountExact(io.sender.serialized, h.live, n);
    var f := Finish(io.sender.serialized, h.live, n);
    Assoc(h.done, f.done, f.live);
  }

  lemma IoInvRestart(io: Io, h: History, cells: seq<byte>, error: S.ErrorId, encode: Encoder)
    requires IoInv(io, h, encode) && Enabled(io, Restart(cells, error), encode)
    ensures IoInv(Step(io, Restart(cells, error), encode), History([], [], []), encode)
  {
    var w := io.world;
    var passed := R.World(w.inner, None, None, io.past + w.out + R.Taken(w), w.next);
    R.PassedOver(Ever(io));
    R.RestartIff(passed);
    Assoc(io.past, w.out, R.Taken(w));
    assert io.past + (w.out + R.Taken(w)) + [] == passed.out;
  }

  lemma IoInvStep(io: Io, h: History, op: IoOp, encode: Encoder)
    requires IoInv(io, h, encode) && Enabled(io, op, encode)
    ensures IoInv(Step(io, op, encode), NextHistory(io, h, op, encode), encode)
  {
    match op
    case Queue(o) => InvBoth(io, o);
    case EmitHeld => IoInvEmit(io, h, encode);
    case WriteSome(n) => IoInvWrite(io, h, n, encode);
    case Enlarge(cells) => InvSameBytes(io.sender, h, Linear(cells, io.sender.ring.available));
    case Restart(cells, error) => IoInvRestart(io, h, cells, error, encode);
    case Quit(_) =>
  }

  /** The history after a run. */
  ghost function HistoryAfter(io: Io, h: History, ops: seq<IoOp>, encode: Encoder): (r: History)
    requires Legal(io, ops, encode)
    decreases |ops|
  {
    if ops == [] then h
    else HistoryAfter(Step(io, ops[0], encode), NextHistory(io, h, ops[0], encode), ops[1..], encode)
  }

  lemma {:induction false} IoInvExec(io: Io, h: History, ops: seq<IoOp>, encode: Encoder)
    requires IoInv(io, h, encode) && Legal(io, ops, encode)
    ensures IoInv(Exec(io, ops, encode), HistoryAfter(io, h, ops, encode), encode)
    decreases |ops|
  {
    if ops != [] {
      IoInvStep(io, h, ops[0], encode);
      IoInvExec(Step(io, ops[0], encode), NextHistory(io, h, ops[0], encode), ops[1..], encode);
    }
  }

  /** What the socket got, followed by what waits in the ring, is the
      concatenated encodings of the frames sent on this connection; the queued
      sizes sum to the bytes waiting; and the promises resolved are those of the
      frames whose last byte the socket got, no more and no fewer.  Publishes
      leave in order, and no content is interrupted, if only the connection
      began clean: at most its first frame lacks what should come before it. */
  ghost predicate Faithful(io: Io, encode: Encoder) {
    var out := io.world.out;
    var sent := Encoded(out, encode);
    var k := |io.sender.resolved|;
    && R.Ordered(out) && (R.Chained(out) <==> out == [] || !out[0].frame.IsContent())
    && (io.clean ==> R.Chained(out))
    && io.sender.ring.Valid()
    && io.wire + io.sender.ring.Contents() == Flat(sent)
    && Total(io.sender.serialized) == io.sender.ring.available
    && k <= |sent| && io.sender.resolved == Sendings(sent[..k])
    && (forall i :: 0 <= i < |sent| ==> (i < k <==> EndOfFrame(sent, i) <= |io.wire|))
  }

  lemma InvIsFaithful(io: Io, h: History, encode: Encoder)
    requires IoInv(io, h, encode) && !io.over
    ensures Faithful(io, encode)
  {
    R.SentSound(Ever(io));
    R.SoundTail(io.past, io.world.out, io.world.next);
    if io.clean {
      R.SentSound(io.world);
    }
    SizesInStep(io.sender, h);
    WireIsSent(io.sender, h);
    DoneIsResolved(h);
    forall i | 0 <= i < |h.done + h.live|
      ensures i < |io.sender.resolved| <==> EndOfFrame(h.done + h.live, i) <= |io.wire|
    {
      ResolvedWithLastByte(io.sender, h, i);
    }
  }

  /** End to end, over every run of the loop, whatever other threads push or
      drop, however often a frame is retried, refused or not, however the socket
      cuts the stream and however many connections there are. */
  lemma WireTheorem(io: Io, ops: seq<IoOp>, encode: Encoder)
    requires Fresh(io) && Legal(io, ops, encode)
    ensures !Exec(io, ops, encode).over ==> Faithful(Exec(io, ops, encode), encode)
  {
    var h := History([], [], []);
    IoInvExec(io, h, ops, encode);
    if !Exec(io, ops, encode).over {
      InvIsFaithful(Exec(io, ops, encode), HistoryAfter(io, h, ops, encode), encode);
    }
  }

  lemma DoneIsResolved(h: History)
    ensures |Sendings(h.done)| == |h.done| && (h.done + h.live)[..|h.done|] == h.done
  {
    SendingsLength(h.done);
  }

  lemma WireIsSent(s: Sender, h: History)
    requires Inv(s, h)
    ensures h.wire + s.ring.Contents() == Flat(h.done + h.live)
  {
    FlatConcat(h.done, h.live);
    Assoc(Flat(h.done), Begun(s.serialized, h.live), Left(s.serialized, h.live));
    if h.live != [] {
      var x := h.live[0].bytes;
      var cut := |x| - s.serialized[0].size;
      assert x[..cut] + x[cut..] == x;
      Assoc(x[..cut], x[cut..], Flat(h.live[1..]));
    }
  }

  // ---- the code ----

  datatype Stop =
    | Drained                         // nothing left to pop
    | BufferFull                      // the frame was put back
    | Refusal(entry: S.FrameEntry)    // the generator failed; the frame is gone

  datatype Pass = Pass(inner: S.Inner, sender: Sender, stop: Stop)

  function Held(s: S.Inner): (n: nat) {
    |s.retry| + |s.publish| + |s.frames| + |s.lowPrio|
  }

  lemma PopShrinks(s: S.Inner, flow: bool)
    ensures S.Pop(s, flow).entry.Some? ==> Held(S.Pop(s, flow).inner) == Held(s) - 1
  {
  }

  /** Pop and generate until nothing is left or a frame does not go through;
      `flow(i)` is the flow flag at the `i`-th pop. */
  function SerializeFrom(inner: S.Inner, s: Sender, encode: Encoder, flow: nat -> bool, i: nat): (r: Pass)
    requires s.ring.Valid()
    ensures r.sender.ring.Valid()
    decreases Held(inner)
  {
    var p := S.Pop(inner, flow(i));
    match p.entry
    case None => Pass(p.inner, s, Drained)
    case Some(e) =>
      PopShrinks(inner, flow(i));
      var g := encode(e.frame);
      var s' := Emit(s, g, e.sending);
      if Run(s.ring, g).ok then SerializeFrom(p.inner, s', encode, flow, i + 1)
      else if Refused(s.ring, g) then Pass(p.inner, s', Refusal(e))
      else Pass(S.Retried(p.inner, e), s', BufferFull)
  }

  /** Every frame this pass generates fits. */
  ghost predicate PassFits(inner: S.Inner, s: Sender, encode: Encoder, flow: nat -> bool, i: nat)
    requires s.ring.Valid()
    decreases Held(inner)
  {
    var p := S.Pop(inner, flow(i));
    match p.entry
    case None => true
    case Some(e) =>
      PopShrinks(inner, flow(i));
      var g := encode(e.frame);
      Fits(s.ring, g) && (Run(s.ring, g).ok ==> PassFits(p.inner, Emit(s, g, e.sending), encode, flow, i + 1))
  }

  /** A pass of `serialize` is one of the runs above, so what is proved of runs
      holds of it, also when a generator ends it. */
  lemma {:induction false} SerializeIsRun(io: Io, encode: Encoder, flow: nat -> bool, i: nat) returns (ops: seq<IoOp>)
    requires io.sender.ring.Valid() && io.world.hand.None? && io.world.lost.None? && !io.over
    requires PassFits(io.world.inner, io.sender, encode, flow, i)
    ensures Legal(io, ops, encode) && PassIs(io, Exec(io, ops, encode), encode, flow, i)
    decreases Held(io.world.inner)
  {
    var pop := Queue(R.DoPop(flow(i)));
    var popped := Step(io, pop, encode);
    PopShrinks(io.world.inner, flow(i));
    if popped.world.hand.None? {
      ops := [pop] + [];
      ExecCons(io, pop, [], encode);
      return;
    }
    var emitted := Step(popped, EmitHeld, encode);
    var rest: seq<IoOp> := [];
    if Run(io.sender.ring, encode(popped.world.hand.value.frame)).ok {
      rest := SerializeIsRun(emitted, encode, flow, i + 1);
    }
    PassEmitted(io, Exec(emitted, rest, encode), encode, flow, i);
    ops := [pop] + ([EmitHeld] + rest);
    ExecCons(popped, EmitHeld, rest, encode);
    ExecCons(io, pop, [EmitHeld] + rest, encode);
  }

  /** One frame of the pass, and what the rest of it leads to. */
  lemma PassEmitted(io: Io, r: Io, encode: Encoder, flow: nat -> bool, i: nat)
    requires io.sender.ring.Valid() && io.world.hand.None? && io.world.lost.None? && !io.over
    requires S.Pop(io.world.inner, flow(i)).entry.Some? && PassFits(io.world.inner, io.sender, encode, flow, i)
    requires
      var emitted := Step(Step(io, Queue(R.DoPop(flow(i))), encode), EmitHeld, encode);
      if Run(io.sender.ring, encode(S.Pop(io.world.inner, flow(i)).entry.value.frame)).ok
      then PassIs(emitted, r, encode, flow, i + 1) else r == emitted
    ensures PassIs(io, r, encode, flow, i)
  {
  }

  /** From `io` the pass leads to `r`. */
  ghost predicate PassIs(io: Io, r: Io, encode: Encoder, flow: nat -> bool, i: nat)
    requires io.sender.ring.Valid()
  {
    var p := SerializeFrom(io.world.inner, io.sender, encode, flow, i);
    && r.world.inner == p.inner && r.world.hand.None? && r.sender == p.sender && r.wire == io.wire
    && r.world.lost == (if p.stop.Refusal? then Some(p.stop.entry) else None)
  }

  /** A frame with fewer bytes than the buffer has cells, and some if its
      generator has no failure of its own. */
  predicate Suits(encode: Encoder, capacity: nat, f: S.Frame) {
    && |Encoding(encode(f))| < Min(capacity, FRAME_SIZE_LIMIT)
    && (Complete(encode(f)) ==> Encoding(encode(f)) != [])
  }

  ghost predicate AllSuit(encode: Encoder, capacity: nat, s: S.Inner) {
    forall e :: e in s.retry || e in s.publish || e in s.frames || e in s.lowPrio ==> Suits(encode, capacity, e.frame)
  }

  lemma SuitsFits(encode: Encoder, l: Linear, f: S.Frame)
    requires l.Valid() && Suits(encode, |l.cells|, f)
    ensures Fits(l, encode(f))
  {
    LaidEncoding(encode(f), |l.cells|);
    RefusedIff(l, encode(f));
  }

  lemma PopSuits(encode: Encoder, capacity: nat, s: S.Inner, flow: bool)
    requires AllSuit(encode, capacity, s)
    ensures
      var p := S.Pop(s, flow);
      p.entry.Some? ==> Suits(encode, capacity, p.entry.value.frame) && AllSuit(encode, capacity, p.inner)
  {
  }

  /** Frames smaller than the buffer always fit. */
  lemma {:induction false} SmallFramesFit(inner: S.Inner, s: Sender, encode: Encoder, flow: nat -> bool, i: nat)
    requires s.ring.Valid() && AllSuit(encode, |s.ring.cells|, inner)
    ensures PassFits(inner, s, encode, flow, i)
    decreases Held(inner)
  {
    var p := S.Pop(inner, flow(i));
    if p.entry.Some? {
      PopShrinks(inner, flow(i));
      PopSuits(encode, |s.ring.cells|, inner, flow(i));
      var g := encode(p.entry.value.frame);
      SuitsFits(encode, s.ring, p.entry.value.frame);
      if Run(s.ring, g).ok {
        SmallFramesFit(p.inner, Emit(s, g, p.entry.value.sending), encode, flow, i + 1);
      }
    }
  }

  lemma ExecCons(io: Io, op: IoOp, rest: seq<IoOp>, encode: Encoder)
    requires Enabled(io, op, encode) && Legal(Step(io, op, encode), rest, encode)
    ensures Legal(io, [op] + rest, encode)
    ensures Exec(io, [op] + rest, encode) == Exec(Step(io, op, encode), rest, encode)
  {
    assert ([op] + rest)[1..] == rest;
  }

  class Loop {
    const frames: S.Frames
    const buffer: Buffer
    const encode: Encoder
    var serialized: seq<Serialized>
    var resolved: seq<S.FrameSending>

    constructor (frames: S.Frames, buffer: Buffer, encode: Encoder)
      ensures this.frames == frames && this.buffer == buffer && this.encode == encode
      ensures serialized == [] && resolved == []
    {
      this.frames := frames;
      this.buffer := buffer;
      this.encode := encode;
      this.serialized := [];
      this.resolved := [];
    }

    ghost function State(): (s: Sender)
      requires buffer.Valid()
      reads this, buffer, buffer.memory
      ensures s.ring.Valid()
    {
      Sender(buffer.View(), serialized, resolved)
    }

    /** Generate one frame into the send buffer, or undo the attempt. */
    method EmitFrame(e: S.FrameEntry) returns (ok: bool, refused: bool)
      requires buffer.Valid()
      modifies this`serialized, buffer`end, buffer`available, buffer.memory
      ensures buffer.Valid()
      ensures State() == Emit(old(State()), encode(e.frame), e.sending)
      ensures ok == Run(old(buffer.View()), encode(e.frame)).ok
      ensures !ok ==> refused == Refused(old(buffer.View()), encode(e.frame))
    {
      var checkpoint := buffer.MakeCheckpoint();
      var before := buffer.available;
      ok, refused := Generate(buffer, encode(e.frame));
      if ok {
        var size := buffer.available - before;
        serialized := serialized + [Serialized(size % FRAME_SIZE_LIMIT, e.sending)];
      } else {
        StepBack(buffer, checkpoint, before);
      }
    }

    method Serialize(flow: nat -> bool) returns (stop: Stop)
      requires buffer.Valid()
      modifies this`serialized, frames, buffer`end, buffer`available, buffer.memory
      ensures buffer.Valid()
      ensures Pass(frames.State(), State(), stop) ==
              SerializeFrom(old(frames.State()), old(State()), encode, flow, 0)
    {
      var i := 0;
      while true
        invariant buffer.Valid()
        invariant SerializeFrom(frames.State(), State(), encode, flow, i) ==
                  SerializeFrom(old(frames.State()), old(State()), encode, flow, 0)
        decreases Held(frames.State())
      {
        PopShrinks(frames.State(), flow(i));
        var next := frames.PopFrame(flow(i));
        if next.None? {
          return Drained;
        }
        var ok, refused := EmitFrame(next.value);
        if !ok {
          if refused {
            return Refusal(next.value);
          }
          frames.Retry(next.value);
          return BufferFull;
        }
        i := i + 1;
      }
    }

    /** The socket took `n` bytes of the buffer: resolve the frames they end. */
    method BytesWritten(n: nat)
      requires buffer.Valid() && n <= buffer.available
      modifies this`serialized, this`resolved, buffer`position, buffer`available
      ensures buffer.Valid() && State() == Written(old(State()), n)
    {
      var _ := buffer.Consume(n);
      var written: nat := n % FRAME_SIZE_LIMIT;
      ghost var all := Account(serialized, written);
      while written > 0
        invariant buffer.Valid() && buffer.View() == old(buffer.View()).Drop(n)
        invariant resolved + Account(serialized, written).resolved == old(resolved) + all.resolved
        invariant Account(serialized, written).rest == all.rest
        decreases |serialized|, written
      {
        if serialized == [] {
          break;
        }
        var head := serialized[0];
        serialized := serialized[1..];
        if written < head.size {
          serialized := [Serialized(head.size - written, head.sending)] + serialized;
          written := 0;
        } else {
          Assoc(resolved, [head.sending], Account(serialized, written - head.size).resolved);
          resolved := resolved + [head.sending];
          written := written - head.size;
        }
      }
      assert resolved + [] == resolved;
    }

    /** Leaving a connection: frames not entirely written are rejected, each
        once, and the buffer starts over. */
    method ClearAndReset(error: S.ErrorId) returns (rejected: seq<S.FrameSending>, log: S.Log)
      requires buffer.Valid()
      modifies this`serialized, this`resolved, buffer`position, buffer`end, buffer`available
      ensures buffer.Valid() && buffer.Contents() == [] && serialized == [] && resolved == []
      ensures |rejected| == |old(serialized)|
      ensures forall i :: 0 <= i < |rejected| ==> rejected[i] == old(serialized)[i].sending
      ensures Resolves(old(resolved)) + log == Closing(old(State()), error)
      ensures Inv(State(), History([], [], []))
    {
      rejected, log := [], [];
      for i := 0 to |serialized|
        invariant serialized == old(serialized) && |rejected| == i
        invariant forall j :: 0 <= j < i ==> rejected[j] == serialized[j].sending
        invariant log == Rejects(serialized[..i], error)
      {
        assert serialized[..i + 1][..i] == serialized[..i];
        rejected := rejected + [serialized[i].sending];
        log := log + S.Reject(serialized[i].sending, error);
      }
      assert serialized[..|serialized|] == serialized;
      serialized := [];
      resolved := [];
      buffer.Reset();
    }
  }
}
