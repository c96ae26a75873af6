/** From queued frames to bytes on the socket: the send buffer, the queue of
    frame sizes still to be written and the promises resolved on the way
    (`serialize` and `write_to_stream` in src/io_loop.rs). */
module OutgoingBytes {
  import opened Bytes
  import opened RingBuffer
  import opened Generator
  import opened Scheduler

  /** `FrameSize` is a 32-bit number; sizes are cast to it. */
  const FRAME_SIZE_LIMIT := 0x1_0000_0000

  datatype Serialized = Serialized(size: nat, sending: FrameSending)

  /** The I/O loop's sending side; `resolved` logs the sendings resolved. */
  datatype Sender = Sender(ring: Linear, serialized: seq<Serialized>, resolved: seq<FrameSending>)

  datatype Accounted = Accounted(rest: seq<Serialized>, resolved: seq<FrameSending>, surplus: nat)

  /** Account for `written` bytes against the sizes.  A surplus is what the code
      reports as bytes it did not expect to write. */
  function Account(q: seq<Serialized>, written: nat): (r: Accounted)
    decreases |q|
  {
    if written == 0 then Accounted(q, [], 0)
    else if q == [] then Accounted([], [], written)
    else if written < q[0].size then Accounted([Serialized(q[0].size - written, q[0].sending)] + q[1..], [], 0)
    else
      var r := Account(q[1..], written - q[0].size);
      Accounted(r.rest, [q[0].sending] + r.resolved, r.surplus)
  }

  /** Generate one frame: on success its size is queued, otherwise the buffer is
      rolled back to where it was. */
  function Emit(s: Sender, g: Gen, sending: FrameSending): (r: Sender)
    requires s.ring.Valid()
    ensures r.ring.Valid() && |r.ring.cells| == |s.ring.cells|
  {
    var o := Run(s.ring, g);
    if o.ok then
      Sender(o.ring, s.serialized + [Serialized((o.ring.available - s.ring.available) % FRAME_SIZE_LIMIT, sending)], s.resolved)
    else Sender(o.ring.RollBack(s.ring.available), s.serialized, s.resolved)
  }

  /** The socket took `n` bytes. */
  function Written(s: Sender, n: nat): (r: Sender)
    requires s.ring.Valid() && n <= s.ring.available
    ensures r.ring.Valid() && |r.ring.cells| == |s.ring.cells|
  {
    var a := Account(s.serialized, n % FRAME_SIZE_LIMIT);
    Sender(s.ring.Drop(n), a.rest, s.resolved + a.resolved)
  }

  // ---- what the bytes mean ----

  /** A frame that was generated: its bytes and its promise. */
  datatype Sent = Sent(bytes: seq<byte>, sending: FrameSending)

  function Flat(q: seq<Sent>): (s: seq<byte>) {
    if q == [] then [] else q[0].bytes + Flat(q[1..])
  }

  function Sendings(q: seq<Sent>): (r: seq<FrameSending>) {
    if q == [] then [] else [q[0].sending] + Sendings(q[1..])
  }

  function Total(q: seq<Serialized>): (n: nat) {
    if q == [] then 0 else q[0].size + Total(q[1..])
  }

  /** The sizes are those of the frames `live`, none of them begun. */
  ghost predicate Whole(q: seq<Serialized>, live: seq<Sent>)
    decreases |q|
  {
    if q == [] || live == [] then q == [] && live == []
    else
      && q[0].sending == live[0].sending
      && 0 < q[0].size == |live[0].bytes|
      && Whole(q[1..], live[1..])
  }

  /** The sizes are those of the frames `live`, the first one reduced by what
      is already on the wire. */
  ghost predicate Matches(q: seq<Serialized>, live: seq<Sent>) {
    if q == [] || live == [] then q == [] && live == []
    else
      && q[0].sending == live[0].sending
      && 0 < q[0].size <= |live[0].bytes|
      && Whole(q[1..], live[1..])
  }

  /** What is not yet on the wire, and the part of the first frame that is. */
  ghost function Left(q: seq<Serialized>, live: seq<Sent>): (s: seq<byte>)
    requires Matches(q, live)
  {
    if q == [] then [] else live[0].bytes[|live[0].bytes| - q[0].size..] + Flat(live[1..])
  }

  ghost function Begun(q: seq<Serialized>, live: seq<Sent>): (s: seq<byte>)
    requires Matches(q, live)
  {
    if q == [] then [] else live[0].bytes[..|live[0].bytes| - q[0].size]
  }

  /** `done` frames are entirely on the wire, `live` ones are not. */
  datatype History = History(done: seq<Sent>, live: seq<Sent>, wire: seq<byte>)

  ghost predicate Inv(s: Sender, h: History) {
    && s.ring.Valid()
    && Matches(s.serialized, h.live)
    && s.ring.Contents() == Left(s.serialized, h.live)
    && h.wire == Flat(h.done) + Begun(s.serialized, h.live)
    && s.resolved == Sendings(h.done)
  }

  lemma {:induction false} FlatConcat(a: seq<Sent>, b: seq<Sent>)
    ensures Flat(a + b) == Flat(a) + Flat(b)
    decreases |a|
  {
    if a == [] {
      assert a + b == b;
    } else {
      FlatConcat(a[1..], b);
      assert (a + b)[1..] == a[1..] + b;
      Assoc(a[0].bytes, Flat(a[1..]), Flat(b));
    }
  }

  /** Which of the frames `live` end within the next `n` bytes. */
  datatype Progress = Progress(done: seq<Sent>, live: seq<Sent>)

  function Finish(q: seq<Serialized>, live: seq<Sent>, n: nat): (r: Progress)
    decreases |q|
  {
    if n == 0 || q == [] || live == [] || n < q[0].size then Progress([], live)
    else
      var r := Finish(q[1..], live[1..], n - q[0].size);
      Progress([live[0]] + r.done, r.live)
  }

  /** What accounting for `n` bytes comes to, in promises and sizes. */
  ghost predicate ExactFrames(q: seq<Serialized>, live: seq<Sent>, n: nat) {
    var a, f := Account(q, n), Finish(q, live, n);
    && a.surplus == 0
    && live == f.done + f.live
    && a.resolved == Sendings(f.done)
    && Matches(a.rest, f.live)
  }

  /** Of the bytes `left`, those `taken` complete what was `begun` to `flat` and
      `begun'`; `left'` remain. */
  ghost predicate Splits(begun: seq<byte>, left: seq<byte>, taken: seq<byte>,
                         flat: seq<byte>, begun': seq<byte>, left': seq<byte>)
  {
    left == taken + left' && begun + taken == flat + begun'
  }

  /** What it comes to in bytes: those gone over, and those left. */
  ghost predicate ExactBytes(q: seq<Serialized>, live: seq<Sent>, n: nat, taken: seq<byte>)
    requires Matches(q, live) && ExactFrames(q, live, n)
  {
    var a, f := Account(q, n), Finish(q, live, n);
    && |taken| == n
    && Splits(Begun(q, live), Left(q, live), taken, Flat(f.done), Begun(a.rest, f.live), Left(a.rest, f.live))
  }

  lemma BytesNext(fst: seq<byte>, snd: seq<byte>, tail: seq<byte>, taken: seq<byte>,
                  flat: seq<byte>, begun: seq<byte>, left: seq<byte>)
    requires Splits([], tail, taken, flat, begun, left)
    ensures Splits(fst, snd + tail, snd + taken, fst + snd + flat, begun, left)
  {
    assert [] + taken == taken;
    Assoc(snd, taken, left);
    Assoc(fst, snd, taken);
    Assoc(fst + snd, flat, begun);
  }

  lemma MatchesTail(q: seq<Serialized>, live: seq<Sent>)
    requires Matches(q, live) && q != []
    ensures Matches(q[1..], live[1..])
    ensures Begun(q[1..], live[1..]) == [] && Left(q[1..], live[1..]) == Flat(live[1..])
  {
  }

  lemma FlatCons(x: Sent, q: seq<Sent>)
    ensures Flat([x] + q) == x.bytes + Flat(q)
  {
    assert ([x] + q)[1..] == q;
  }

  /** The bytes of the first frame in front of what the rest comes to. */
  lemma NextBytes(q: seq<Serialized>, live: seq<Sent>, taken: seq<byte>, done: seq<Sent>,
                  begun: seq<byte>, left: seq<byte>)
    requires Matches(q, live) && q != []
    requires Splits([], Flat(live[1..]), taken, Flat(done), begun, left)
    ensures Splits(Begun(q, live), Left(q, live), live[0].bytes[|live[0].bytes| - q[0].size..] + taken,
                   Flat([live[0]] + done), begun, left)
  {
    var x := live[0].bytes;
    var fst, snd := x[..|x| - q[0].size], x[|x| - q[0].size..];
    FlatCons(live[0], done);
    assert fst + snd == x;
    BytesNext(fst, snd, Flat(live[1..]), taken, Flat(done), begun, left);
  }

  lemma NextFrames(q: seq<Serialized>, live: seq<Sent>, n: nat)
    requires Matches(q, live) && q != [] && 0 < q[0].size <= n
    requires ExactFrames(q[1..], live[1..], n - q[0].size)
    ensures ExactFrames(q, live, n)
  {
    var f := Finish(q[1..], live[1..], n - q[0].size);
    var done := [live[0]] + f.done;
    assert done[1..] == f.done;
    ConsSplit(live, f.done, f.live);
  }

  lemma ConsSplit(q: seq<Sent>, a: seq<Sent>, b: seq<Sent>)
    requires q != [] && q[1..] == a + b
    ensures q == [q[0]] + a + b
  {
    assert q == [q[0]] + q[1..];
  }

  /** Accounting for `n` bytes resolves the frames that end within them, keeps
      the sizes in step with the bytes left, and never has a surplus. */
  lemma {:induction false} AccountExact(q: seq<Serialized>, live: seq<Sent>, n: nat) returns (taken: seq<byte>)
    requires Matches(q, live) && n <= |Left(q, live)|
    ensures ExactFrames(q, live, n) && ExactBytes(q, live, n, taken)
    ensures Left(q, live)[..n] == taken
    decreases |q|
  {
    if n == 0 || q == [] {
      AccountNone(q, live, n);
      taken := [];
    } else if n < q[0].size {
      taken := AccountWithin(q, live, n);
    } else {
      MatchesTail(q, live);
      taken := AccountExact(q[1..], live[1..], n - q[0].size);
      taken := AccountNext(q, live, n, taken);
    }
  }

  lemma AccountNone(q: seq<Serialized>, live: seq<Sent>, n: nat)
    requires Matches(q, live) && n <= |Left(q, live)| && (n == 0 || q == [])
    ensures ExactFrames(q, live, n) && ExactBytes(q, live, n, [])
  {
    assert [] + live == live;
    assert [] + Left(q, live) == Left(q, live);
    assert Begun(q, live) + [] == [] + Begun(q, live);
  }

  lemma AccountNext(q: seq<Serialized>, live: seq<Sent>, n: nat, taken: seq<byte>) returns (taken': seq<byte>)
    requires Matches(q, live) && q != [] && q[0].size <= n
    requires Matches(q[1..], live[1..]) && ExactFrames(q[1..], live[1..], n - q[0].size)
    requires ExactBytes(q[1..], live[1..], n - q[0].size, taken)
    ensures ExactFrames(q, live, n) && ExactBytes(q, live, n, taken')
  {
    NextFrames(q, live, n);
    MatchesTail(q, live);
    var m := n - q[0].size;
    var b, f := Account(q[1..], m), Finish(q[1..], live[1..], m);
    NextBytes(q, live, taken, f.done, Begun(b.rest, f.live), Left(b.rest, f.live));
    taken' := live[0].bytes[|live[0].bytes| - q[0].size..] + taken;
  }

  lemma AccountWithin(q: seq<Serialized>, live: seq<Sent>, n: nat) returns (taken: seq<byte>)
    requires Matches(q, live) && q != [] && 0 < n < q[0].size
    ensures ExactFrames(q, live, n) && ExactBytes(q, live, n, taken)
  {
    assert [] + live == live;
    assert Account(q, n).rest[1..] == q[1..];
    var x, cut := live[0].bytes, |live[0].bytes| - q[0].size;
    BytesWithin(x, cut, n, Flat(live[1..]));
    taken := x[cut..cut + n];
  }

  lemma BytesWithin(x: seq<byte>, cut: nat, n: nat, tail: seq<byte>)
    requires cut + n <= |x|
    ensures Splits(x[..cut], x[cut..] + tail, x[cut..cut + n], [], x[..cut + n], x[cut + n..] + tail)
  {
    assert x[cut..] == x[cut..cut + n] + x[cut + n..];
    Assoc(x[cut..cut + n], x[cut + n..], tail);
    assert x[..cut] + x[cut..cut + n] == x[..cut + n];
    assert [] + x[..cut + n] == x[..cut + n];
  }

  // ---- every step keeps bytes, sizes and promises in step ----

  /** The history after `n` more bytes reached the wire. */
  ghost function WrittenHistory(s: Sender, h: History, n: nat): (r: History)
    requires s.ring.Valid() && n <= s.ring.available
  {
    var f := Finish(s.serialized, h.live, n);
    History(h.done + f.done, f.live, h.wire + s.ring.Contents()[..n])
  }

  lemma {:induction false} SendingsConcat(a: seq<Sent>, b: seq<Sent>)
    ensures Sendings(a + b) == Sendings(a) + Sendings(b)
    decreases |a|
  {
    if a == [] {
      assert a + b == b;
    } else {
      SendingsConcat(a[1..], b);
      assert (a + b)[1..] == a[1..] + b;
      assert [a[0].sending] + (Sendings(a[1..]) + Sendings(b)) == [a[0].sending] + Sendings(a[1..]) + Sendings(b);
    }
  }

  lemma InvWritten(s: Sender, h: History, n: nat)
    requires Inv(s, h) && n <= s.ring.available && n < FRAME_SIZE_LIMIT
    ensures Inv(Written(s, n), WrittenHistory(s, h, n))
    ensures Account(s.serialized, n).surplus == 0
  {
    var q, live := s.serialized, h.live;
    var taken := AccountExact(q, live, n);
    var a, f := Account(q, n), Finish(q, live, n);
    FlatConcat(h.done, f.done);
    SendingsConcat(h.done, f.done);
    assert n % FRAME_SIZE_LIMIT == n;
    Assoc(Flat(h.done), Begun(q, live), taken);
    Assoc(Flat(h.done), Flat(f.done), Begun(a.rest, f.live));
  }

  /** The history after a generator ran. */
  ghost function EmitHistory(s: Sender, h: History, g: Gen, sending: FrameSending): (r: History)
    requires s.ring.Valid()
  {
    if Run(s.ring, g).ok then History(h.done, h.live + [Sent(Encoding(g), sending)], h.wire) else h
  }

  lemma {:induction false} WholeSnoc(q: seq<Serialized>, live: seq<Sent>, x: Sent)
    requires Whole(q, live) && 0 < |x.bytes|
    ensures Whole(q + [Serialized(|x.bytes|, x.sending)], live + [x])
    ensures Flat(live + [x]) == Flat(live) + x.bytes
    decreases |q|
  {
    var q', live' := q + [Serialized(|x.bytes|, x.sending)], live + [x];
    if q == [] {
      assert q'[1..] == [] && live'[1..] == [];
    } else {
      WholeSnoc(q[1..], live[1..], x);
      assert q'[1..] == q[1..] + [Serialized(|x.bytes|, x.sending)] && live'[1..] == live[1..] + [x];
    }
  }

  lemma MatchesSnoc(q: seq<Serialized>, live: seq<Sent>, x: Sent)
    requires Matches(q, live) && 0 < |x.bytes|
    ensures
      var q', live' := q + [Serialized(|x.bytes|, x.sending)], live + [x];
      Matches(q', live') && Left(q', live') == Left(q, live) + x.bytes && Begun(q', live') == Begun(q, live)
  {
    var q', live' := q + [Serialized(|x.bytes|, x.sending)], live + [x];
    if q == [] {
      assert q'[1..] == [] && live'[1..] == [];
      assert x.bytes[0..] == x.bytes && x.bytes + [] == [] + x.bytes;
    } else {
      WholeSnoc(q[1..], live[1..], x);
      assert q'[1..] == q[1..] + [Serialized(|x.bytes|, x.sending)] && live'[1..] == live[1..] + [x];
      Assoc(live[0].bytes[|live[0].bytes| - q[0].size..], Flat(live[1..]), x.bytes);
    }
  }

  lemma InvEmit(s: Sender, h: History, g: Gen, sending: FrameSending)
    requires Inv(s, h) && NoFullTurn(s.ring, g)
    requires Run(s.ring, g).ok ==> 0 < |Encoding(g)| < FRAME_SIZE_LIMIT
    ensures Inv(Emit(s, g, sending), EmitHistory(s, h, g, sending))
  {
    if Run(s.ring, g).ok {
      InvEmitted(s, h, g, sending);
    } else {
      InvRolledBack(s, h, g, sending);
    }
  }

  lemma InvEmitted(s: Sender, h: History, g: Gen, sending: FrameSending)
    requires Inv(s, h) && NoFullTurn(s.ring, g) && 0 < |Encoding(g)| < FRAME_SIZE_LIMIT && Run(s.ring, g).ok
    ensures Inv(Emit(s, g, sending), EmitHistory(s, h, g, sending))
  {
    EmitIs(s, g, sending);
    MatchesSnoc(s.serialized, h.live, Sent(Encoding(g), sending));
  }

  lemma EmitIs(s: Sender, g: Gen, sending: FrameSending)
    requires s.ring.Valid() && NoFullTurn(s.ring, g) && |Encoding(g)| < FRAME_SIZE_LIMIT && Run(s.ring, g).ok
    ensures Emit(s, g, sending) ==
            Sender(Run(s.ring, g).ring, s.serialized + [Serialized(|Encoding(g)|, sending)], s.resolved)
    ensures Run(s.ring, g).ring.Contents() == s.ring.Contents() + Encoding(g)
  {
    EmitSize(s.ring, g);
  }

  lemma InvRolledBack(s: Sender, h: History, g: Gen, sending: FrameSending)
    requires Inv(s, h) && NoFullTurn(s.ring, g) && !Run(s.ring, g).ok
    ensures Inv(Emit(s, g, sending), EmitHistory(s, h, g, sending))
  {
    RollbackRestores(s.ring, g);
    InvSameBytes(s, h, Run(s.ring, g).ring.RollBack(s.ring.available));
  }

  lemma InvSameBytes(s: Sender, h: History, ring: Linear)
    requires Inv(s, h) && ring.Valid() && ring.Contents() == s.ring.Contents()
    ensures Inv(Sender(ring, s.serialized, s.resolved), h)
  {
  }

  /** A generator that succeeds short of a full turn adds its encoding. */
  lemma EmitSize(l: Linear, g: Gen)
    requires l.Valid() && NoFullTurn(l, g) && Run(l, g).ok && |Encoding(g)| < FRAME_SIZE_LIMIT
    ensures (Run(l, g).ring.available - l.available) % FRAME_SIZE_LIMIT == |Encoding(g)|
    ensures Run(l, g).ring.Contents() == l.Contents() + Encoding(g)
  {
    RunExact(l, g);
    LaidEncoding(g, l.Space());
    assert |Encoding(g)| % FRAME_SIZE_LIMIT == |Encoding(g)|;
  }

  lemma {:induction false} WholeTotal(q: seq<Serialized>, live: seq<Sent>)
    requires Whole(q, live)
    ensures Total(q) == |Flat(live)|
    decreases |q|
  {
    if q != [] {
      WholeTotal(q[1..], live[1..]);
    }
  }

  /** The sizes queued sum to the bytes in the send buffer. */
  lemma SizesInStep(s: Sender, h: History)
    requires Inv(s, h)
    ensures Total(s.serialized) == s.ring.available
  {
    MatchesTotal(s.serialized, h.live);
  }

  lemma MatchesTotal(q: seq<Serialized>, live: seq<Sent>)
    requires Matches(q, live)
    ensures Total(q) == |Left(q, live)|
  {
    if q != [] {
      WholeTotal(q[1..], live[1..]);
    }
  }

  /** A write keeps the sizes in step exactly when its length survives the cast
      to a 32-bit frame size. */
  lemma WriteInStepIff(s: Sender, h: History, n: nat)
    requires Inv(s, h) && n <= s.ring.available
    ensures Total(Written(s, n).serialized) == Written(s, n).ring.available <==> n < FRAME_SIZE_LIMIT
  {
    var m := n % FRAME_SIZE_LIMIT;
    var _ := AccountExact(s.serialized, h.live, m);
    MatchesTotal(Account(s.serialized, m).rest, Finish(s.serialized, h.live, m).live);
  }

  /** A failed attempt keeps the sizes in step exactly when the buffer was not
      empty or the generator did not go all the way round it. */
  lemma FailureInStepIff(s: Sender, h: History, g: Gen, sending: FrameSending)
    requires Inv(s, h) && !Run(s.ring, g).ok
    ensures
      var r := Emit(s, g, sending);
      Total(r.serialized) == r.ring.available <==> NoFullTurn(s.ring, g)
  {
    SizesInStep(s, h);
    RollbackRestores(s.ring, g);
    if !NoFullTurn(s.ring, g) {
      FullTurnFills(s.ring, g);
    }
  }

  /** A frame that goes through keeps the sizes in step exactly when its own size
      survives the cast. */
  lemma SuccessInStepIff(s: Sender, h: History, g: Gen, sending: FrameSending)
    requires Inv(s, h) && Run(s.ring, g).ok
    ensures
      var r := Emit(s, g, sending);
      Total(r.serialized) == r.ring.available <==>
      Ends(g, s.ring.available, |s.ring.cells|).used - s.ring.available < FRAME_SIZE_LIMIT
  {
    SizesInStep(s, h);
    EndsExact(s.ring, g);
    TotalSnoc(s.serialized, Emit(s, g, sending).serialized[|s.serialized|]);
  }

  lemma {:induction false} TotalSnoc(q: seq<Serialized>, x: Serialized)
    ensures Total(q + [x]) == Total(q) + x.size
    decreases |q|
  {
    if q == [] {
      assert [] + [x] == [x];
    } else {
      TotalSnoc(q[1..], x);
      assert (q + [x])[1..] == q[1..] + [x];
    }
  }

  /** How many bytes precede the end of the `i`-th frame. */
  function EndOfFrame(q: seq<Sent>, i: nat): (n: nat)
    requires i < |q|
  {
    |Flat(q[..i + 1])|
  }

  /** Every generated frame: its promise is resolved exactly when its last byte
      is on the wire. */
  lemma ResolvedWithLastByte(s: Sender, h: History, i: nat)
    requires Inv(s, h) && i < |h.done + h.live|
    ensures i < |s.resolved| <==> EndOfFrame(h.done + h.live, i) <= |h.wire|
  {
    var all := h.done + h.live;
    SendingsLength(h.done);
    if i < |h.done| {
      assert all[..i + 1] + h.done[i + 1..] == h.done;
      FlatConcat(all[..i + 1], h.done[i + 1..]);
    } else {
      var k := i - |h.done|;
      assert all[..i + 1] == h.done + h.live[..k + 1];
      FlatConcat(h.done, h.live[..k + 1]);
      assert h.live[..k + 1] == [h.live[0]] + h.live[1..k + 1];
      FlatConcat([h.live[0]], h.live[1..k + 1]);
      assert Flat([h.live[0]]) == h.live[0].bytes + Flat([]);
    }
  }

  lemma {:induction false} SendingsLength(q: seq<Sent>)
    ensures |Sendings(q)| == |q|
    decreases |q|
  {
    if q != [] {
      SendingsLength(q[1..]);
    }
  }

  // ---- whole runs, over several connections ----

  datatype SendOp =
    | Generates(g: Gen, sending: FrameSending)
    | Takes(n: nat)                  // the socket takes `n` bytes
    | Restarts(cells: seq<byte>)     // a new connection: clear, then reset

  ghost predicate CanSend(s: Sender, op: SendOp) {
    && s.ring.Valid()
    && match op
       case Generates(g, _) =>
         NoFullTurn(s.ring, g) && (Run(s.ring, g).ok ==> 0 < |Encoding(g)| < FRAME_SIZE_LIMIT)
       case Takes(n) => n <= s.ring.available && n < FRAME_SIZE_LIMIT
       case Restarts(cells) => |cells| == |s.ring.cells|
  }

  ghost function SendStep(s: Sender, op: SendOp): (r: Sender)
    requires CanSend(s, op)
  {
    match op
    case Generates(g, sending) => Emit(s, g, sending)
    case Takes(n) => Written(s, n)
    case Restarts(cells) => Sender(Linear(cells, 0), [], [])
  }

  ghost predicate SendLegal(s: Sender, ops: seq<SendOp>)
    decreases |ops|
  {
    ops == [] || (CanSend(s, ops[0]) && SendLegal(SendStep(s, ops[0]), ops[1..]))
  }

  ghost function SendExec(s: Sender, ops: seq<SendOp>): (r: Sender)
    requires SendLegal(s, ops)
    decreases |ops|
  {
    if ops == [] then s else SendExec(SendStep(s, ops[0]), ops[1..])
  }

  /** Through frames generated, rolled back and retried, writes of any size and
      new connections, the sizes sum to the bytes waiting and no write finds
      more bytes than there are frames. */
  lemma {:induction false} AccountingRun(s: Sender, h: History, ops: seq<SendOp>) returns (h': History)
    requires Inv(s, h) && SendLegal(s, ops)
    ensures
      var r := SendExec(s, ops);
      && Inv(r, h')
      && Total(r.serialized) == r.ring.available
      && forall n: nat :: n <= r.ring.available ==> Account(r.serialized, n).surplus == 0
    decreases |ops|
  {
    if ops == [] {
      SizesInStep(s, h);
      forall n: nat | n <= s.ring.available ensures Account(s.serialized, n).surplus == 0 {
        var _ := AccountExact(s.serialized, h.live, n);
      }
      return h;
    }
    match ops[0] {
      case Generates(g, sending) =>
        InvEmit(s, h, g, sending);
        h' := EmitHistory(s, h, g, sending);
      case Takes(n) =>
        InvWritten(s, h, n);
        h' := WrittenHistory(s, h, n);
      case Restarts(_) => h' := History([], [], []);
    }
    h' := AccountingRun(SendStep(s, ops[0]), h', ops[1..]);
  }
}
