/** From bytes on the socket to frames: the receive buffer and the parse loop
    (`parse`, `handle_frames` in src/io_loop.rs). */
module Receiving {
  import opened Bytes
  import opened Parsing
  import opened RingBuffer

  /** What the frame parser makes of its input.  On success it says by which
      steps it went through the input; there is at least one byte in a frame. */
  datatype Decoded<+F> = Parsed(frame: F, steps: seq<Step>) | Incomplete | Malformed

  type Decoder<!F> = seq<byte> -> Decoded<F>

  /** The parser only moves forward, by at least a byte and not past the end,
      and more input does not change what it already recognised. */
  ghost predicate Sane<F(!new)>(decode: Decoder<F>) {
    forall s: seq<byte> :: Accepts(decode, s)
  }

  ghost predicate Accepts<F(!new)>(decode: Decoder<F>, s: seq<byte>) {
    match decode(s)
    case Parsed(_, steps) =>
      && OnlyAdvances(steps) && 0 < Advanced(steps) <= |s|
      && forall t: seq<byte> :: decode(s + t) == decode(s)
    case Malformed => forall t: seq<byte> :: decode(s + t) == Malformed
    case Incomplete => true
  }

  datatype Status = NeedMore | TooLarge | ParseError

  datatype Batch<+F> = Batch(frames: seq<F>, rest: seq<byte>, status: Status)

  /** All the frames at the front of `s`, and what is left.  A frame larger than
      a non-zero `frameMax` stops the loop before it is consumed. */
  ghost function DecodeAll<F(!new)>(decode: Decoder<F>, frameMax: nat, s: seq<byte>): (r: Batch<F>)
    requires Sane(decode)
    decreases |s|
  {
    if s == [] then Batch([], s, NeedMore)
    else
      assert Accepts(decode, s);
      match decode(s)
      case Incomplete => Batch([], s, NeedMore)
      case Malformed => Batch([], s, ParseError)
      case Parsed(f, steps) =>
        var k := Advanced(steps);
        if 0 < frameMax < k then Batch([], s, TooLarge)
        else
          var r := DecodeAll(decode, frameMax, s[k..]);
          Batch([f] + r.frames, r.rest, r.status)
  }

  // ---- which frames these are ----

  /** The parser makes `f` of the bytes of `s` from `from` up to `to`, which are
      not too many. */
  ghost predicate FrameAt<F(!new)>(decode: Decoder<F>, frameMax: nat, s: seq<byte>, from: nat, to: nat, f: F) {
    && from < to <= |s| && !(0 < frameMax < to - from)
    && match decode(s[from..])
       case Parsed(g, steps) => g == f && OnlyAdvances(steps) && Advanced(steps) == to - from
       case _ => false
  }

  /** `frames` are those at the front of `s`, each once, cut at the points `cuts`. */
  ghost predicate Delivers<F(!new)>(decode: Decoder<F>, frameMax: nat, s: seq<byte>, frames: seq<F>, cuts: seq<nat>) {
    && |cuts| == |frames| + 1 && cuts[0] == 0
    && forall i :: 0 <= i < |frames| ==> FrameAt(decode, frameMax, s, cuts[i], cuts[i + 1], frames[i])
  }

  lemma DeliversWithin<F(!new)>(decode: Decoder<F>, frameMax: nat, s: seq<byte>, frames: seq<F>, cuts: seq<nat>)
    requires Delivers(decode, frameMax, s, frames, cuts)
    ensures cuts[|frames|] <= |s|
  {
    if frames != [] {
      assert FrameAt(decode, frameMax, s, cuts[|frames| - 1], cuts[|frames| - 1 + 1], frames[|frames| - 1]);
    }
  }

  /** Why the loop stops in front of `rest`. */
  ghost predicate StopsAt<F(!new)>(decode: Decoder<F>, frameMax: nat, rest: seq<byte>, status: Status) {
    if rest == [] then status == NeedMore
    else match decode(rest)
      case Incomplete => status == NeedMore
      case Malformed => status == ParseError
      case Parsed(_, steps) => status == TooLarge && OnlyAdvances(steps) && 0 < frameMax < Advanced(steps)
  }

  /** The batch is what `s` holds: its frames cut at the points `cuts`, the rest
      after the last of them, and the reason to stop there. */
  ghost predicate CutInto<F(!new)>(decode: Decoder<F>, frameMax: nat, s: seq<byte>, r: Batch<F>, cuts: seq<nat>) {
    && Delivers(decode, frameMax, s, r.frames, cuts)
    && cuts[|r.frames|] <= |s| && r.rest == s[cuts[|r.frames|]..]
    && StopsAt(decode, frameMax, r.rest, r.status)
  }

  /** Cut points further on by `k`. */
  function Shifted(cuts: seq<nat>, k: nat): (r: seq<nat>)
    ensures |r| == |cuts| && forall i :: 0 <= i < |r| ==> r[i] == cuts[i] + k
  {
    seq(|cuts|, i requires 0 <= i < |cuts| => cuts[i] + k)
  }

  lemma FrameLater<F(!new)>(decode: Decoder<F>, frameMax: nat, s: seq<byte>, k: nat, from: nat, to: nat, f: F)
    requires k <= |s| && FrameAt(decode, frameMax, s[k..], from, to, f)
    ensures FrameAt(decode, frameMax, s, from + k, to + k, f)
  {
    assert s[k..][from..] == s[from + k..];
  }

  /** A frame in front of others. */
  lemma DeliversCons<F(!new)>(decode: Decoder<F>, frameMax: nat, s: seq<byte>, k: nat, f: F, frames: seq<F>, cuts: seq<nat>)
    requires FrameAt(decode, frameMax, s, 0, k, f) && Delivers(decode, frameMax, s[k..], frames, cuts)
    ensures Delivers(decode, frameMax, s, [f] + frames, [0] + Shifted(cuts, k))
  {
    var all, points := [f] + frames, [0] + Shifted(cuts, k);
    forall i | 0 <= i < |all|
      ensures FrameAt(decode, frameMax, s, points[i], points[i + 1], all[i])
    {
      if i > 0 {
        FrameLater(decode, frameMax, s, k, cuts[i - 1], cuts[i - 1 + 1], frames[i - 1]);
      }
    }
  }

  /** Each frame at the front of the input is handed out once and in order, and
      the loop stops where no further one can be. */
  lemma {:induction false} FramesAreCut<F(!new)>(decode: Decoder<F>, frameMax: nat, s: seq<byte>) returns (cuts: seq<nat>)
    requires Sane(decode)
    ensures CutInto(decode, frameMax, s, DecodeAll(decode, frameMax, s), cuts)
    decreases |s|
  {
    assert s[0..] == s;
    assert Accepts(decode, s);
    if s == [] || !decode(s).Parsed? || 0 < frameMax < Advanced(decode(s).steps) {
      return [0];
    }
    var k := Advanced(decode(s).steps);
    var later := FramesAreCut(decode, frameMax, s[k..]);
    var r := DecodeAll(decode, frameMax, s[k..]);
    DeliversCons(decode, frameMax, s, k, decode(s).frame, r.frames, later);
    cuts := [0] + Shifted(later, k);
    assert s[k..][later[|r.frames|]..] == s[later[|r.frames|] + k..];
  }

  /** There is only one way to cut: whatever else is cut so is the same batch. */
  lemma {:induction false} OnlyOneCut<F(!new)>(decode: Decoder<F>, frameMax: nat, s: seq<byte>, r: Batch<F>, cuts: seq<nat>)
    requires Sane(decode) && CutInto(decode, frameMax, s, r, cuts)
    ensures r == DecodeAll(decode, frameMax, s)
    decreases |s|
  {
    assert s[0..] == s;
    assert Accepts(decode, s);
    if r.frames != [] {
      assert FrameAt(decode, frameMax, s, cuts[0], cuts[0 + 1], r.frames[0]);
      var k := cuts[1];
      var later := Batch(r.frames[1..], r.rest, r.status);
      CutTail(decode, frameMax, s, r, cuts);
      OnlyOneCut(decode, frameMax, s[k..], later, Earlier(cuts[1..], k));
      assert r.frames == [r.frames[0]] + later.frames;
    }
  }

  /** Cut points counted from `k` on. */
  function Earlier(cuts: seq<nat>, k: nat): (r: seq<nat>)
    requires forall i :: 0 <= i < |cuts| ==> k <= cuts[i]
    ensures |r| == |cuts| && forall i :: 0 <= i < |r| ==> r[i] == cuts[i] - k
  {
    seq(|cuts|, i requires 0 <= i < |cuts| => cuts[i] - k)
  }

  lemma {:induction false} CutsAscend<F(!new)>(decode: Decoder<F>, frameMax: nat, s: seq<byte>, frames: seq<F>, cuts: seq<nat>, i: nat)
    requires Delivers(decode, frameMax, s, frames, cuts) && 1 <= i <= |frames|
    ensures cuts[1] <= cuts[i] <= |s|
    decreases i
  {
    assert FrameAt(decode, frameMax, s, cuts[i - 1], cuts[i - 1 + 1], frames[i - 1]);
    if i > 1 {
      CutsAscend(decode, frameMax, s, frames, cuts, i - 1);
    }
  }

  lemma CutTail<F(!new)>(decode: Decoder<F>, frameMax: nat, s: seq<byte>, r: Batch<F>, cuts: seq<nat>)
    requires CutInto(decode, frameMax, s, r, cuts) && r.frames != []
    ensures forall i :: 0 <= i < |cuts[1..]| ==> cuts[1] <= cuts[1..][i]
    ensures cuts[1] <= |s|
    ensures CutInto(decode, frameMax, s[cuts[1]..], Batch(r.frames[1..], r.rest, r.status), Earlier(cuts[1..], cuts[1]))
  {
    var k := cuts[1];
    forall i | 0 <= i < |cuts[1..]| ensures k <= cuts[1..][i] <= |s| {
      CutsAscend(decode, frameMax, s, r.frames, cuts, i + 1);
    }
    var later := Earlier(cuts[1..], k);
    forall i | 0 <= i < |r.frames[1..]|
      ensures FrameAt(decode, frameMax, s[k..], later[i], later[i + 1], r.frames[1..][i])
    {
      assert FrameAt(decode, frameMax, s, cuts[i + 1], cuts[i + 1 + 1], r.frames[i + 1]);
      assert s[k..][later[i]..] == s[cuts[i + 1]..];
    }
    assert s[k..][later[|r.frames| - 1]..] == s[cuts[|r.frames|]..];
  }

  /** Steps that stay within the input do not panic. */
  lemma {:induction false} ChainWithin(v: ParsingContext, steps: seq<Step>)
    requires OnlyAdvances(steps) && Advanced(steps) <= |v.Flat()|
    ensures Chain(v, steps).Some?
    decreases |steps|
  {
    if steps != [] {
      assert steps[0] in steps;
      ChainWithin(Apply(v, steps[0]).value, steps[1..]);
    }
  }

  function Consumed(steps: seq<Step>): (n: nat) {
    if OnlyAdvances(steps) then Advanced(steps) else 0
  }

  datatype ParseResult<+F> = Got(frame: F) | Nothing | Stopped(status: Status)

  /** `parse`: at most one frame, and exactly its bytes dropped. */
  method Parse<F(!new)>(b: Buffer, decode: Decoder<F>, frameMax: nat) returns (r: ParseResult<F>)
    requires b.Valid() && b.available > 0 && Sane(decode)
    modifies b`position, b`available
    ensures b.Valid()
    ensures
      var s := old(b.Contents());
      match decode(s)
      case Incomplete => r == Nothing && b.Contents() == s
      case Malformed => r == Stopped(ParseError) && b.Contents() == s
      case Parsed(f, steps) =>
        && Consumed(steps) <= |s|
        && if 0 < frameMax < Consumed(steps) then r == Stopped(TooLarge) && b.Contents() == s
           else r == Got(f) && b.Contents() == s[Consumed(steps)..]
  {
    var input := b.Context();
    OffsetExact(b.memory[..], b.position, b.available, []);
    assert input.Flat() == b.Contents();
    assert Accepts(decode, input.Flat());
    match decode(input.Flat()) {
      case Incomplete => r := Nothing;
      case Malformed => r := Stopped(ParseError);
      case Parsed(f, steps) =>
        ChainWithin(input, steps);
        OffsetExact(b.memory[..], b.position, b.available, steps);
        var consumed := b.Offset(Chain(input, steps).value);
        if 0 < frameMax < consumed {
          return Stopped(TooLarge);
        }
        var _ := b.Consume(consumed);
        r := Got(f);
    }
  }

  /** Parse until the buffer holds no whole frame.  What is handed out is the
      frames the buffer held, each once, and what stays is the rest. */
  method HandleFrames<F(!new)>(b: Buffer, decode: Decoder<F>, frameMax: nat) returns (frames: seq<F>, status: Status)
    requires b.Valid() && Sane(decode)
    modifies b`position, b`available
    ensures b.Valid()
    ensures Batch(frames, b.Contents(), status) == DecodeAll(decode, frameMax, old(b.Contents()))
    ensures exists cuts :: CutInto(decode, frameMax, old(b.Contents()), Batch(frames, b.Contents(), status), cuts)
  {
    frames := [];
    ghost var whole := DecodeAll(decode, frameMax, b.Contents());
    ghost var cuts := FramesAreCut(decode, frameMax, b.Contents());
    while b.available > 0
      invariant b.Valid()
      invariant
        var r := DecodeAll(decode, frameMax, b.Contents());
        whole == Batch(frames + r.frames, r.rest, r.status)
      decreases b.available
    {
      ghost var s := b.Contents();
      assert Accepts(decode, s);
      var r := Parse(b, decode, frameMax);
      assert frames + [] == frames;
      match r {
        case Nothing => return frames, NeedMore;
        case Stopped(e) => return frames, e;
        case Got(f) =>
          ghost var more := DecodeAll(decode, frameMax, b.Contents()).frames;
          Assoc(frames, [f], more);
          frames := frames + [f];
      }
    }
    assert frames + [] == frames;
    status := NeedMore;
  }

  /** Decoding what has arrived and then the leftover with more input is
      decoding everything at once. */
  lemma {:induction false} DecodeSplit<F(!new)>(decode: Decoder<F>, frameMax: nat, a: seq<byte>, b: seq<byte>)
    requires Sane(decode) && DecodeAll(decode, frameMax, a).status == NeedMore
    ensures
      var first := DecodeAll(decode, frameMax, a);
      var second := DecodeAll(decode, frameMax, first.rest + b);
      DecodeAll(decode, frameMax, a + b) == Batch(first.frames + second.frames, second.rest, second.status)
    decreases |a|
  {
    assert Accepts(decode, a);
    var second := DecodeAll(decode, frameMax, DecodeAll(decode, frameMax, a).rest + b);
    if a == [] || decode(a).Incomplete? {
      assert [] + second.frames == second.frames;
    } else {
      var k := Advanced(decode(a).steps);
      assert decode(a + b) == decode(a);
      assert (a + b)[k..] == a[k..] + b;
      DecodeSplit(decode, frameMax, a[k..], b);
      var f, r := decode(a).frame, DecodeAll(decode, frameMax, a[k..]);
      Assoc([f], r.frames, second.frames);
    }
  }

  /** Frames handed out when the input arrives in pieces, parsing after each. */
  ghost function Feed<F(!new)>(decode: Decoder<F>, frameMax: nat, rest: seq<byte>, pieces: seq<seq<byte>>): (r: Batch<F>)
    requires Sane(decode)
    decreases |pieces|
  {
    if pieces == [] then Batch([], rest, NeedMore)
    else
      var now := DecodeAll(decode, frameMax, rest + pieces[0]);
      if now.status != NeedMore then now
      else
        var later := Feed(decode, frameMax, now.rest, pieces[1..]);
        Batch(now.frames + later.frames, later.rest, later.status)
  }

  /** How the socket cuts the stream does not matter: parsing after every piece
      hands out the frames of the whole stream, and the same error if any. */
  lemma {:induction false} PiecesDoNotMatter<F(!new)>(decode: Decoder<F>, frameMax: nat, rest: seq<byte>, pieces: seq<seq<byte>>)
    requires Sane(decode) && DecodeAll(decode, frameMax, rest) == Batch([], rest, NeedMore)
    ensures
      var whole, fed := DecodeAll(decode, frameMax, rest + Concat(pieces)), Feed(decode, frameMax, rest, pieces);
      && whole.frames == fed.frames && whole.status == fed.status
      && (whole.status == NeedMore ==> whole.rest == fed.rest)
    decreases |pieces|
  {
    if pieces == [] {
      assert rest + [] == rest;
    } else {
      var a, b := rest + pieces[0], Concat(pieces[1..]);
      assert rest + Concat(pieces) == a + b;
      var now := DecodeAll(decode, frameMax, a);
      if now.status == NeedMore {
        DecodeSplit(decode, frameMax, a, b);
        RestIsStuck(decode, frameMax, a);
        PiecesDoNotMatter(decode, frameMax, now.rest, pieces[1..]);
      } else {
        ErrorIsFinal(decode, frameMax, a, b);
      }
    }
  }

  /** What is left holds no further frame. */
  lemma {:induction false} RestIsStuck<F(!new)>(decode: Decoder<F>, frameMax: nat, s: seq<byte>)
    requires Sane(decode) && DecodeAll(decode, frameMax, s).status == NeedMore
    ensures var rest := DecodeAll(decode, frameMax, s).rest;
      DecodeAll(decode, frameMax, rest) == Batch([], rest, NeedMore)
    decreases |s|
  {
    assert Accepts(decode, s);
    if s != [] && decode(s).Parsed? {
      RestIsStuck(decode, frameMax, s[Advanced(decode(s).steps)..]);
    }
  }

  lemma {:induction false} ErrorIsFinal<F(!new)>(decode: Decoder<F>, frameMax: nat, a: seq<byte>, b: seq<byte>)
    requires Sane(decode) && DecodeAll(decode, frameMax, a).status != NeedMore
    ensures
      var first, whole := DecodeAll(decode, frameMax, a), DecodeAll(decode, frameMax, a + b);
      whole.frames == first.frames && whole.status == first.status
    decreases |a|
  {
    assert Accepts(decode, a);
    assert decode(a + b) == decode(a);
    if decode(a).Parsed? {
      var k := Advanced(decode(a).steps);
      if !(0 < frameMax < k) {
        assert (a + b)[k..] == a[k..] + b;
        ErrorIsFinal(decode, frameMax, a[k..], b);
      }
    }
  }

  // ---- the buffer is bounded ----

  /** On a buffer of `cap` cells the stream `s` gets stuck: the buffer is full,
      holds no whole frame, and there is more to read. */
  ghost predicate Stalls<F(!new)>(decode: Decoder<F>, frameMax: nat, cap: nat, s: seq<byte>)
    requires Sane(decode)
    decreases |s|
  {
    var seen := s[..Min(|s|, cap)];
    assert Accepts(decode, seen);
    s != [] &&
    match decode(seen)
    case Incomplete => |s| > cap
    case Malformed => false
    case Parsed(_, steps) => !(0 < frameMax < Advanced(steps)) && Stalls(decode, frameMax, cap, s[Advanced(steps)..])
  }

  /** What the buffer already holds is seen whole. */
  lemma SeenFirst<F(!new)>(decode: Decoder<F>, cap: nat, a: seq<byte>, b: seq<byte>)
    requires Sane(decode) && |a| <= cap && !decode(a).Incomplete?
    ensures decode((a + b)[..Min(|a + b|, cap)]) == decode(a)
  {
    var seen := (a + b)[..Min(|a + b|, cap)];
    assert Accepts(decode, a);
    assert seen == a + seen[|a|..];
  }

  /** Handling what the buffer holds does not change whether the stream stalls. */
  lemma {:induction false} StallsLater<F(!new)>(decode: Decoder<F>, frameMax: nat, cap: nat, a: seq<byte>, b: seq<byte>)
    requires Sane(decode) && |a| <= cap
    ensures
      var now := DecodeAll(decode, frameMax, a);
      if now.status == NeedMore
      then Stalls(decode, frameMax, cap, a + b) <==> Stalls(decode, frameMax, cap, now.rest + b)
      else !Stalls(decode, frameMax, cap, a + b)
    decreases |a|
  {
    assert Accepts(decode, a);
    if a != [] && !decode(a).Incomplete? {
      SeenFirst(decode, cap, a, b);
      if decode(a).Parsed? {
        var k := Advanced(decode(a).steps);
        assert (a + b)[k..] == a[k..] + b;
        StallsLater(decode, frameMax, cap, a[k..], b);
      }
    }
  }

  /** The buffer holds nothing that can be handed out. */
  ghost predicate Stuck<F(!new)>(decode: Decoder<F>, frameMax: nat, s: seq<byte>)
    requires Sane(decode)
  {
    DecodeAll(decode, frameMax, s) == Batch([], s, NeedMore)
  }

  lemma StuckStalls<F(!new)>(decode: Decoder<F>, frameMax: nat, cap: nat, a: seq<byte>, b: seq<byte>)
    requires Sane(decode) && Stuck(decode, frameMax, a) && 0 < |a| <= cap && (b == [] || |a| == cap)
    ensures Stalls(decode, frameMax, cap, a + b) <==> b != []
  {
    assert Accepts(decode, a);
    assert (a + b)[..Min(|a + b|, cap)] == a;
  }

  /** With `frames` handed out, what is `held` and what is `left` to read come to
      the `whole` and stall if it `stalls`. */
  ghost predicate Pumped<F(!new)>(decode: Decoder<F>, frameMax: nat, cap: nat, held: seq<byte>, left: seq<byte>,
                                  frames: seq<F>, whole: Batch<F>, stalls: bool)
    requires Sane(decode)
  {
    var r := DecodeAll(decode, frameMax, held + left);
    && whole == Batch(frames + r.frames, r.rest, r.status)
    && stalls == Stalls(decode, frameMax, cap, held + left)
  }

  /** One turn of the loop: what was read is parsed. */
  lemma PumpStep<F(!new)>(decode: Decoder<F>, frameMax: nat, cap: nat, held: seq<byte>, left: seq<byte>,
                          frames: seq<F>, whole: Batch<F>, stalls: bool)
    requires Sane(decode) && |held| <= cap && DecodeAll(decode, frameMax, held).status == NeedMore
    requires Pumped(decode, frameMax, cap, held, left, frames, whole, stalls)
    ensures
      var now := DecodeAll(decode, frameMax, held);
      && Pumped(decode, frameMax, cap, now.rest, left, frames + now.frames, whole, stalls)
      && Stuck(decode, frameMax, now.rest)
  {
    DecodeSplit(decode, frameMax, held, left);
    StallsLater(decode, frameMax, cap, held, left);
    RestIsStuck(decode, frameMax, held);
    var now := DecodeAll(decode, frameMax, held);
    Assoc(frames, now.frames, DecodeAll(decode, frameMax, now.rest + left).frames);
  }

  lemma PumpStops<F(!new)>(decode: Decoder<F>, frameMax: nat, cap: nat, held: seq<byte>, left: seq<byte>,
                           frames: seq<F>, whole: Batch<F>, stalls: bool)
    requires Sane(decode) && |held| <= cap && DecodeAll(decode, frameMax, held).status != NeedMore
    requires Pumped(decode, frameMax, cap, held, left, frames, whole, stalls)
    ensures
      var now := DecodeAll(decode, frameMax, held);
      whole.frames == frames + now.frames && whole.status == now.status && !stalls
  {
    ErrorIsFinal(decode, frameMax, held, left);
    StallsLater(decode, frameMax, cap, held, left);
  }

  lemma PumpEnds<F(!new)>(decode: Decoder<F>, frameMax: nat, cap: nat, held: seq<byte>,
                          frames: seq<F>, whole: Batch<F>, stalls: bool)
    requires Sane(decode) && |held| <= cap && Stuck(decode, frameMax, held)
    requires Pumped(decode, frameMax, cap, held, [], frames, whole, stalls)
    ensures whole == Batch(frames, held, NeedMore) && !stalls
  {
    assert held + [] == held && frames + [] == frames;
    if held != [] {
      StuckStalls(decode, frameMax, cap, held, []);
    }
  }

  /** Read up to `want` bytes, fewer if the buffer gets full. */
  method ReadSome(b: Buffer, left: seq<byte>, want: nat) returns (n: nat)
    requires b.Valid() && left != [] && want > 0
    modifies b`end, b`available, b.memory
    ensures b.Valid() && n <= |left|
    ensures b.Contents() + left[n..] == old(b.Contents()) + left
    ensures n == 0 ==> b.Contents() == old(b.Contents()) && b.available == b.capacity
  {
    var data := left[..Min(|left|, want)];
    n := ReadThenFill(b, data);
    assert b.Contents() == b.Queue().bytes == old(b.Contents()) + data[..n];
    assert data[..n] == left[..n] && left[..n] + left[n..] == left;
    Assoc(old(b.Contents()), left[..n], left[n..]);
  }

  /** With `frames` handed out, the rest of the stream is what is held and what
      is left to read. */
  ghost predicate AtCut<F>(s: seq<byte>, cuts: seq<nat>, frames: seq<F>, held: seq<byte>, left: seq<byte>) {
    |frames| < |cuts| && cuts[|frames|] <= |s| && held + left == s[cuts[|frames|]..]
  }

  lemma FrameSooner<F(!new)>(decode: Decoder<F>, frameMax: nat, s: seq<byte>, t: seq<byte>, from: nat, to: nat, f: F)
    requires Sane(decode) && FrameAt(decode, frameMax, s, from, to, f)
    ensures FrameAt(decode, frameMax, s + t, from, to, f)
  {
    assert Accepts(decode, s[from..]);
    assert (s + t)[from..] == s[from..] + t;
  }

  /** The frames of what is held are cut where those of the stream are. */
  lemma {:induction false} CutsAgree<F(!new)>(decode: Decoder<F>, frameMax: nat, s: seq<byte>, all: seq<F>, cuts: seq<nat>, n: nat,
                                              held: seq<byte>, left: seq<byte>, now: seq<F>, points: seq<nat>, i: nat)
    requires Sane(decode) && Delivers(decode, frameMax, s, all, cuts) && Delivers(decode, frameMax, held, now, points)
    requires i <= |now| && n + |now| <= |all| && cuts[n] <= |s| && held + left == s[cuts[n]..]
    ensures cuts[n + i] == cuts[n] + points[i]
    decreases i
  {
    if i > 0 {
      CutsAgree(decode, frameMax, s, all, cuts, n, held, left, now, points, i - 1);
      assert FrameAt(decode, frameMax, held, points[i - 1], points[i - 1 + 1], now[i - 1]);
      FrameSooner(decode, frameMax, held, left, points[i - 1], points[i - 1 + 1], now[i - 1]);
      assert FrameAt(decode, frameMax, s, cuts[n + i - 1], cuts[n + i - 1 + 1], all[n + i - 1]);
      assert (held + left)[points[i - 1]..] == s[cuts[n + i - 1]..];
    }
  }

  lemma CutStep<F(!new)>(decode: Decoder<F>, frameMax: nat, s: seq<byte>, whole: Batch<F>, cuts: seq<nat>,
                         frames: seq<F>, held: seq<byte>, left: seq<byte>)
    requires Sane(decode) && CutInto(decode, frameMax, s, whole, cuts) && AtCut(s, cuts, frames, held, left)
    requires |frames + DecodeAll(decode, frameMax, held).frames| <= |whole.frames|
    ensures
      var now := DecodeAll(decode, frameMax, held);
      AtCut(s, cuts, frames + now.frames, now.rest, left)
  {
    var now := DecodeAll(decode, frameMax, held);
    var points := FramesAreCut(decode, frameMax, held);
    var n, m := |frames|, |now.frames|;
    CutsAgree(decode, frameMax, s, whole.frames, cuts, n, held, left, now.frames, points, m);
    assert now.rest + left == (held + left)[points[m]..] == s[cuts[n]..][points[m]..] == s[cuts[n + m]..];
  }

  /** What `Pump` comes to: the frames at the front of the stream, each once; the
      buffer holds the beginning of the rest, and all of it if more is needed;
      and there is a reason to stop, or the buffer is full. */
  ghost predicate PumpedOut<F(!new)>(decode: Decoder<F>, frameMax: nat, cap: nat, s: seq<byte>, held: seq<byte>,
                                     frames: seq<F>, status: Status, stalled: bool, cuts: seq<nat>)
  {
    && Delivers(decode, frameMax, s, frames, cuts) && cuts[|frames|] <= |s|
    && var rest := s[cuts[|frames|]..];
       && held <= rest
       && if stalled then |held| == cap < |rest|
          else StopsAt(decode, frameMax, rest, status) && (status == NeedMore ==> held == rest)
  }

  lemma PumpedSome<F(!new)>(decode: Decoder<F>, frameMax: nat, s: seq<byte>, whole: Batch<F>, cuts: seq<nat>, frames: seq<F>)
    requires CutInto(decode, frameMax, s, whole, cuts) && frames <= whole.frames
    ensures Delivers(decode, frameMax, s, frames, cuts[..|frames| + 1])
  {
    var some := cuts[..|frames| + 1];
    forall i | 0 <= i < |frames|
      ensures FrameAt(decode, frameMax, s, some[i], some[i + 1], frames[i])
    {
      assert FrameAt(decode, frameMax, s, cuts[i], cuts[i + 1], whole.frames[i]);
    }
  }

  /** Read, then parse, until the input is used up, an error stops it or nothing
      more fits; the socket offers `want(i)` bytes, and one more, at turn `i`. */
  method Pump<F(!new)>(b: Buffer, decode: Decoder<F>, frameMax: nat, input: seq<byte>, want: nat -> nat)
    returns (frames: seq<F>, status: Status, stalled: bool)
    requires b.Valid() && Sane(decode) && Stuck(decode, frameMax, b.Contents())
    modifies b`position, b`end, b`available, b.memory
    ensures b.Valid()
    ensures stalled <==> Stalls(decode, frameMax, b.capacity, old(b.Contents()) + input)
    ensures
      var whole := DecodeAll(decode, frameMax, old(b.Contents()) + input);
      if stalled then frames <= whole.frames && b.available == b.capacity
      else frames == whole.frames && status == whole.status && (status == NeedMore ==> b.Contents() == whole.rest)
    ensures exists cuts ::
      PumpedOut(decode, frameMax, b.capacity, old(b.Contents()) + input, b.Contents(), frames, status, stalled, cuts)
  {
    frames, status, stalled := [], NeedMore, false;
    var left, turn := input, 0;
    ghost var stream := b.Contents() + input;
    ghost var whole := DecodeAll(decode, frameMax, stream);
    ghost var stalls := Stalls(decode, frameMax, b.capacity, stream);
    ghost var cuts := FramesAreCut(decode, frameMax, stream);
    assert [] + whole.frames == whole.frames && stream[0..] == stream;
    while left != []
      invariant b.Valid() && Stuck(decode, frameMax, b.Contents())
      invariant Pumped(decode, frameMax, b.capacity, b.Contents(), left, frames, whole, stalls)
      invariant AtCut(stream, cuts, frames, b.Contents(), left)
      decreases |left|
    {
      var n := ReadSome(b, left, want(turn) + 1);
      if n == 0 {
        StuckStalls(decode, frameMax, b.capacity, b.Contents(), left);
        PumpedSome(decode, frameMax, stream, whole, cuts, frames);
        assert PumpedOut(decode, frameMax, b.capacity, stream, b.Contents(), frames, NeedMore, true, cuts[..|frames| + 1]);
        return frames, NeedMore, true;
      }
      left, turn := left[n..], turn + 1;
      ghost var held := b.Contents();
      var more, s := HandleFrames(b, decode, frameMax);
      if s != NeedMore {
        PumpStops(decode, frameMax, b.capacity, held, left, frames, whole, stalls);
        CutStep(decode, frameMax, stream, whole, cuts, frames, held, left);
        assert PumpedOut(decode, frameMax, b.capacity, stream, b.Contents(), frames + more, s, false, cuts);
        return frames + more, s, false;
      }
      PumpStep(decode, frameMax, b.capacity, held, left, frames, whole, stalls);
      CutStep(decode, frameMax, stream, whole, cuts, frames, held, left);
      frames := frames + more;
    }
    PumpEnds(decode, frameMax, b.capacity, b.Contents(), frames, whole, stalls);
    assert PumpedOut(decode, frameMax, b.capacity, stream, b.Contents(), frames, NeedMore, false, cuts);
  }

  /** The parser looks at no byte beyond those it takes. */
  ghost predicate Exacting<F(!new)>(decode: Decoder<F>)
    requires Sane(decode)
  {
    forall s: seq<byte> :: TakesAll(decode, s)
  }

  ghost predicate TakesAll<F(!new)>(decode: Decoder<F>, s: seq<byte>)
    requires Sane(decode)
  {
    assert Accepts(decode, s);
    decode(s).Parsed? ==> decode(s[..Advanced(decode(s).steps)]) == decode(s)
  }

  /** Some frame of the stream, or its unfinished last one, exceeds `cap`. */
  ghost predicate Oversized<F(!new)>(decode: Decoder<F>, cap: nat, s: seq<byte>)
    requires Sane(decode)
    decreases |s|
  {
    assert Accepts(decode, s);
    s != [] &&
    match decode(s)
    case Incomplete => |s| > cap
    case Malformed => false
    case Parsed(_, steps) => Advanced(steps) > cap || Oversized(decode, cap, s[Advanced(steps)..])
  }

  /** A stream without errors stalls exactly when one of its frames is larger
      than the buffer. */
  lemma {:induction false} StallIff<F(!new)>(decode: Decoder<F>, frameMax: nat, cap: nat, s: seq<byte>)
    requires Sane(decode) && Exacting(decode) && DecodeAll(decode, frameMax, s).status == NeedMore
    ensures Stalls(decode, frameMax, cap, s) <==> Oversized(decode, cap, s)
    decreases |s|
  {
    if s != [] {
      var seen := s[..Min(|s|, cap)];
      assert Accepts(decode, s) && Accepts(decode, seen);
      assert s == seen + s[|seen|..];
      if decode(s).Parsed? {
        var k := Advanced(decode(s).steps);
        assert TakesAll(decode, s);
        if k <= cap {
          assert Accepts(decode, s[..k]) && seen == s[..k] + seen[k..];
          StallIff(decode, frameMax, cap, s[k..]);
        }
      }
    }
  }
}
