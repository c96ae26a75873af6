/** Frame generators writing into the ring, with back-patched headers
    (`reserve_write_use` in src/buffer.rs).

    The generators live in another crate.  Here one is a program: raw bytes, a
    sequence, a body whose header is written only after it (lengths are), or a
    failure of the generator's own.
 */
module Generator {
  import opened Bytes
  import opened RingBuffer

  datatype Gen =
    | Raw(bytes: seq<byte>)
    | Then(fst: Gen, snd: Gen)
    | Patched(header: seq<byte>, body: Gen)
    | Fails

  /** What a generator that succeeds is meant to leave: headers before bodies. */
  function Encoding(g: Gen): (s: seq<byte>) {
    match g
    case Raw(b) => b
    case Then(a, b) => Encoding(a) + Encoding(b)
    case Patched(h, body) => h + Encoding(body)
    case Fails => []
  }

  /** A buffer after a generator ran on it, and whether the generator succeeded. */
  datatype Outcome = Outcome(ring: Linear, ok: bool)

  function Run(l: Linear, g: Gen): (r: Outcome)
    requires l.Valid()
    ensures r.ring.Valid() && |r.ring.cells| == |l.cells| && l.available <= r.ring.available
    decreases g
  {
    match g
    case Raw(b) =>
      var n := Min(|b|, l.Space());
      Outcome(l.Append(b[..n]), n == |b|)
    case Then(a, b) =>
      var m := Run(l, a);
      if m.ok then Run(m.ring, b) else m
    case Patched(h, body) =>
      if l.Space() < |h| then Outcome(l, false)
      else
        var m := Run(l.Reserve(|h|), body);
        if m.ok then PatchHeader(m.ring, l.available, h) else m
    case Fails => Outcome(l, false)
  }

  /** Go back to `start`, write the header there, come forward again. */
  function PatchHeader(m: Linear, start: nat, h: seq<byte>): (r: Outcome)
    requires m.Valid() && start + |h| <= m.available
    ensures r.ring.Valid() && |r.ring.cells| == |m.cells| && start + |h| <= r.ring.available
  {
    var back := m.RollBack(start);
    var n := Min(|h|, back.Space());
    var written := back.Append(h[..n]);
    if n == |h| then Outcome(written.RollForward(m.available), true)
    else Outcome(written, false)
  }

  /** Whether a generator that stops on `l` stops by its own failure rather than
      for lack of room. */
  predicate Refused(l: Linear, g: Gen)
    requires l.Valid()
    decreases g
  {
    match g
    case Raw(_) => false
    case Fails => true
    case Then(a, b) => if Run(l, a).ok then Refused(Run(l, a).ring, b) else Refused(l, a)
    case Patched(h, body) =>
      |h| <= l.Space() && !Run(l.Reserve(|h|), body).ok && Refused(l.Reserve(|h|), body)
  }

  /** How a run ends: the cells in use then, whether it succeeded, and if not,
      whether the generator itself gave up. */
  datatype Fate = Fate(used: nat, ok: bool, refused: bool)

  /** How a generator ends on a buffer with `used` of `cap` cells in use, from
      lengths alone.  A header cannot be patched after a full turn. */
  function Ends(g: Gen, used: nat, cap: nat): (r: Fate)
    requires used <= cap
    ensures used <= r.used <= cap
  {
    match g
    case Raw(b) => Fate(used + Min(|b|, cap - used), |b| <= cap - used, false)
    case Then(a, b) =>
      var r := Ends(a, used, cap);
      if r.ok then Ends(b, r.used, cap) else r
    case Patched(h, body) =>
      if cap - used < |h| then Fate(used, false, false)
      else
        var r := Ends(body, used + |h|, cap);
        if r.ok && r.used - used == cap then Fate(cap, h == [], false) else r
    case Fails => Fate(used, false, true)
  }

  ghost predicate EndsAs(l: Linear, g: Gen, r: Fate)
    requires l.Valid()
  {
    && Run(l, g).ok == r.ok && Run(l, g).ring.available == r.used
    && Refused(l, g) == r.refused && !(r.ok && r.refused)
  }

  /** A generator is refused, succeeds or runs out of room exactly as its
      lengths say, on every buffer. */
  lemma {:induction false} EndsExact(l: Linear, g: Gen)
    requires l.Valid()
    ensures EndsAs(l, g, Ends(g, l.available, |l.cells|))
    decreases g
  {
    match g
    case Raw(_) =>
    case Fails =>
    case Then(a, b) =>
      EndsExact(l, a);
      if Run(l, a).ok {
        EndsExact(Run(l, a).ring, b);
        EndsThen(l, a, b, Ends(b, Run(l, a).ring.available, |l.cells|));
      } else {
        EndsStopped(l, a, b, Ends(a, l.available, |l.cells|));
      }
    case Patched(h, body) =>
      if |h| <= l.Space() {
        EndsExact(l.Reserve(|h|), body);
        EndsPatched(Run(l.Reserve(|h|), body).ring, l.available, h);
      }
  }

  lemma EndsThen(l: Linear, a: Gen, b: Gen, r: Fate)
    requires l.Valid() && Run(l, a).ok && EndsAs(Run(l, a).ring, b, r)
    ensures EndsAs(l, Then(a, b), r)
  {
  }

  lemma EndsStopped(l: Linear, a: Gen, b: Gen, r: Fate)
    requires l.Valid() && !Run(l, a).ok && EndsAs(l, a, r)
    ensures EndsAs(l, Then(a, b), r)
  {
  }

  lemma EndsPatched(m: Linear, start: nat, h: seq<byte>)
    requires m.Valid() && start + |h| <= m.available
    ensures
      var p := PatchHeader(m, start, h);
      if m.available - start == |m.cells| then p.ok == (h == []) && p.ring.available == |m.cells|
      else p.ok && p.ring.available == m.available
  {
  }

  /** A generator that never gives up of its own. */
  predicate Complete(g: Gen) {
    match g
    case Raw(_) => true
    case Then(a, b) => Complete(a) && Complete(b)
    case Patched(_, body) => Complete(body)
    case Fails => false
  }

  lemma {:induction false} EndsComplete(g: Gen, used: nat, cap: nat)
    requires used <= cap
    ensures Complete(g) ==> !Ends(g, used, cap).refused
    ensures Ends(g, used, cap).ok ==> Complete(g)
    ensures used + |Encoding(g)| <= cap && (0 < used || |Encoding(g)| < cap) ==>
      var r := Ends(g, used, cap);
      && r.ok == Complete(g) && r.refused == !Complete(g)
      && r.used <= used + |Encoding(g)|
    decreases g
  {
    match g
    case Raw(_) =>
    case Fails =>
    case Then(a, b) =>
      EndsComplete(a, used, cap);
      EndsComplete(b, Ends(a, used, cap).used, cap);
    case Patched(h, body) =>
      if |h| <= cap - used {
        EndsComplete(body, used + |h|, cap);
      }
  }

  /** Given room for its bytes, short of a full turn, a generator is refused
      exactly when it gives up somewhere; without room it is never refused
      unless it does. */
  lemma RefusedIff(l: Linear, g: Gen)
    requires l.Valid()
    ensures Refused(l, g) ==> !Complete(g) && !Run(l, g).ok
    ensures Run(l, g).ok ==> Complete(g)
    ensures |Encoding(g)| <= l.Space() && |Encoding(g)| < |l.cells| ==> (Refused(l, g) <==> !Complete(g))
  {
    EndsExact(l, g);
    EndsComplete(g, l.available, |l.cells|);
  }

  datatype Extent = Extent(cells: nat, done: bool)

  /** The number of cells a generator goes over in `space` free ones, and
      whether it completes, computed from lengths alone. */
  function Laid(g: Gen, space: nat): (r: Extent)
    ensures r.cells <= space
  {
    match g
    case Raw(b) => Extent(Min(|b|, space), |b| <= space)
    case Then(a, b) =>
      var n := Laid(a, space);
      if !n.done then n
      else var m := Laid(b, space - n.cells); Extent(n.cells + m.cells, m.done)
    case Patched(h, body) =>
      if space < |h| then Extent(0, false)
      else var n := Laid(body, space - |h|); Extent(|h| + n.cells, n.done)
    case Fails => Extent(0, false)
  }

  /** No generator starting on an empty buffer goes all the way round it.
      A caller can evaluate this before the call. */
  predicate NoFullTurn(l: Linear, g: Gen)
    requires l.Valid()
  {
    l.available > 0 || Laid(g, |l.cells|).cells < |l.cells|
  }

  lemma {:induction false} LaidEncoding(g: Gen, space: nat)
    ensures Laid(g, space).done ==> Laid(g, space).cells == |Encoding(g)|
    ensures Laid(g, space).cells <= |Encoding(g)|
  {
    match g
    case Raw(_) =>
    case Fails =>
    case Then(a, b) =>
      LaidEncoding(a, space);
      if Laid(a, space).done {
        LaidEncoding(b, space - Laid(a, space).cells);
      }
    case Patched(h, body) =>
      if |h| <= space {
        LaidEncoding(body, space - |h|);
      }
  }

  /** `r`, `ok` is what `l` becomes when `n` cells are gone over and, on
      success, `bytes` are appended. */
  ghost predicate Advances(l: Linear, r: Linear, ok: bool, n: nat, bytes: seq<byte>)
    requires l.Valid()
  {
    && r.Valid() && r.available == l.available + n
    && r.cells[..l.available] == l.cells[..l.available]
    && (ok ==> r.cells[..r.available] == l.cells[..l.available] + bytes)
  }

  lemma AdvancesRaw(l: Linear, b: seq<byte>)
    requires l.Valid()
    ensures Advances(l, Run(l, Raw(b)).ring, Run(l, Raw(b)).ok, Min(|b|, l.Space()), b)
  {
    assert |b| <= l.Space() ==> b[..|b|] == b;
  }

  lemma AdvancesTwice(l: Linear, m: Linear, r: Linear, ok: bool, n: nat, n': nat, a: seq<byte>, b: seq<byte>)
    requires l.Valid() && Advances(l, m, true, n, a) && Advances(m, r, ok, n', b)
    ensures Advances(l, r, ok, n + n', a + b)
  {
    assert r.cells[..l.available] == r.cells[..m.available][..l.available];
    assert l.cells[..l.available] + a + b == l.cells[..l.available] + (a + b);
  }

  /** A header patched in front of a body that was generated exactly. */
  lemma AdvancesPatched(l: Linear, m: Linear, ok: bool, h: seq<byte>, n: nat, body: seq<byte>)
    requires l.Valid() && l.available + |h| <= |l.cells| == |m.cells|
    requires |h| + n < |l.cells| || !ok
    requires Advances(l.Reserve(|h|), m, ok, n, body)
    ensures !ok ==> Advances(l, m, ok, |h| + n, h + body)
    ensures ok ==>
      var p := PatchHeader(m, l.available, h);
      p.ok && Advances(l, p.ring, true, |h| + n, h + body)
  {
    var a := l.available;
    assert m.cells[..a] == m.cells[..a + |h|][..a] == l.cells[..a + |h|][..a] == l.cells[..a];
    if ok {
      PatchExact(m, a, h);
      assert m.cells[a + |h|..m.available] == m.cells[..m.available][a + |h|..] == body;
      assert l.cells[..a] + h + body == l.cells[..a] + (h + body);
    }
  }

  /** Running `g` does what its lengths and its encoding say. */
  ghost predicate Exact(l: Linear, g: Gen)
    requires l.Valid()
  {
    var r, n := Run(l, g), Laid(g, l.Space());
    r.ok == n.done && Advances(l, r.ring, r.ok, n.cells, Encoding(g))
  }

  /** A sequence whose first half succeeds does what its second half does next. */
  lemma RunThen(l: Linear, a: Gen, b: Gen)
    requires l.Valid() && Run(l, a).ok
    ensures Run(l, Then(a, b)) == Run(Run(l, a).ring, b)
  {
  }

  lemma LaidThen(l: Linear, m: Linear, a: Gen, b: Gen)
    requires l.Valid() && m.Valid() && |m.cells| == |l.cells|
    requires Laid(a, l.Space()).done && m.available == l.available + Laid(a, l.Space()).cells
    ensures Laid(Then(a, b), l.Space()) ==
            Extent(Laid(a, l.Space()).cells + Laid(b, m.Space()).cells, Laid(b, m.Space()).done)
  {
    assert m.Space() == l.Space() - Laid(a, l.Space()).cells;
  }

  lemma ThenExact(l: Linear, a: Gen, b: Gen)
    requires l.Valid() && Run(l, a).ok && Exact(l, a) && Exact(Run(l, a).ring, b)
    ensures Exact(l, Then(a, b))
  {
    var m := Run(l, a);
    LaidThen(l, m.ring, a, b);
    RunThen(l, a, b);
    ExactTwice(l, a, b, m, Laid(a, l.Space()), Run(m.ring, b), Laid(b, m.ring.Space()));
  }

  /** Exactness of a sequence from that of its halves. */
  lemma ExactTwice(l: Linear, a: Gen, b: Gen, m: Outcome, n: Extent, r: Outcome, n': Extent)
    requires l.Valid() && m.ok && m.ring.Valid()
    requires Run(l, Then(a, b)) == r
    requires Laid(Then(a, b), l.Space()) == Extent(n.cells + n'.cells, n'.done)
    requires m.ok == n.done && Advances(l, m.ring, m.ok, n.cells, Encoding(a))
    requires r.ok == n'.done && Advances(m.ring, r.ring, r.ok, n'.cells, Encoding(b))
    ensures Exact(l, Then(a, b))
  {
    AdvancesTwice(l, m.ring, r.ring, r.ok, n.cells, n'.cells, Encoding(a), Encoding(b));
  }

  lemma ThenStops(l: Linear, a: Gen, b: Gen)
    requires l.Valid() && !Run(l, a).ok && Exact(l, a)
    ensures Exact(l, Then(a, b))
  {
    AdvancesFailed(l, Run(l, a).ring, Laid(a, l.Space()).cells, Encoding(a), Encoding(Then(a, b)));
  }

  lemma AdvancesFailed(l: Linear, m: Linear, n: nat, a: seq<byte>, b: seq<byte>)
    requires l.Valid() && Advances(l, m, false, n, a)
    ensures Advances(l, m, false, n, b)
  {
  }

  lemma PatchedExact(l: Linear, h: seq<byte>, body: Gen)
    requires l.Valid() && |h| <= l.Space() && NoFullTurn(l, Patched(h, body))
    requires Exact(l.Reserve(|h|), body)
    ensures Exact(l, Patched(h, body))
  {
    var reserved := l.Reserve(|h|);
    var m := Run(reserved, body);
    AdvancesPatched(l, m.ring, m.ok, h, Laid(body, reserved.Space()).cells, Encoding(body));
  }

  /** Back-patching is exact: short of a full turn, a generator succeeds exactly
      when its bytes fit; then the queue grows by its encoding, headers in front
      of their bodies wherever the ring wraps, and otherwise the bytes queued
      before are untouched. */
  lemma {:induction false} RunExact(l: Linear, g: Gen)
    requires l.Valid() && NoFullTurn(l, g)
    ensures Exact(l, g)
    decreases g
  {
    match g
    case Raw(b) =>
      AdvancesRaw(l, b);
    case Fails =>
    case Then(a, b) =>
      RunExact(l, a);
      if Run(l, a).ok {
        RunExact(Run(l, a).ring, b);
        ThenExact(l, a, b);
      } else {
        ThenStops(l, a, b);
      }
    case Patched(h, body) =>
      if |h| <= l.Space() {
        RunExact(l.Reserve(|h|), body);
        PatchedExact(l, h, body);
      }
  }

  /** Patching a header short of a full turn puts it at `start` and changes
      nothing before or after it. */
  lemma PatchExact(m: Linear, start: nat, h: seq<byte>)
    requires m.Valid() && start + |h| <= m.available && m.available - start < |m.cells|
    ensures
      var Outcome(r, ok) := PatchHeader(m, start, h);
      && ok && r.available == m.available
      && r.Contents() == m.cells[..start] + h + m.cells[start + |h|..m.available]
      && r.cells[..start] == m.cells[..start]
  {
    var back := m.RollBack(start);
    assert h[..|h|] == h;
    var w := back.Append(h);
    assert w.cells == m.cells[..start] + h + m.cells[start + |h|..];
  }

  /** From an empty buffer, going over every cell leaves it full. */
  lemma {:induction false} FullTurnFills(l: Linear, g: Gen)
    requires l.Valid() && !NoFullTurn(l, g)
    ensures Run(l, g).ring.available == |l.cells|
    decreases g
  {
    match g
    case Raw(_) =>
    case Fails =>
    case Then(a, b) =>
      if NoFullTurn(l, a) {
        RunExact(l, a);
        var m := Run(l, a).ring;
        if NoFullTurn(m, b) { RunExact(m, b); } else { FullTurnFills(m, b); }
      } else {
        FullTurnFills(l, a);
        var Outcome(m, ok) := Run(l, a);
        if ok { RunExact(m, b); }
      }
    case Patched(h, body) =>
      var reserved := l.Reserve(|h|);
      if NoFullTurn(reserved, body) { RunExact(reserved, body); } else { FullTurnFills(reserved, body); }
  }

  /** Rolling back to a checkpoint taken before a generator ran restores the
      queue exactly when the generator did not go all the way round an empty
      buffer: then both ends coincide and the rollback does nothing. */
  lemma RollbackRestores(l: Linear, g: Gen)
    requires l.Valid()
    ensures Run(l, g).ring.RollBack(l.available).Contents() == l.Contents() <==> NoFullTurn(l, g)
  {
    if NoFullTurn(l, g) {
      RunExact(l, g);
    } else {
      FullTurnFills(l, g);
    }
  }

  /** A frame larger than the whole buffer: the failed attempt cannot be undone. */
  lemma OversizedFrameStays()
    ensures
      var empty := Linear([0, 0, 0], 0);
      var g := Raw([7, 7, 7, 7]);
      && !Run(empty, g).ok
      && Run(empty, g).ring.RollBack(0).Contents() == [7, 7, 7]
  {
    var empty := Linear([0, 0, 0], 0);
    var g := Raw([7, 7, 7, 7]);
    assert g.bytes[..3] == [7, 7, 7];
  }

  /** Run a generator on the buffer itself. */
  method Generate(b: Buffer, g: Gen) returns (ok: bool, refused: bool)
    requires b.Valid()
    modifies b`end, b`available, b.memory
    ensures b.Valid() && Outcome(b.View(), ok) == Run(old(b.View()), g)
    ensures !ok ==> refused == Refused(old(b.View()), g)
    decreases g, 0
  {
    match g
    case Raw(bytes) =>
      var n := b.Write(bytes);
      ok, refused := n == |bytes|, false;
    case Then(fst, snd) =>
      ok, refused := Generate(b, fst);
      if ok {
        ok, refused := Generate(b, snd);
      }
    case Fails =>
      ok, refused := false, true;
    case Patched(header, body) =>
      ok, refused := ReserveWriteUse(b, header, body);
  }

  /** Reserve room for a header, generate the body, then step back to write the
      header and forward again. */
  method ReserveWriteUse(b: Buffer, header: seq<byte>, body: Gen) returns (ok: bool, refused: bool)
    requires b.Valid()
    modifies b`end, b`available, b.memory
    ensures b.Valid() && Outcome(b.View(), ok) == Run(old(b.View()), Patched(header, body))
    ensures !ok ==> refused == Refused(old(b.View()), Patched(header, body))
    decreases body, 1
  {
    if b.AvailableSpace() < |header| {
      return false, false;
    }
    var start := b.MakeCheckpoint();
    ghost var mark := b.available;
    var _ := b.Fill(|header|);
    ok, refused := Generate(b, body);
    if ok {
      ok := UseReserved(b, start, mark, header);
      refused := false;
    }
  }

  /** Step back to a checkpoint taken `mark` bytes after the front. */
  method StepBack(b: Buffer, start: Checkpoint, ghost mark: nat)
    requires b.Valid() && mark <= b.available
    requires start == Checkpoint(EndOf(b.position, mark, b.capacity), true)
    modifies b`end, b`available
    ensures b.Valid() && b.View() == old(b.View()).RollBack(mark)
  {
    DistanceBack(b.position, mark, b.available, b.capacity);
    b.Rollback(start);
  }

  /** Step forward to one taken later. */
  method StepForward(b: Buffer, end: Checkpoint, ghost mark: nat)
    requires b.Valid() && b.available <= mark <= b.capacity
    requires end == Checkpoint(EndOf(b.position, mark, b.capacity), false)
    modifies b`end, b`available
    ensures b.Valid() && b.View() == old(b.View()).RollForward(mark)
  {
    DistanceBack(b.position, b.available, mark, b.capacity);
    b.Rollback(end);
  }

  /** The second half of `reserve_write_use`, once the body is there. */
  method UseReserved(b: Buffer, start: Checkpoint, ghost mark: nat, header: seq<byte>) returns (ok: bool)
    requires b.Valid() && mark + |header| <= b.available
    requires start == Checkpoint(EndOf(b.position, mark, b.capacity), true)
    modifies b`end, b`available, b.memory
    ensures b.Valid() && Outcome(b.View(), ok) == PatchHeader(old(b.View()), mark, header)
  {
    var end := b.MakeCheckpoint();
    end := end.(backwards := false);
    ghost var full := b.available;
    StepBack(b, start, mark);
    var n := b.Write(header);
    ok := n == |header|;
    if ok {
      StepForward(b, end, full);
    }
  }

  /** On the ring, two ends `b - a` bytes apart are that far apart unless they
      are a full turn apart. */
  lemma DistanceBack(position: nat, a: nat, b: nat, capacity: nat)
    requires position < capacity && a <= b <= capacity
    ensures Distance(EndOf(position, a, capacity), EndOf(position, b, capacity), capacity) ==
            if b - a == capacity then 0 else b - a
  {
  }
}
