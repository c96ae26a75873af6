/** Whole runs of the outgoing scheduler: any interleaving of callers pushing
    and dropping with the single I/O thread that pops a frame and then sends
    it, puts it back or, when its generator fails, loses it and pops no more on
    this connection. */
module FrameRuns {
  import opened Bytes
  import opened Scheduler
  import opened Publishing

  datatype World = World(
    inner: Inner,
    hand: Option<FrameEntry>,   // popped by the I/O thread, not yet sent or put back
    lost: Option<FrameEntry>,   // popped, and refused by its generator: the connection is given up
    out: seq<FrameEntry>,       // sent, in order
    next: nat)                  // the next publish to be numbered

  datatype Op =
    | DoPush(ch: ChannelId, frame: Frame, canceler: PromiseId, reply: Option<ExpectedReply>, resolver: Option<PromiseId>)
    | DoPublish(ch: ChannelId, payload: seq<byte>, frameMax: nat, promise: PromiseId)
    | DoPop(flow: bool)
    | DoSend
    | DoRetry
    | DoLose
    | DoDropChannel(ch: ChannelId, error: ErrorId)
    | DoDropPending(error: ErrorId, order: seq<ChannelId>)
    | DoFind(ch: ChannelId, finder: ExpectedReply -> bool)
    | DoTake(ch: ChannelId)
    | DoClear(ch: ChannelId, error: ErrorId)
    | DoClearAll(error: ErrorId, order: seq<ChannelId>)
    | DoCloseOk(ch: ChannelId, error: ErrorId)
    | DoPoisonChannel(ch: ChannelId, error: ErrorId)
    | DoDropPoison
    | DoDropChannelPoison(ch: ChannelId)

  /** Content goes through `push_frames` only; the I/O thread holds one frame
      at a time. */
  ghost predicate Enabled(w: World, op: Op) {
    match op
    case DoPush(_, frame, _, _, _) => frame.Provenance().Own? && !frame.IsContent()
    case DoPop(_) => w.hand.None? && w.lost.None?
    case DoSend => w.hand.Some?
    case DoRetry => w.hand.Some?
    case DoLose => w.hand.Some? && w.lost.None?
    case DoDropPending(_, order) => Enumerates(order, w.inner.replies)
    case DoClearAll(_, order) => Enumerates(order, w.inner.replies)
    case _ => true
  }

  ghost function Step(w: World, op: Op): (w': World)
    requires Enabled(w, op)
  {
    match op
    case DoPush(ch, frame, canceler, reply, resolver) =>
      World(Pushed(w.inner, ch, frame, canceler, reply, resolver), w.hand, w.lost, w.out, w.next)
    case DoPublish(ch, payload, frameMax, promise) =>
      World(PushedFrames(w.inner, ch, PublishFrames(ch, payload, frameMax, w.next), promise), w.hand, w.lost, w.out, w.next + 1)
    case DoPop(flow) =>
      World(Pop(w.inner, flow).inner, Pop(w.inner, flow).entry, w.lost, w.out, w.next)
    case DoSend => World(w.inner, None, w.lost, w.out + [w.hand.value], w.next)
    case DoRetry => World(Retried(w.inner, w.hand.value), None, w.lost, w.out, w.next)
    case DoLose => World(w.inner, None, w.hand, w.out, w.next)
    case DoDropChannel(ch, error) => World(DroppedChannel(w.inner, ch, error), w.hand, w.lost, w.out, w.next)
    case DoDropPending(error, order) => World(DroppedPending(w.inner, error, order), w.hand, w.lost, w.out, w.next)
    case DoFind(ch, finder) => World(FoundReply(w.inner, ch, finder).inner, w.hand, w.lost, w.out, w.next)
    case DoTake(ch) => World(TookReplies(w.inner, ch), w.hand, w.lost, w.out, w.next)
    case DoClear(ch, error) => World(ClearedReplies(w.inner, ch, error), w.hand, w.lost, w.out, w.next)
    case DoClearAll(error, order) => World(ClearedAll(w.inner, error, order), w.hand, w.lost, w.out, w.next)
    case DoCloseOk(ch, error) => World(NextCloseOk(w.inner, ch, error).inner, w.hand, w.lost, w.out, w.next)
    case DoPoisonChannel(ch, error) =>
      World(w.inner.(channelsPoison := w.inner.channelsPoison[ch := error]), w.hand, w.lost, w.out, w.next)
    case DoDropPoison => World(w.inner.(poison := None), w.hand, w.lost, w.out, w.next)
    case DoDropChannelPoison(ch) =>
      World(w.inner.(channelsPoison := w.inner.channelsPoison - {ch}), w.hand, w.lost, w.out, w.next)
  }

  const START := World(Inner([], [], [], [], map[], None, map[], []), None, None, [], 0)

  ghost predicate Legal(w: World, ops: seq<Op>)
    decreases |ops|
  {
    ops == [] || (Enabled(w, ops[0]) && Legal(Step(w, ops[0]), ops[1..]))
  }

  ghost function Exec(w: World, ops: seq<Op>): (w': World)
    requires Legal(w, ops)
    decreases |ops|
  {
    if ops == [] then w else Exec(Step(w, ops[0]), ops[1..])
  }

  lemma {:induction false} ExecSnoc(w: World, ops: seq<Op>, op: Op)
    requires Legal(w, ops) && Enabled(Exec(w, ops), op)
    ensures Legal(w, ops + [op]) && Exec(w, ops + [op]) == Step(Exec(w, ops), op)
    decreases |ops|
  {
    if ops == [] {
      assert ops + [op] == [op] && [op][1..] == [];
    } else {
      ExecSnoc(Step(w, ops[0]), ops[1..], op);
      assert (ops + [op])[1..] == ops[1..] + [op];
    }
  }

  // ---- the order of publishes ----

  /** The entry popped last, unless it was sent or put back. */
  function Taken(w: World): (q: seq<FrameEntry>) {
    if w.hand.Some? then [w.hand.value] else if w.lost.Some? then [w.lost.value] else []
  }

  /** What was sent, what is popped, and the queues that publishes go through. */
  function Line(w: World): (q: seq<FrameEntry>) {
    w.out + Taken(w) + (w.inner.retry + w.inner.publish + w.inner.lowPrio)
  }

  predicate Follows(a: Frame, b: Frame) {
    var p, q := a.Provenance(), b.Provenance();
    a.ChannelId() == b.ChannelId() && p.Part? && q == Part(p.publish, p.index + 1)
  }

  /** A publish is a method, a header, then bodies; nothing else is content. */
  predicate WellFormed(f: Frame) {
    match f.Provenance()
    case Own => !f.IsContent()
    case Part(_, i) => if i == 0 then f.Method? else if i == 1 then f.Header? else f.Body?
  }

  /** Every content frame comes right after its predecessor in its publish. */
  ghost predicate Chained(q: seq<FrameEntry>) {
    forall i :: 0 <= i < |q| && q[i].frame.IsContent() ==> 0 < i && Follows(q[i - 1].frame, q[i].frame)
  }

  predicate Before(a: Origin, b: Origin) {
    a.Part? && b.Part? ==> a.publish < b.publish || (a.publish == b.publish && a.index < b.index)
  }

  /** Parts are in publish order and none is repeated. */
  ghost predicate Ordered(q: seq<FrameEntry>) {
    forall i, j :: 0 <= i < j < |q| ==> Before(q[i].frame.Provenance(), q[j].frame.Provenance())
  }

  ghost predicate Sound(q: seq<FrameEntry>, next: nat) {
    && Chained(q) && Ordered(q)
    && forall i :: 0 <= i < |q| ==>
         WellFormed(q[i].frame) && (q[i].frame.Provenance().Part? ==> q[i].frame.Provenance().publish < next)
  }

  /** The invariant, on the queues: `fixed` is what was sent or is in hand. */
  ghost predicate Good(fixed: seq<FrameEntry>, retry: seq<FrameEntry>, publish: seq<FrameEntry>,
                       frames: seq<FrameEntry>, lowPrio: seq<FrameEntry>, next: nat)
  {
    && Sound(fixed + (retry + publish + lowPrio), next)
    && Chained(lowPrio)
    && (forall e :: e in publish ==> e.frame.IsContent() && e.frame.Provenance().Part?)
    && (forall e :: e in lowPrio ==> e.frame.Provenance().Part?)
    && (forall e :: e in frames ==> e.frame.Provenance().Own? && !e.frame.IsContent())
    && |retry| <= 1
  }

  ghost predicate Inv(w: World) {
    var s := w.inner;
    && Good(w.out + Taken(w), s.retry, s.publish, s.frames, s.lowPrio, w.next)
    && (w.hand.Some? || w.lost.Some? ==> s.retry == [])
    && (w.hand.None? || w.lost.None?)
  }

  lemma SoundPrefix(a: seq<FrameEntry>, b: seq<FrameEntry>, next: nat)
    requires Sound(a + b, next)
    ensures Sound(a, next)
  {
    forall i | 0 <= i < |a|
      ensures a[i] == (a + b)[i]
    {
    }
  }

  /** A frame that is no part of a publish may go in front of whole publishes. */
  lemma SoundInsert(a: seq<FrameEntry>, x: FrameEntry, b: seq<FrameEntry>, next: nat)
    requires Sound(a + b, next) && Chained(b)
    requires x.frame.Provenance().Own? && !x.frame.IsContent()
    ensures Sound(a + [x] + b, next)
  {
    var s, t := a + b, a + [x] + b;
    assert forall i :: 0 <= i < |a| ==> t[i] == s[i];
    assert forall i :: |a| < i < |t| ==> t[i] == s[i - 1] && t[i] == b[i - |a| - 1];
  }

  lemma SoundAppend(a: seq<FrameEntry>, b: seq<FrameEntry>, next: nat)
    requires Sound(a, next) && Chained(b) && Ordered(b)
    requires forall i :: 0 <= i < |b| ==>
      WellFormed(b[i].frame) && b[i].frame.Provenance().Part? && b[i].frame.Provenance().publish == next
    ensures Sound(a + b, next + 1)
  {
    var t := a + b;
    assert forall i :: 0 <= i < |a| ==> t[i] == a[i];
    assert forall i :: |a| <= i < |t| ==> t[i] == b[i - |a|];
  }

  /** Removing one channel's frames from the end part of the line keeps it sound. */
  lemma {:induction false} SoundFilter(a: seq<FrameEntry>, b: seq<FrameEntry>, ch: ChannelId, next: nat)
    requires Sound(a + b, next)
    ensures Sound(a + OffChannel(b, ch), next)
    ensures b != [] && b[|b| - 1].frame.ChannelId() != ch ==>
      OffChannel(b, ch) != [] && OffChannel(b, ch)[|OffChannel(b, ch)| - 1] == b[|b| - 1]
    decreases |b|
  {
    if b == [] {
      return;
    }
    var n := |b| - 1;
    var init, x := b[..n], b[n];
    assert a + b == (a + init) + [x];
    SoundPrefix(a + init, [x], next);
    SoundFilter(a, init, ch, next);
    var kept := OffChannel(init, ch);
    if x.frame.ChannelId() != ch {
      KeptBefore(a, init, ch, x, next);
      KeptEarlier(a, init, ch, x, next);
      Assoc(a, kept, [x]);
      SoundSnoc(a + kept, x, next);
    } else {
      assert a + OffChannel(b, ch) == a + kept;
    }
  }

  ghost predicate AllBefore(q: seq<FrameEntry>, x: FrameEntry) {
    forall i :: 0 <= i < |q| ==> Before(q[i].frame.Provenance(), x.frame.Provenance())
  }

  /** Whatever is kept of the line comes before its last frame. */
  lemma KeptEarlier(a: seq<FrameEntry>, init: seq<FrameEntry>, ch: ChannelId, x: FrameEntry, next: nat)
    requires Sound((a + init) + [x], next)
    ensures WellFormed(x.frame) && (x.frame.Provenance().Part? ==> x.frame.Provenance().publish < next)
    ensures AllBefore(a + OffChannel(init, ch), x)
  {
    var kept, line := a + OffChannel(init, ch), (a + init) + [x];
    assert line[|a + init|] == x;
    forall i | 0 <= i < |kept|
      ensures Before(kept[i].frame.Provenance(), x.frame.Provenance())
    {
      KeptIsOld(a, init, ch, i);
      var j :| 0 <= j < |a + init| && (a + init)[j] == kept[i];
      assert line[j] == kept[i];
    }
  }

  lemma SoundSnoc(a: seq<FrameEntry>, x: FrameEntry, next: nat)
    requires Sound(a, next)
    requires WellFormed(x.frame) && (x.frame.Provenance().Part? ==> x.frame.Provenance().publish < next)
    requires AllBefore(a, x)
    requires x.frame.IsContent() ==> a != [] && Follows(a[|a| - 1].frame, x.frame)
    ensures Sound(a + [x], next)
  {
  }

  lemma {:induction false} KeptIsOld(a: seq<FrameEntry>, b: seq<FrameEntry>, ch: ChannelId, i: nat)
    requires i < |a + OffChannel(b, ch)|
    ensures exists j :: 0 <= j < |a + b| && (a + b)[j] == (a + OffChannel(b, ch))[i]
    decreases |b|
  {
    var kept := a + OffChannel(b, ch);
    if i < |a| {
      assert (a + b)[i] == kept[i];
    } else {
      var n := |b| - 1;
      if i < |a + OffChannel(b[..n], ch)| {
        KeptIsOld(a, b[..n], ch, i);
        var j :| 0 <= j < |a + b[..n]| && (a + b[..n])[j] == (a + OffChannel(b[..n], ch))[i];
        assert (a + b)[j] == kept[i];
      } else {
        assert kept[i] == b[n] == (a + b)[|a| + n];
      }
    }
  }

  /** A kept content frame's predecessor is on the same channel, hence kept. */
  lemma KeptBefore(a: seq<FrameEntry>, init: seq<FrameEntry>, ch: ChannelId, x: FrameEntry, next: nat)
    requires Sound((a + init) + [x], next) && x.frame.ChannelId() != ch
    requires init != [] && init[|init| - 1].frame.ChannelId() != ch ==>
      OffChannel(init, ch) != [] && OffChannel(init, ch)[|OffChannel(init, ch)| - 1] == init[|init| - 1]
    ensures x.frame.IsContent() ==>
      var kept := a + OffChannel(init, ch);
      kept != [] && Follows(kept[|kept| - 1].frame, x.frame)
  {
    var t := (a + init) + [x];
    var n := |a + init|;
    assert t[n] == x;
    if x.frame.IsContent() {
      assert 0 < n && Follows(t[n - 1].frame, x.frame);
      if init == [] {
        assert t[n - 1] == a[|a| - 1];
        assert a + OffChannel(init, ch) == a;
      } else {
        assert t[n - 1] == init[|init| - 1];
      }
    }
  }

  lemma SoundSuffix(a: seq<FrameEntry>, b: seq<FrameEntry>, next: nat)
    requires Sound(a + b, next) && Chained(b)
    ensures Sound(b, next)
  {
    assert forall i :: 0 <= i < |b| ==> b[i] == (a + b)[|a| + i];
  }

  lemma {:induction false} OffChannelConcat(a: seq<FrameEntry>, b: seq<FrameEntry>, ch: ChannelId)
    ensures OffChannel(a + b, ch) == OffChannel(a, ch) + OffChannel(b, ch)
    decreases |b|
  {
    if b == [] {
      assert a + b == a;
    } else {
      var n := |b| - 1;
      OffChannelConcat(a, b[..n], ch);
      assert (a + b)[..|a + b| - 1] == a + b[..n];
    }
  }

  lemma GoodPublish(fixed: seq<FrameEntry>, retry: seq<FrameEntry>, publish: seq<FrameEntry>,
                    frames: seq<FrameEntry>, lowPrio: seq<FrameEntry>, next: nat, q: seq<FrameEntry>)
    requires Good(fixed, retry, publish, frames, lowPrio, next)
    requires Chained(q) && Ordered(q)
    requires forall i :: 0 <= i < |q| ==>
      WellFormed(q[i].frame) && q[i].frame.Provenance().Part? && q[i].frame.Provenance().publish == next
    ensures Good(fixed, retry, publish, frames, lowPrio + q, next + 1)
  {
    SoundAppend(fixed + (retry + publish + lowPrio), q, next);
    assert fixed + (retry + publish + (lowPrio + q)) == fixed + (retry + publish + lowPrio) + q;
    ChainedConcat(lowPrio, q);
  }

  lemma PublishSound(ch: ChannelId, payload: seq<byte>, frameMax: nat, next: nat, promise: PromiseId)
    ensures
      var q := Entries(PublishFrames(ch, payload, frameMax, next), promise);
      && Chained(q) && Ordered(q)
      && forall i :: 0 <= i < |q| ==>
           WellFormed(q[i].frame) && q[i].frame.Provenance() == Part(next, i)
  {
    var fs := PublishFrames(ch, payload, frameMax, next);
    var q := Entries(fs, promise);
    forall i | 0 <= i < |q|
      ensures WellFormed(q[i].frame) && q[i].frame.Provenance() == Part(next, i) && q[i].frame.ChannelId() == ch
    {
      assert q[i].frame == fs[i];
    }
  }

  lemma ChainedConcat(a: seq<FrameEntry>, b: seq<FrameEntry>)
    requires Chained(a) && Chained(b)
    ensures Chained(a + b)
  {
    assert forall i :: |a| <= i < |a + b| ==> (a + b)[i] == b[i - |a|];
  }

  /** Popping the head of `frames` puts it in front of the whole publishes left. */
  lemma GoodPopFrame(fixed: seq<FrameEntry>, frames: seq<FrameEntry>, lowPrio: seq<FrameEntry>, next: nat)
    requires frames != [] && Good(fixed, [], [], frames, lowPrio, next)
    ensures Good(fixed + [frames[0]], [], [], frames[1..], lowPrio, next)
  {
    assert [] + [] + lowPrio == lowPrio;
    SoundInsert(fixed, frames[0], lowPrio, next);
  }

  lemma GoodShift(fixed: seq<FrameEntry>, retry: seq<FrameEntry>, publish: seq<FrameEntry>,
                  frames: seq<FrameEntry>, lowPrio: seq<FrameEntry>, next: nat)
    requires Good(fixed, retry, publish, frames, lowPrio, next)
    ensures retry != [] ==> Good(fixed + [retry[0]], retry[1..], publish, frames, lowPrio, next)
    ensures retry == [] && publish != [] ==> Good(fixed + [publish[0]], retry, publish[1..], frames, lowPrio, next)
  {
    if retry != [] {
      assert fixed + [retry[0]] + (retry[1..] + publish + lowPrio) == fixed + (retry + publish + lowPrio);
    } else if publish != [] {
      assert fixed + [publish[0]] + (retry + publish[1..] + lowPrio) == fixed + (retry + publish + lowPrio);
    }
  }

  /** Popping the head of the low priority queue moves the rest of its publish. */
  lemma GoodPopLow(fixed: seq<FrameEntry>, lowPrio: seq<FrameEntry>, next: nat, n: nat)
    requires lowPrio != [] && Good(fixed, [], [], [], lowPrio, next)
    requires
      var rest := lowPrio[1..];
      n == if rest != [] && rest[0].frame.Header? then ContentPrefix(rest) else 0
    ensures n < |lowPrio|
    ensures Good(fixed + [lowPrio[0]], [], lowPrio[1..][..n], [], lowPrio[1..][n..], next)
  {
    assert [] + [] + lowPrio == lowPrio;
    PopLowChained(fixed, lowPrio, next, n);
    Regroup(fixed, lowPrio, n);
    SliceMembers(lowPrio, n);
    GoodMoved(fixed + [lowPrio[0]], lowPrio[1..][..n], lowPrio[1..][n..], next);
  }

  /** What stays behind starts with a whole publish. */
  lemma PopLowChained(fixed: seq<FrameEntry>, lowPrio: seq<FrameEntry>, next: nat, n: nat)
    requires lowPrio != [] && Sound(fixed + lowPrio, next) && Chained(lowPrio)
    requires
      var rest := lowPrio[1..];
      n == if rest != [] && rest[0].frame.Header? then ContentPrefix(rest) else 0
    ensures n < |lowPrio| && Chained(lowPrio[1..][n..])
  {
    HeaderFollows(fixed, lowPrio, next);
    assert lowPrio[1..][n..] == lowPrio[1 + n..];
    ChainedDrop(lowPrio, 1 + n);
  }

  lemma GoodMoved(fixed: seq<FrameEntry>, publish: seq<FrameEntry>, lowPrio: seq<FrameEntry>, next: nat)
    requires Sound(fixed + ([] + publish + lowPrio), next) && Chained(lowPrio)
    requires forall e :: e in publish ==> e.frame.IsContent() && e.frame.Provenance().Part?
    requires forall e :: e in lowPrio ==> e.frame.Provenance().Part?
    ensures Good(fixed, [], publish, [], lowPrio, next)
  {
  }

  lemma SliceMembers(q: seq<FrameEntry>, n: nat)
    requires n < |q| && n <= ContentPrefix(q[1..])
    ensures forall e :: e in q[1..][..n] ==> e in q && e.frame.IsContent()
    ensures forall e :: e in q[1..][n..] ==> e in q
  {
  }

  lemma Regroup(a: seq<FrameEntry>, b: seq<FrameEntry>, n: nat)
    requires n < |b|
    ensures a + [b[0]] + ([] + b[1..][..n] + b[1..][n..]) == a + b
  {
    assert b[1..][..n] + b[1..][n..] == b[1..];
    assert [b[0]] + b[1..] == b;
  }

  /** What follows the first part of a publish is its header or another publish. */
  lemma HeaderFollows(fixed: seq<FrameEntry>, lowPrio: seq<FrameEntry>, next: nat)
    requires Sound(fixed + lowPrio, next) && Chained(lowPrio)
    ensures |lowPrio| > 1 && lowPrio[1].frame.IsContent() ==> lowPrio[1].frame.Header?
  {
    if |lowPrio| > 1 {
      var line := fixed + lowPrio;
      assert line[|fixed|] == lowPrio[0] && line[|fixed| + 1] == lowPrio[1];
    }
  }

  lemma ChainedDrop(q: seq<FrameEntry>, n: nat)
    requires Chained(q) && n <= |q|
    requires n < |q| ==> !q[n].frame.IsContent()
    ensures Chained(q[n..])
  {
  }

  lemma InvPop(w: World, flow: bool)
    requires Inv(w) && w.hand.None? && w.lost.None?
    ensures Inv(Step(w, DoPop(flow)))
  {
    var s := w.inner;
    assert w.out + Taken(w) == w.out;
    if s.retry != [] || s.publish != [] {
      GoodShift(w.out, s.retry, s.publish, s.frames, s.lowPrio, w.next);
    } else if s.frames != [] {
      GoodPopFrame(w.out, s.frames, s.lowPrio, w.next);
    } else if flow && s.lowPrio != [] {
      var rest := s.lowPrio[1..];
      GoodPopLow(w.out, s.lowPrio, w.next,
                 if rest != [] && rest[0].frame.Header? then ContentPrefix(rest) else 0);
    }
  }

  lemma GoodDropChannel(fixed: seq<FrameEntry>, retry: seq<FrameEntry>, publish: seq<FrameEntry>,
                        frames: seq<FrameEntry>, lowPrio: seq<FrameEntry>, next: nat, ch: ChannelId)
    requires Good(fixed, retry, publish, frames, lowPrio, next)
    ensures Good(fixed, OffChannel(retry, ch), OffChannel(publish, ch), OffChannel(frames, ch),
                 OffChannel(lowPrio, ch), next)
  {
    DropSound(fixed, retry, publish, lowPrio, next, ch);
    DropChained(fixed, retry + publish, lowPrio, next, ch);
    OffChannelAll(publish, ch);
    OffChannelAll(frames, ch);
    OffChannelAll(lowPrio, ch);
    OffChannelAll(retry, ch);
  }

  lemma DropSound(fixed: seq<FrameEntry>, retry: seq<FrameEntry>, publish: seq<FrameEntry>,
                  lowPrio: seq<FrameEntry>, next: nat, ch: ChannelId)
    requires Sound(fixed + (retry + publish + lowPrio), next)
    ensures Sound(fixed + (OffChannel(retry, ch) + OffChannel(publish, ch) + OffChannel(lowPrio, ch)), next)
  {
    SoundFilter(fixed, retry + publish + lowPrio, ch, next);
    OffChannelConcat(retry + publish, lowPrio, ch);
    OffChannelConcat(retry, publish, ch);
  }

  lemma DropChained(fixed: seq<FrameEntry>, before: seq<FrameEntry>, lowPrio: seq<FrameEntry>, next: nat, ch: ChannelId)
    requires Sound(fixed + (before + lowPrio), next) && Chained(lowPrio)
    ensures Chained(OffChannel(lowPrio, ch))
  {
    assert fixed + (before + lowPrio) == (fixed + before) + lowPrio;
    SoundSuffix(fixed + before, lowPrio, next);
    assert [] + lowPrio == lowPrio;
    SoundFilter([], lowPrio, ch, next);
    assert [] + OffChannel(lowPrio, ch) == OffChannel(lowPrio, ch);
  }

  lemma {:induction false} OffChannelAll(q: seq<FrameEntry>, ch: ChannelId)
    ensures |OffChannel(q, ch)| <= |q|
    ensures forall e :: e in OffChannel(q, ch) <==> e in q && e.frame.ChannelId() != ch
    decreases |q|
  {
    if q != [] {
      OffChannelAll(q[..|q| - 1], ch);
      assert q == q[..|q| - 1] + [q[|q| - 1]];
    }
  }

  lemma InvSend(w: World)
    requires Inv(w) && w.hand.Some?
    ensures Inv(Step(w, DoSend)) && Inv(Step(w, DoRetry)) && Inv(Step(w, DoLose))
  {
    var s := w.inner;
    var fixed := w.out + Taken(w);
    assert w.out + [w.hand.value] + [] == fixed;
    assert w.out + [] + ([w.hand.value] + s.publish + s.lowPrio) == fixed + (s.retry + s.publish + s.lowPrio);
    assert s.retry + [w.hand.value] == [w.hand.value];
  }

  lemma InvDropPending(w: World, error: ErrorId, order: seq<ChannelId>)
    requires Inv(w) && Enumerates(order, w.inner.replies)
    ensures Inv(Step(w, DoDropPending(error, order)))
  {
    var s := w.inner;
    var fixed := w.out + Taken(w);
    SoundPrefix(fixed, s.retry + s.publish + s.lowPrio, w.next);
    assert fixed + ([] + [] + []) == fixed;
  }

  lemma InvPublish(w: World, ch: ChannelId, payload: seq<byte>, frameMax: nat, promise: PromiseId)
    requires Inv(w)
    ensures Inv(Step(w, DoPublish(ch, payload, frameMax, promise)))
  {
    var s := w.inner;
    if CheckPoison(s, ch).None? {
      PublishSound(ch, payload, frameMax, w.next, promise);
      GoodPublish(w.out + Taken(w), s.retry, s.publish, s.frames, s.lowPrio, w.next,
                  Entries(PublishFrames(ch, payload, frameMax, w.next), promise));
    }
  }

  lemma InvStep(w: World, op: Op)
    requires Inv(w) && Enabled(w, op)
    ensures Inv(Step(w, op))
  {
    match op
    case DoPublish(ch, payload, frameMax, promise) => InvPublish(w, ch, payload, frameMax, promise);
    case DoPop(flow) => InvPop(w, flow);
    case DoDropChannel(ch, error) =>
      var s := w.inner;
      GoodDropChannel(w.out + Taken(w), s.retry, s.publish, s.frames, s.lowPrio, w.next, ch);
      OffChannelAll(s.retry, ch);
    case DoSend => InvSend(w);
    case DoRetry => InvSend(w);
    case DoLose => InvSend(w);
    case DoDropPending(error, order) => InvDropPending(w, error, order);
    case _ =>
  }

  lemma {:induction false} InvExec(w: World, ops: seq<Op>)
    requires Inv(w) && Legal(w, ops)
    ensures Inv(Exec(w, ops))
    decreases |ops|
  {
    if ops != [] {
      InvStep(w, ops[0]);
      InvExec(Step(w, ops[0]), ops[1..]);
    }
  }

  /** Uninterrupted content, over every run: whatever is pushed, dropped or
      retried, in what has been sent each header or body comes right after its
      predecessor in the same publish, and publishes are in the order they
      were made, no part sent twice. */
  lemma UninterruptedContent(ops: seq<Op>)
    requires Legal(START, ops)
    ensures Chained(Exec(START, ops).out) && Ordered(Exec(START, ops).out)
  {
    InvStart();
    InvExec(START, ops);
    SentSound(Exec(START, ops));
  }

  lemma InvStart()
    ensures Inv(START)
  {
    assert START.out + Taken(START) == [];
  }

  lemma SentSound(w: World)
    requires Inv(w)
    ensures Sound(w.out, w.next)
  {
    var rest := Taken(w) + (w.inner.retry + w.inner.publish + w.inner.lowPrio);
    assert w.out + rest == w.out + Taken(w) + (w.inner.retry + w.inner.publish + w.inner.lowPrio);
    SoundPrefix(w.out, rest, w.next);
  }

  // ---- nothing is lost or reordered ----

  /** The entries that are parts of publishes, or those that are not. */
  function Only(q: seq<FrameEntry>, parts: bool): (r: seq<FrameEntry>) {
    if q == [] then []
    else
      var last := q[|q| - 1];
      Only(q[..|q| - 1], parts) + if last.frame.Provenance().Part? == parts then [last] else []
  }

  lemma {:induction false} OnlyConcat(a: seq<FrameEntry>, b: seq<FrameEntry>, parts: bool)
    ensures Only(a + b, parts) == Only(a, parts) + Only(b, parts)
    decreases |b|
  {
    if b == [] {
      assert a + b == a;
    } else {
      OnlyConcat(a, b[..|b| - 1], parts);
      assert (a + b)[..|a + b| - 1] == a + b[..|b| - 1];
    }
  }

  lemma {:induction false} OnlyAll(q: seq<FrameEntry>, parts: bool)
    requires forall e :: e in q ==> e.frame.Provenance().Part? == parts
    ensures Only(q, parts) == q && Only(q, !parts) == []
    decreases |q|
  {
    if q != [] {
      OnlyAll(q[..|q| - 1], parts);
      assert q[..|q| - 1] + [q[|q| - 1]] == q;
    }
  }

  /** Parts that have been sent or will be, in order. */
  function PartsLine(w: World): (q: seq<FrameEntry>) {
    Only(Line(w), true)
  }

  /** Other frames that have been sent or will be, in order. */
  function OwnLine(w: World): (q: seq<FrameEntry>) {
    Only(w.out + Taken(w) + w.inner.retry, false) + w.inner.frames
  }

  predicate Drops(op: Op) {
    op.DoDropChannel? || op.DoDropPending?
  }

  function PartsAccepted(w: World, op: Op): (q: seq<FrameEntry>) {
    if op.DoPublish? && CheckPoison(w.inner, op.ch).None?
    then Entries(PublishFrames(op.ch, op.payload, op.frameMax, w.next), op.promise) else []
  }

  function OwnAccepted(w: World, op: Op): (q: seq<FrameEntry>) {
    if op.DoPush? && CheckPoison(w.inner, op.ch).None?
    then [FrameEntry(op.frame, FrameSending(Some(op.canceler), op.resolver))] else []
  }

  ghost function AllAccepted(w: World, ops: seq<Op>, parts: bool): (q: seq<FrameEntry>)
    requires Legal(w, ops)
    decreases |ops|
  {
    if ops == [] then []
    else (if parts then PartsAccepted(w, ops[0]) else OwnAccepted(w, ops[0]))
         + AllAccepted(Step(w, ops[0]), ops[1..], parts)
  }

  lemma LinesPop(w: World, flow: bool)
    requires Inv(w) && w.hand.None? && w.lost.None?
    ensures
      var w' := Step(w, DoPop(flow));
      PartsLine(w') == PartsLine(w) && OwnLine(w') == OwnLine(w)
  {
    var s := w.inner;
    if s.retry != [] {
      LinesPopRetry(w);
    } else if s.publish != [] {
      assert s.publish[0] in s.publish;
      LinePopPublish(w, flow);
      OwnPopPart(w.out, s.publish[0]);
    } else if s.frames != [] {
      assert s.frames[0] in s.frames;
      LinesPopFrame(w);
    } else if flow && s.lowPrio != [] {
      assert s.lowPrio[0] in s.lowPrio;
      LinePopLow(w);
      OwnPopPart(w.out, s.lowPrio[0]);
    }
  }

  lemma LinesPopRetry(w: World)
    requires w.hand.None? && w.lost.None? && w.inner.retry != []
    ensures
      var w' := Step(w, DoPop(true));
      PartsLine(w') == PartsLine(w) && OwnLine(w') == OwnLine(w)
  {
    var s := w.inner;
    LinePopRetry(w, true);
    assert w.out + [] == w.out;
    Shift(w.out, s.retry, []);
    assert s.retry + [] == s.retry && s.retry[1..] + [] == s.retry[1..];
  }

  /** Popping a part leaves the other frames as they are. */
  lemma OwnPopPart(out: seq<FrameEntry>, x: FrameEntry)
    requires x.frame.Provenance().Part?
    ensures Only(out + [x] + [], false) == Only(out + [] + [], false)
  {
    OnlySnoc(out, x, false);
    assert out + [] == out && out + [x] + [] == out + [x];
  }

  lemma Shift(a: seq<FrameEntry>, b: seq<FrameEntry>, c: seq<FrameEntry>)
    requires b != []
    ensures a + [b[0]] + (b[1..] + c) == a + (b + c)
  {
    assert [b[0]] + b[1..] == b;
  }

  lemma OnlySnoc(a: seq<FrameEntry>, x: FrameEntry, parts: bool)
    ensures Only(a + [x], parts) == if x.frame.Provenance().Part? == parts then Only(a, parts) + [x] else Only(a, parts)
  {
    assert (a + [x])[..|a|] == a;
  }

  lemma LinesPopFrame(w: World)
    requires w.hand.None? && w.lost.None? && w.inner.retry == [] && w.inner.publish == []
    requires w.inner.frames != [] && w.inner.frames[0].frame.Provenance().Own?
    ensures
      var w' := Step(w, DoPop(true));
      PartsLine(w') == PartsLine(w) && OwnLine(w') == OwnLine(w)
  {
    var s := w.inner;
    var w' := Step(w, DoPop(true));
    var x := s.frames[0];
    assert w.out + Taken(w) + (s.retry + s.publish + s.lowPrio) == w.out + s.lowPrio;
    assert w'.out + Taken(w') + (s.retry + s.publish + s.lowPrio) == w.out + [x] + s.lowPrio;
    assert w'.out + Taken(w') + s.retry == w.out + [x];
    assert w.out + Taken(w) + s.retry == w.out;
    OnlyInsert(w.out, s.frames, s.lowPrio);
  }

  lemma OnlyInsert(a: seq<FrameEntry>, frames: seq<FrameEntry>, b: seq<FrameEntry>)
    requires frames != [] && frames[0].frame.Provenance().Own?
    ensures Only(a + [frames[0]] + b, true) == Only(a + b, true)
    ensures Only(a + [frames[0]], false) + frames[1..] == Only(a, false) + frames
  {
    var x := frames[0];
    OnlyConcat(a, b, true);
    OnlyConcat(a + [x], b, true);
    OnlySnoc(a, x, true);
    OnlySnoc(a, x, false);
    Assoc(Only(a, false), [x], frames[1..]);
    assert [x] + frames[1..] == frames;
  }

  lemma LinesSend(w: World)
    requires w.hand.Some? && w.lost.None?
    ensures PartsLine(Step(w, DoSend)) == PartsLine(w) && OwnLine(Step(w, DoSend)) == OwnLine(w)
  {
    var sent := Step(w, DoSend);
    assert sent.out + Taken(sent) == w.out + Taken(w);
  }

  lemma LinesLose(w: World)
    requires w.hand.Some? && w.lost.None?
    ensures PartsLine(Step(w, DoLose)) == PartsLine(w) && OwnLine(Step(w, DoLose)) == OwnLine(w)
  {
  }

  lemma LinesRetry(w: World)
    requires w.hand.Some? && w.lost.None? && w.inner.retry == []
    ensures PartsLine(Step(w, DoRetry)) == PartsLine(w) && OwnLine(Step(w, DoRetry)) == OwnLine(w)
  {
    var s := w.inner;
    HandBack(w.out, w.hand.value, s.publish + s.lowPrio);
    HandBack(w.out, w.hand.value, []);
    assert [w.hand.value] + [] == [w.hand.value];
    assert [] + [w.hand.value] == [w.hand.value];
    Assoc([w.hand.value], s.publish, s.lowPrio);
    Assoc([], s.publish, s.lowPrio);
  }

  lemma HandBack(out: seq<FrameEntry>, e: FrameEntry, rest: seq<FrameEntry>)
    ensures out + [] + ([e] + rest) == out + [e] + ([] + rest)
  {
  }

  lemma LinesPublish(w: World, ch: ChannelId, payload: seq<byte>, frameMax: nat, promise: PromiseId)
    ensures
      var op := DoPublish(ch, payload, frameMax, promise);
      PartsLine(Step(w, op)) == PartsLine(w) + PartsAccepted(w, op) && OwnLine(Step(w, op)) == OwnLine(w)
  {
    LinePublish(w, ch, payload, frameMax, promise);
    PublishParts(ch, payload, frameMax, w.next, promise);
    OnlyAppend(Line(w), PartsAccepted(w, DoPublish(ch, payload, frameMax, promise)));
  }

  lemma PublishParts(ch: ChannelId, payload: seq<byte>, frameMax: nat, next: nat, promise: PromiseId)
    ensures forall e :: e in Entries(PublishFrames(ch, payload, frameMax, next), promise) ==> e.frame.Provenance().Part?
  {
    PublishSound(ch, payload, frameMax, next, promise);
  }

  lemma OnlyAppend(a: seq<FrameEntry>, q: seq<FrameEntry>)
    requires forall e :: e in q ==> e.frame.Provenance().Part?
    ensures Only(a + q, true) == Only(a, true) + q
  {
    OnlyConcat(a, q, true);
    OnlyAll(q, true);
  }

  lemma LinesMoved(w: World, op: Op)
    requires Inv(w) && Enabled(w, op) && (op.DoPop? || op.DoSend? || op.DoRetry? || op.DoLose?)
    ensures PartsLine(Step(w, op)) == PartsLine(w) && OwnLine(Step(w, op)) == OwnLine(w)
  {
    if op.DoPop? {
      LinesPop(w, op.flow);
    } else if op.DoSend? {
      LinesSend(w);
    } else if op.DoRetry? {
      LinesRetry(w);
    } else {
      LinesLose(w);
    }
  }

  lemma LinesStep(w: World, op: Op)
    requires Inv(w) && Enabled(w, op) && !Drops(op)
    ensures PartsLine(Step(w, op)) == PartsLine(w) + PartsAccepted(w, op)
    ensures OwnLine(Step(w, op)) == OwnLine(w) + OwnAccepted(w, op)
  {
    assert PartsLine(w) + [] == PartsLine(w) && OwnLine(w) + [] == OwnLine(w);
    if op.DoPublish? {
      LinesPublish(w, op.ch, op.payload, op.frameMax, op.promise);
    } else if op.DoPush? {
      LinesPush(w, op.ch, op.frame, op.canceler, op.reply, op.resolver);
    } else if Aside(op) {
      LineAside(w, op);
    } else {
      LinesMoved(w, op);
    }
  }

  lemma LinesPush(w: World, ch: ChannelId, frame: Frame, canceler: PromiseId,
                  reply: Option<ExpectedReply>, resolver: Option<PromiseId>)
    requires Enabled(w, DoPush(ch, frame, canceler, reply, resolver))
    ensures
      var op := DoPush(ch, frame, canceler, reply, resolver);
      && PartsLine(Step(w, op)) == PartsLine(w)
      && OwnLine(Step(w, op)) == OwnLine(w) + OwnAccepted(w, op)
  {
    if CheckPoison(w.inner, ch).None? {
      Assoc(Only(w.out + Taken(w) + w.inner.retry, false), w.inner.frames,
            [FrameEntry(frame, FrameSending(Some(canceler), resolver))]);
    } else {
      assert OwnLine(w) + [] == OwnLine(w);
    }
  }

  /** The entries on the channels of interest. */
  function Kept(q: seq<FrameEntry>, keep: ChannelId -> bool): (r: seq<FrameEntry>) {
    if q == [] then []
    else
      var last := q[|q| - 1];
      Kept(q[..|q| - 1], keep) + if keep(last.frame.ChannelId()) then [last] else []
  }

  lemma {:induction false} KeptConcat(a: seq<FrameEntry>, b: seq<FrameEntry>, keep: ChannelId -> bool)
    ensures Kept(a + b, keep) == Kept(a, keep) + Kept(b, keep)
    decreases |b|
  {
    if b == [] {
      assert a + b == a;
    } else {
      KeptConcat(a, b[..|b| - 1], keep);
      assert (a + b)[..|a + b| - 1] == a + b[..|b| - 1];
    }
  }

  lemma {:induction false} KeptAll(q: seq<FrameEntry>, keep: ChannelId -> bool)
    requires forall ch :: keep(ch)
    ensures Kept(q, keep) == q
    decreases |q|
  {
    if q != [] {
      KeptAll(q[..|q| - 1], keep);
      assert q[..|q| - 1] + [q[|q| - 1]] == q;
    }
  }

  lemma KeptSnoc(a: seq<FrameEntry>, x: FrameEntry, keep: ChannelId -> bool)
    ensures Kept(a + [x], keep) == if keep(x.frame.ChannelId()) then Kept(a, keep) + [x] else Kept(a, keep)
  {
    assert (a + [x])[..|a|] == a;
  }

  /** Another channel's frames are not missed. */
  lemma {:induction false} KeptOff(q: seq<FrameEntry>, ch: ChannelId, keep: ChannelId -> bool)
    requires !keep(ch)
    ensures Kept(OffChannel(q, ch), keep) == Kept(q, keep)
    decreases |q|
  {
    if q != [] {
      var init, x := q[..|q| - 1], q[|q| - 1];
      KeptOff(init, ch, keep);
      KeptSnoc(OffChannel(init, ch), x, keep);
      assert OffChannel(init, ch) + [] == OffChannel(init, ch) && Kept(init, keep) + [] == Kept(init, keep);
    }
  }

  lemma OffSnoc(a: seq<FrameEntry>, x: FrameEntry, ch: ChannelId)
    ensures OffChannel(a + [x], ch) == if x.frame.ChannelId() == ch then OffChannel(a, ch) else OffChannel(a, ch) + [x]
  {
    assert (a + [x])[..|a|] == a;
  }

  lemma {:induction false} OnlyOff(q: seq<FrameEntry>, ch: ChannelId, parts: bool)
    ensures Only(OffChannel(q, ch), parts) == OffChannel(Only(q, parts), ch)
    decreases |q|
  {
    if q != [] {
      var init, x := q[..|q| - 1], q[|q| - 1];
      OnlyOff(init, ch, parts);
      OnlySnoc(OffChannel(init, ch), x, parts);
      OffSnoc(Only(init, parts), x, ch);
      assert OffChannel(init, ch) + [] == OffChannel(init, ch) && Only(init, parts) + [] == Only(init, parts);
    }
  }

  lemma LineOff(fixed: seq<FrameEntry>, q: seq<FrameEntry>, ch: ChannelId, parts: bool, keep: ChannelId -> bool)
    requires !keep(ch)
    ensures Kept(Only(fixed + OffChannel(q, ch), parts), keep) == Kept(Only(fixed + q, parts), keep)
  {
    OnlyOff(q, ch, parts);
    KeptOff(Only(q, parts), ch, keep);
    OnlyConcat(fixed, q, parts);
    OnlyConcat(fixed, OffChannel(q, ch), parts);
    KeptConcat(Only(fixed, parts), Only(q, parts), keep);
    KeptConcat(Only(fixed, parts), Only(OffChannel(q, ch), parts), keep);
  }

  lemma PartsDrop(w: World, ch: ChannelId, error: ErrorId, keep: ChannelId -> bool)
    requires !keep(ch)
    ensures Kept(PartsLine(Step(w, DoDropChannel(ch, error))), keep) == Kept(PartsLine(w), keep)
  {
    LineDrop(w, ch, error);
    LineOff(w.out + Taken(w), w.inner.retry + w.inner.publish + w.inner.lowPrio, ch, true, keep);
  }

  lemma LineDrop(w: World, ch: ChannelId, error: ErrorId)
    ensures Line(Step(w, DoDropChannel(ch, error))) ==
            w.out + Taken(w) + OffChannel(w.inner.retry + w.inner.publish + w.inner.lowPrio, ch)
  {
    OffChannelConcat(w.inner.retry + w.inner.publish, w.inner.lowPrio, ch);
    OffChannelConcat(w.inner.retry, w.inner.publish, ch);
  }

  lemma OwnOff(fixed: seq<FrameEntry>, retry: seq<FrameEntry>, frames: seq<FrameEntry>, ch: ChannelId,
               keep: ChannelId -> bool)
    requires !keep(ch)
    ensures Kept(Only(fixed + OffChannel(retry, ch), false) + OffChannel(frames, ch), keep) ==
            Kept(Only(fixed + retry, false) + frames, keep)
  {
    LineOff(fixed, retry, ch, false, keep);
    KeptOff(frames, ch, keep);
    KeptConcat(Only(fixed + retry, false), frames, keep);
    KeptConcat(Only(fixed + OffChannel(retry, ch), false), OffChannel(frames, ch), keep);
  }

  lemma OwnDrop(w: World, ch: ChannelId, error: ErrorId, keep: ChannelId -> bool)
    requires !keep(ch)
    ensures Kept(OwnLine(Step(w, DoDropChannel(ch, error))), keep) == Kept(OwnLine(w), keep)
  {
    OwnLineDrop(w, ch, error);
    OwnOff(w.out + Taken(w), w.inner.retry, w.inner.frames, ch, keep);
  }

  lemma OwnLineDrop(w: World, ch: ChannelId, error: ErrorId)
    ensures OwnLine(Step(w, DoDropChannel(ch, error))) ==
            Only(w.out + Taken(w) + OffChannel(w.inner.retry, ch), false) + OffChannel(w.inner.frames, ch)
    ensures OwnLine(w) == Only(w.out + Taken(w) + w.inner.retry, false) + w.inner.frames
  {
  }

  /** The step drops nothing on the channels of interest. */
  predicate Spares(op: Op, keep: ChannelId -> bool) {
    !op.DoDropPending? && (op.DoDropChannel? ==> !keep(op.ch))
  }

  lemma KeptStep(w: World, op: Op, keep: ChannelId -> bool)
    requires Inv(w) && Enabled(w, op) && Spares(op, keep)
    ensures Kept(PartsLine(Step(w, op)), keep) == Kept(PartsLine(w), keep) + Kept(PartsAccepted(w, op), keep)
    ensures Kept(OwnLine(Step(w, op)), keep) == Kept(OwnLine(w), keep) + Kept(OwnAccepted(w, op), keep)
  {
    if op.DoDropChannel? {
      PartsDrop(w, op.ch, op.error, keep);
      OwnDrop(w, op.ch, op.error, keep);
      assert Kept(PartsLine(w), keep) + [] == Kept(PartsLine(w), keep);
      assert Kept(OwnLine(w), keep) + [] == Kept(OwnLine(w), keep);
    } else {
      LinesStep(w, op);
      KeptConcat(PartsLine(w), PartsAccepted(w, op), keep);
      KeptConcat(OwnLine(w), OwnAccepted(w, op), keep);
    }
  }

  /** On channels that are not dropped, over every run, what was accepted is
      exactly what was sent, is popped or is still queued: publishes frame by
      frame in the order they were made, other frames in the order they were
      pushed, each with its own promise.  Other channels may be dropped. */
  lemma {:induction false} NothingLost(w: World, ops: seq<Op>, keep: ChannelId -> bool)
    requires Inv(w) && Legal(w, ops) && (forall op :: op in ops ==> Spares(op, keep))
    ensures Kept(PartsLine(Exec(w, ops)), keep) == Kept(PartsLine(w), keep) + Kept(AllAccepted(w, ops, true), keep)
    ensures Kept(OwnLine(Exec(w, ops)), keep) == Kept(OwnLine(w), keep) + Kept(AllAccepted(w, ops, false), keep)
    decreases |ops|
  {
    if ops == [] {
      assert Kept(PartsLine(w), keep) + [] == Kept(PartsLine(w), keep);
      assert Kept(OwnLine(w), keep) + [] == Kept(OwnLine(w), keep);
    } else {
      var op := ops[0];
      assert op in ops;
      KeptStep(w, op, keep);
      InvStep(w, op);
      var w', rest := Step(w, op), ops[1..];
      NothingLost(w', rest, keep);
      KeptAccepted(w, ops, true, keep);
      KeptAccepted(w, ops, false, keep);
      Assoc(Kept(PartsLine(w), keep), Kept(PartsAccepted(w, op), keep), Kept(AllAccepted(w', rest, true), keep));
      Assoc(Kept(OwnLine(w), keep), Kept(OwnAccepted(w, op), keep), Kept(AllAccepted(w', rest, false), keep));
    }
  }

  /** Without any drop the lines of all channels together are kept, in order. */
  lemma NothingLostAnywhere(w: World, ops: seq<Op>)
    requires Inv(w) && Legal(w, ops) && (forall op :: op in ops ==> !Drops(op))
    ensures PartsLine(Exec(w, ops)) == PartsLine(w) + AllAccepted(w, ops, true)
    ensures OwnLine(Exec(w, ops)) == OwnLine(w) + AllAccepted(w, ops, false)
  {
    var all := (_: ChannelId) => true;
    NothingLost(w, ops, all);
    KeptAll(PartsLine(Exec(w, ops)), all);
    KeptAll(PartsLine(w), all);
    KeptAll(AllAccepted(w, ops, true), all);
    KeptAll(OwnLine(Exec(w, ops)), all);
    KeptAll(OwnLine(w), all);
    KeptAll(AllAccepted(w, ops, false), all);
  }

  lemma KeptAccepted(w: World, ops: seq<Op>, parts: bool, keep: ChannelId -> bool)
    requires Legal(w, ops) && ops != []
    ensures Kept(AllAccepted(w, ops, parts), keep) ==
            Kept(if parts then PartsAccepted(w, ops[0]) else OwnAccepted(w, ops[0]), keep)
            + Kept(AllAccepted(Step(w, ops[0]), ops[1..], parts), keep)
  {
    KeptConcat(if parts then PartsAccepted(w, ops[0]) else OwnAccepted(w, ops[0]),
               AllAccepted(Step(w, ops[0]), ops[1..], parts), keep);
  }

  // ---- publishes leave whole ----

  /** A part that is not the last of its publish: that one has the promise. */
  predicate Open(e: FrameEntry) {
    e.frame.Provenance().Part? && e.sending.resolver.None?
  }

  /** Nothing comes between the parts of a publish. */
  ghost predicate Unbroken(q: seq<FrameEntry>) {
    forall i :: 0 <= i < |q| - 1 && Open(q[i]) ==> Follows(q[i].frame, q[i + 1].frame)
  }

  predicate EndsOpen(q: seq<FrameEntry>) {
    q != [] && Open(q[|q| - 1])
  }

  ghost predicate WholeLine(q: seq<FrameEntry>) {
    Unbroken(q) && !EndsOpen(q)
  }

  /** Every publish begun is in line to be finished, without interruption. */
  ghost predicate Whole(w: World) {
    WholeLine(Line(w))
  }

  /** The step drops the rest of a publish of which a part has been popped. */
  predicate Cuts(w: World, op: Op) {
    var fixed := w.out + Taken(w);
    && EndsOpen(fixed)
    && (op.DoDropPending? || (op.DoDropChannel? && op.ch == fixed[|fixed| - 1].frame.ChannelId()))
  }

  lemma UnbrokenPrefix(a: seq<FrameEntry>, b: seq<FrameEntry>)
    requires Unbroken(a + b)
    ensures Unbroken(a)
  {
    assert forall i :: 0 <= i < |a| ==> a[i] == (a + b)[i];
  }

  lemma UnbrokenSnoc(a: seq<FrameEntry>, x: FrameEntry)
    requires Unbroken(a) && (EndsOpen(a) ==> Follows(a[|a| - 1].frame, x.frame))
    ensures Unbroken(a + [x])
  {
    var t := a + [x];
    assert forall i :: 0 <= i < |a| ==> t[i] == a[i];
  }

  /** Frames of a channel that has no publish under way can be taken out. */
  lemma {:induction false} UnbrokenFilter(a: seq<FrameEntry>, b: seq<FrameEntry>, ch: ChannelId)
    requires Unbroken(a + b) && !(EndsOpen(a) && a[|a| - 1].frame.ChannelId() == ch)
    ensures
      var t := a + OffChannel(b, ch);
      Unbroken(t) && (EndsOpen(t) ==> EndsOpen(a + b) && t[|t| - 1] == (a + b)[|a + b| - 1])
    decreases |b|
  {
    if b == [] {
      assert a + [] == a;
      return;
    }
    var init, x := b[..|b| - 1], b[|b| - 1];
    var line, kept := a + init, a + OffChannel(init, ch);
    assert a + b == line + [x];
    UnbrokenPrefix(line, [x]);
    UnbrokenFilter(a, init, ch);
    if EndsOpen(kept) {
      assert (a + b)[|line| - 1] == kept[|kept| - 1] && (a + b)[|line|] == x;
    }
    if x.frame.ChannelId() != ch {
      assert a + OffChannel(b, ch) == kept + [x];
      UnbrokenSnoc(kept, x);
    } else {
      assert a + OffChannel(b, ch) == kept;
      if EndsOpen(kept) {
        LastKept(a, init, ch);
        assert false;
      }
    }
  }

  /** The end of the line is in front of the queues or not on the channel. */
  lemma LastKept(a: seq<FrameEntry>, b: seq<FrameEntry>, ch: ChannelId)
    requires a + OffChannel(b, ch) != []
    ensures
      var t := a + OffChannel(b, ch);
      t[|t| - 1].frame.ChannelId() == ch ==> a != [] && t[|t| - 1] == a[|a| - 1]
  {
    OffChannelAll(b, ch);
    var t := a + OffChannel(b, ch);
    if OffChannel(b, ch) != [] {
      assert t[|t| - 1] in OffChannel(b, ch);
    }
  }

  /** A frame that is no part may go where no publish is under way. */
  lemma UnbrokenInsert(a: seq<FrameEntry>, x: FrameEntry, b: seq<FrameEntry>)
    requires WholeLine(a + b) && x.frame.Provenance().Own?
    requires b != [] && b[0].frame.Provenance().Part? ==> b[0].frame.Provenance().index == 0
    ensures WholeLine(a + [x] + b)
  {
    var s, t := a + b, a + [x] + b;
    assert forall i :: 0 <= i < |a| ==> t[i] == s[i];
    assert forall i :: |a| < i < |t| ==> t[i] == s[i - 1];
    if a != [] && b != [] {
      assert s[|a| - 1] == a[|a| - 1] && s[|a|] == b[0];
    }
  }

  lemma UnbrokenAppend(a: seq<FrameEntry>, b: seq<FrameEntry>)
    requires WholeLine(a) && WholeLine(b)
    ensures WholeLine(a + b)
  {
    var t := a + b;
    assert forall i :: 0 <= i < |a| ==> t[i] == a[i];
    assert forall i :: |a| <= i < |t| ==> t[i] == b[i - |a|];
  }

  lemma PublishUnbroken(ch: ChannelId, payload: seq<byte>, frameMax: nat, next: nat, promise: PromiseId)
    ensures
      var q := Entries(PublishFrames(ch, payload, frameMax, next), promise);
      WholeLine(q)
  {
    var fs := PublishFrames(ch, payload, frameMax, next);
    var q := Entries(fs, promise);
    PublishSound(ch, payload, frameMax, next, promise);
    forall i | 0 <= i < |q| - 1
      ensures Follows(q[i].frame, q[i + 1].frame)
    {
      assert q[i].frame == fs[i] && q[i + 1].frame == fs[i + 1];
    }
  }

  lemma LinePopRetry(w: World, flow: bool)
    requires w.hand.None? && w.lost.None? && w.inner.retry != []
    ensures Line(Step(w, DoPop(flow))) == Line(w)
  {
    var s := w.inner;
    assert w.out + [] == w.out;
    Shift(w.out, s.retry, s.publish + s.lowPrio);
    Assoc(s.retry, s.publish, s.lowPrio);
    Assoc(s.retry[1..], s.publish, s.lowPrio);
  }

  lemma LinePopPublish(w: World, flow: bool)
    requires w.hand.None? && w.lost.None? && w.inner.retry == [] && w.inner.publish != []
    ensures Line(Step(w, DoPop(flow))) == Line(w)
  {
    var s := w.inner;
    assert w.out + [] == w.out;
    Shift(w.out, s.publish, s.lowPrio);
    assert [] + s.publish == s.publish && [] + s.publish[1..] == s.publish[1..];
  }

  lemma LinePopLow(w: World)
    requires w.hand.None? && w.lost.None? && w.inner.retry == [] && w.inner.publish == []
    requires w.inner.frames == [] && w.inner.lowPrio != []
    ensures Line(Step(w, DoPop(true))) == Line(w)
  {
    var rest := w.inner.lowPrio[1..];
    assert w.out + [] == w.out;
    Regroup(w.out, w.inner.lowPrio, if rest != [] && rest[0].frame.Header? then ContentPrefix(rest) else 0);
    assert [] + [] + w.inner.lowPrio == w.inner.lowPrio;
  }

  lemma LinePopNone(w: World, flow: bool)
    requires w.hand.None? && w.lost.None? && w.inner.retry == [] && w.inner.publish == []
    requires w.inner.frames == [] && (!flow || w.inner.lowPrio == [])
    ensures Line(Step(w, DoPop(flow))) == Line(w)
  {
  }

  lemma LinePopFrame(w: World, flow: bool)
    requires w.hand.None? && w.lost.None? && w.inner.retry == [] && w.inner.publish == [] && w.inner.frames != []
    ensures Line(w) == w.out + w.inner.lowPrio
    ensures Line(Step(w, DoPop(flow))) == w.out + [w.inner.frames[0]] + w.inner.lowPrio
  {
    assert w.out + [] == w.out && [] + [] + w.inner.lowPrio == w.inner.lowPrio;
  }

  lemma WholePopFrame(w: World, flow: bool)
    requires Inv(w) && w.hand.None? && w.lost.None? && Whole(w)
    requires w.inner.retry == [] && w.inner.publish == [] && w.inner.frames != []
    ensures Whole(Step(w, DoPop(flow)))
  {
    assert w.inner.frames[0] in w.inner.frames;
    StartsFresh(w);
    LinePopFrame(w, flow);
    UnbrokenInsert(w.out, w.inner.frames[0], w.inner.lowPrio);
  }

  lemma WholeSame(w: World, w': World)
    requires Whole(w) && Line(w') == Line(w)
    ensures Whole(w')
  {
  }

  /** Popping moves the line along; a frame of its own gets in before the first
      publish that has not begun. */
  lemma WholePop(w: World, flow: bool)
    requires Inv(w) && w.hand.None? && w.lost.None? && Whole(w)
    ensures Whole(Step(w, DoPop(flow)))
  {
    var s, w' := w.inner, Step(w, DoPop(flow));
    if s.retry == [] && s.publish == [] && s.frames != [] {
      WholePopFrame(w, flow);
    } else {
      if s.retry != [] {
        LinePopRetry(w, flow);
      } else if s.publish != [] {
        LinePopPublish(w, flow);
      } else if flow && s.lowPrio != [] {
        LinePopLow(w);
      } else {
        LinePopNone(w, flow);
      }
      WholeSame(w, w');
    }
  }

  /** What the low priority queue starts with begins a publish. */
  lemma StartsFresh(w: World)
    requires Inv(w)
    ensures
      var low := w.inner.lowPrio;
      low != [] && low[0].frame.Provenance().Part? ==> low[0].frame.Provenance().index == 0
  {
    var low := w.inner.lowPrio;
    if low != [] {
      assert Line(w)[|Line(w)| - |low|] == low[0];
    }
  }

  /** Taking a channel out of the queues leaves publishes whole exactly when none
      of its own is under way. */
  lemma CutIff(fixed: seq<FrameEntry>, rest: seq<FrameEntry>, ch: ChannelId)
    requires WholeLine(fixed + rest)
    ensures WholeLine(fixed + OffChannel(rest, ch)) <==>
            !(EndsOpen(fixed) && fixed[|fixed| - 1].frame.ChannelId() == ch)
  {
    if EndsOpen(fixed) && fixed[|fixed| - 1].frame.ChannelId() == ch {
      CutShort(fixed, OffChannel(rest, ch), ch);
      OffChannelAll(rest, ch);
    } else {
      UnbrokenFilter(fixed, rest, ch);
    }
  }

  lemma CutShort(fixed: seq<FrameEntry>, kept: seq<FrameEntry>, ch: ChannelId)
    requires EndsOpen(fixed) && fixed[|fixed| - 1].frame.ChannelId() == ch
    ensures (forall e :: e in kept ==> e.frame.ChannelId() != ch) ==> !WholeLine(fixed + kept)
  {
    var t, n := fixed + kept, |fixed|;
    assert t[n - 1] == fixed[n - 1];
    if kept != [] {
      assert t[n] == kept[0] && kept[0] in kept;
    }
  }

  lemma WholeDropChannel(w: World, ch: ChannelId, error: ErrorId)
    requires Whole(w)
    ensures Whole(Step(w, DoDropChannel(ch, error))) <==> !Cuts(w, DoDropChannel(ch, error))
  {
    var fixed, rest := w.out + Taken(w), w.inner.retry + w.inner.publish + w.inner.lowPrio;
    CutIff(fixed, rest, ch);
    LineDrop(w, ch, error);
    WholeIff(Step(w, DoDropChannel(ch, error)), fixed + OffChannel(rest, ch));
  }

  lemma WholeIff(w: World, q: seq<FrameEntry>)
    requires Line(w) == q
    ensures Whole(w) <==> WholeLine(q)
  {
  }

  lemma WholeDropPending(w: World, error: ErrorId, order: seq<ChannelId>)
    requires Whole(w) && Enumerates(order, w.inner.replies)
    ensures Whole(Step(w, DoDropPending(error, order))) <==> !Cuts(w, DoDropPending(error, order))
  {
    var fixed := w.out + Taken(w);
    assert Line(Step(w, DoDropPending(error, order))) == fixed;
    UnbrokenPrefix(fixed, w.inner.retry + w.inner.publish + w.inner.lowPrio);
  }

  lemma LineSend(w: World)
    requires Inv(w) && w.hand.Some?
    ensures Line(Step(w, DoSend)) == Line(w) == Line(Step(w, DoRetry)) && Line(Step(w, DoLose)) == Line(w)
  {
    var s := w.inner;
    assert w.out + [w.hand.value] + [] == w.out + [w.hand.value];
    assert s.retry + [w.hand.value] == [w.hand.value];
    HandBack(w.out, w.hand.value, s.publish + s.lowPrio);
    Assoc([w.hand.value], s.publish, s.lowPrio);
    Assoc([], s.publish, s.lowPrio);
  }

  lemma LinePublish(w: World, ch: ChannelId, payload: seq<byte>, frameMax: nat, promise: PromiseId)
    ensures
      var op := DoPublish(ch, payload, frameMax, promise);
      Line(Step(w, op)) == Line(w) + PartsAccepted(w, op)
  {
    if CheckPoison(w.inner, ch).None? {
      var s := w.inner;
      var q := Entries(PublishFrames(ch, payload, frameMax, w.next), promise);
      Assoc(s.retry + s.publish, s.lowPrio, q);
      Assoc(w.out + Taken(w), s.retry + s.publish + s.lowPrio, q);
    } else {
      assert Line(w) + [] == Line(w);
    }
  }

  lemma WholePublish(w: World, ch: ChannelId, payload: seq<byte>, frameMax: nat, promise: PromiseId)
    requires Whole(w)
    ensures Whole(Step(w, DoPublish(ch, payload, frameMax, promise)))
  {
    LinePublish(w, ch, payload, frameMax, promise);
    PublishUnbroken(ch, payload, frameMax, w.next, promise);
    UnbrokenAppend(Line(w), PartsAccepted(w, DoPublish(ch, payload, frameMax, promise)));
  }

  /** Steps that are not about the line. */
  predicate Aside(op: Op) {
    || op.DoPush? || op.DoFind? || op.DoTake? || op.DoClear? || op.DoClearAll? || op.DoCloseOk?
    || op.DoPoisonChannel? || op.DoDropPoison? || op.DoDropChannelPoison?
  }

  lemma LineAside(w: World, op: Op)
    requires Enabled(w, op) && Aside(op)
    ensures Line(Step(w, op)) == Line(w)
    ensures !op.DoPush? ==> OwnLine(Step(w, op)) == OwnLine(w)
  {
  }

  lemma WholeKept(w: World, op: Op)
    requires Inv(w) && Enabled(w, op) && Whole(w) && !Drops(op)
    ensures Whole(Step(w, op))
  {
    if op.DoPop? {
      WholePop(w, op.flow);
    } else if op.DoPublish? {
      WholePublish(w, op.ch, op.payload, op.frameMax, op.promise);
    } else {
      LineKept(w, op);
      WholeSame(w, Step(w, op));
    }
  }

  lemma LineKept(w: World, op: Op)
    requires Inv(w) && Enabled(w, op) && (Aside(op) || op.DoSend? || op.DoRetry? || op.DoLose?)
    ensures Line(Step(w, op)) == Line(w)
  {
    if Aside(op) {
      LineAside(w, op);
    } else {
      LineSend(w);
    }
  }

  /** Exactly the steps that cut a publish keep one from being finished. */
  lemma WholeStep(w: World, op: Op)
    requires Inv(w) && Enabled(w, op) && Whole(w)
    ensures Whole(Step(w, op)) <==> !Cuts(w, op)
  {
    match op
    case DoDropChannel(ch, error) => WholeDropChannel(w, ch, error);
    case DoDropPending(error, order) => WholeDropPending(w, error, order);
    case _ => WholeKept(w, op);
  }

  ghost predicate NeverCuts(w: World, ops: seq<Op>)
    requires Legal(w, ops)
    decreases |ops|
  {
    ops == [] || (!Cuts(w, ops[0]) && NeverCuts(Step(w, ops[0]), ops[1..]))
  }

  lemma {:induction false} WholeRun(w: World, ops: seq<Op>)
    requires Inv(w) && Whole(w) && Legal(w, ops) && NeverCuts(w, ops)
    ensures Whole(Exec(w, ops))
    decreases |ops|
  {
    if ops != [] {
      InvStep(w, ops[0]);
      WholeStep(w, ops[0]);
      WholeRun(Step(w, ops[0]), ops[1..]);
    }
  }

  /** Over every run in which no drop hits a publish under way, each publish
      leaves as one uninterrupted run of frames: in what was sent every part but
      the last of its publish is followed by the next part. */
  lemma WholePublishes(ops: seq<Op>)
    requires Legal(START, ops) && NeverCuts(START, ops)
    ensures Unbroken(Exec(START, ops).out)
  {
    InvStart();
    assert Line(START) == [];
    WholeRun(START, ops);
    var w := Exec(START, ops);
    Assoc(w.out, Taken(w), w.inner.retry + w.inner.publish + w.inner.lowPrio);
    UnbrokenPrefix(w.out, Taken(w) + (w.inner.retry + w.inner.publish + w.inner.lowPrio));
  }

  // ---- who goes first ----

  datatype Drawn = Drawn(inner: Inner, entries: seq<FrameEntry>)

  /** What `n` pops in a row yield; `flow(i)` is the flow flag at the `i`-th. */
  function PopMany(s: Inner, flow: nat -> bool, n: nat): (r: Drawn) {
    if n == 0 then Drawn(s, [])
    else
      var d := PopMany(s, flow, n - 1);
      var p := Pop(d.inner, flow(n - 1));
      Drawn(p.inner, d.entries + if p.entry.Some? then [p.entry.value] else [])
  }

  /** All that goes before a new publish. */
  function Urgent(s: Inner): (q: seq<FrameEntry>) {
    s.retry + s.publish + s.frames
  }

  lemma PopUrgent(s: Inner, flow: bool)
    requires Urgent(s) != []
    ensures
      var p := Pop(s, flow);
      && p.entry == Some(Urgent(s)[0]) && Urgent(p.inner) == Urgent(s)[1..]
      && p.inner.lowPrio == s.lowPrio && p.inner.settled == s.settled && p.inner.replies == s.replies
  {
    if s.retry != [] {
      assert Urgent(s)[1..] == s.retry[1..] + s.publish + s.frames;
    } else {
      assert s.retry + s.publish + s.frames == s.publish + s.frames;
      if s.publish != [] {
        assert Urgent(s)[1..] == [] + s.publish[1..] + s.frames;
      } else {
        assert Urgent(s)[1..] == [] + [] + s.frames[1..];
      }
    }
  }

  /** Whatever the flow, the frame put back, the rest of the publish under way
      and the callers' own frames leave in this order before any new publish. */
  lemma {:induction false} UrgentFirst(s: Inner, flow: nat -> bool, n: nat)
    requires n <= |Urgent(s)|
    ensures
      var d := PopMany(s, flow, n);
      && d.entries == Urgent(s)[..n] && Urgent(d.inner) == Urgent(s)[n..]
      && d.inner.lowPrio == s.lowPrio && d.inner.settled == s.settled && d.inner.replies == s.replies
    decreases n
  {
    if n > 0 {
      UrgentFirst(s, flow, n - 1);
      PopUrgent(PopMany(s, flow, n - 1).inner, flow(n - 1));
      assert Urgent(s)[n - 1..][1..] == Urgent(s)[n..];
      assert Urgent(s)[..n] == Urgent(s)[..n - 1] + [Urgent(s)[n - 1]];
    }
  }

  /** Then, and only with the flow on, a new publish begins; the content right
      behind its method is set apart, all of it and nothing else, if it starts
      with a header.  A pop comes back empty-handed only if nothing may go. */
  lemma PublishNext(s: Inner, flow: bool)
    ensures
      var p := Pop(s, flow);
      && (p.entry.None? <==> Urgent(s) == [] && (!flow || s.lowPrio == []))
      && (p.entry.None? ==> p.inner == s)
      && (p.entry.Some? && Urgent(s) == [] ==>
            && s.lowPrio == [p.entry.value] + p.inner.publish + p.inner.lowPrio
            && (forall e :: e in p.inner.publish ==> e.frame.IsContent())
            && (p.inner.publish != [] <==> |s.lowPrio| > 1 && s.lowPrio[1].frame.Header?)
            && (p.inner.publish != [] && p.inner.lowPrio != [] ==> !p.inner.lowPrio[0].frame.IsContent()))
  {
    if Urgent(s) == [] && flow && s.lowPrio != [] {
      var rest := s.lowPrio[1..];
      var n := |Pop(s, flow).inner.publish|;
      assert rest[..n] + rest[n..] == rest;
      assert s.lowPrio == [s.lowPrio[0]] + rest;
      Assoc([s.lowPrio[0]], rest[..n], rest[n..]);
    }
  }

  // ---- the flow gate ----

  predicate Begins(e: FrameEntry) {
    e.frame.Provenance().Part? && e.frame.Provenance().index == 0
  }

  /** With flow off, a popped frame begins a publish exactly when it is one that
      was popped before and put back; no new publish begins. */
  lemma FlowGate(w: World)
    requires Inv(w) && w.hand.None? && w.lost.None?
    ensures
      var w' := Step(w, DoPop(false));
      && w'.inner.lowPrio == w.inner.lowPrio
      && (w'.hand.Some? && Begins(w'.hand.value) <==> w.inner.retry != [] && Begins(w.inner.retry[0]))
  {
    var s := w.inner;
    if s.retry == [] && s.publish != [] {
      var x := s.publish[0];
      assert x in s.publish;
      var line := w.out + Taken(w) + (s.retry + s.publish + s.lowPrio);
      assert line[|w.out + Taken(w)|] == x;
    } else if s.retry == [] && s.frames != [] {
      assert s.frames[0] in s.frames;
    }
  }

  ghost predicate FlowOff(ops: seq<Op>) {
    forall op :: op in ops ==> op.DoPop? ==> !op.flow
  }

  /** `e` has already left the low priority queue. */
  predicate Begun(w: World, e: FrameEntry) {
    e in w.out || e in Taken(w) || e in w.inner.retry
  }

  /** Over a whole run with flow off, nothing begins but what had begun. */
  lemma {:induction false} FlowOffRun(w: World, ops: seq<Op>, e: FrameEntry)
    requires Inv(w) && Legal(w, ops) && FlowOff(ops) && Begins(e)
    ensures Begun(Exec(w, ops), e) ==> Begun(w, e)
    decreases |ops|
  {
    if ops != [] {
      var op := ops[0];
      assert op in ops;
      InvStep(w, op);
      FlowOffStep(w, op, e);
      FlowOffRun(Step(w, op), ops[1..], e);
    }
  }

  lemma FlowOffStep(w: World, op: Op, e: FrameEntry)
    requires Inv(w) && Enabled(w, op) && Begins(e) && (op.DoPop? ==> !op.flow)
    ensures Begun(Step(w, op), e) ==> Begun(w, e)
  {
    match op
    case DoPop(flow) => FlowGate(w);
    case DoDropChannel(ch, _) => OffChannelAll(w.inner.retry, ch);
    case _ =>
  }

  /** The first part of a publish can leave while flow is off: popped with flow
      on, put back because the buffer was full, popped again. */
  lemma RetriedStartIgnoresFlow(promise: PromiseId)
    ensures
      var ops := [DoPublish(1, [], 0, promise), DoPop(true), DoRetry, DoPop(false)];
      Legal(START, ops) && Exec(START, ops).hand.Some? && Begins(Exec(START, ops).hand.value)
  {
    var ops := StartedPublish(promise);
    var w := Exec(START, ops);
    ExecSnoc(START, ops, DoRetry);
    ExecSnoc(START, ops + [DoRetry], DoPop(false));
    assert ops + [DoRetry] + [DoPop(false)] == [DoPublish(1, [], 0, promise), DoPop(true), DoRetry, DoPop(false)];
  }

  /** A publish without a payload, the first of its two frames popped. */
  lemma StartedPublish(promise: PromiseId) returns (ops: seq<Op>)
    ensures ops == [DoPublish(1, [], 0, promise), DoPop(true)] && Legal(START, ops)
    ensures
      var w := Exec(START, ops);
      && w == World(Inner([FrameEntry(Header(1, 0, Part(0, 1)), FrameSending(None, Some(promise)))], [], [], [],
                          map[], None, map[], []),
                    Some(FrameEntry(Method(1, Part(0, 0)), FrameSending(None, None))), None, [], 1)
  {
    var a, b := DoPublish(1, [], 0, promise), DoPop(true);
    ExecSnoc(START, [], a);
    ExecSnoc(START, [a], b);
    ops := [a, b];
    assert [] + [a] == [a] && [a] + [b] == ops;
    var fs := PublishFrames(1, [], 0, 0);
    assert fs == [Method(1, Part(0, 0)), Header(1, 0, Part(0, 1))];
    var q := Entries(fs, promise);
    assert q == [FrameEntry(fs[0], FrameSending(None, None)), FrameEntry(fs[1], FrameSending(None, Some(promise)))];
    assert Exec(START, [a]).inner.lowPrio == q;
    assert q[1..] == [q[1]] && ContentPrefix([q[1]]) == 1;
    assert [q[1]][..1] == [q[1]] && [q[1]][1..] == [];
  }

  /** The same publish, its first frame sent, its channel dropped. */
  lemma DroppedPublish(promise: PromiseId) returns (ops: seq<Op>)
    ensures ops == [DoPublish(1, [], 0, promise), DoPop(true), DoSend, DoDropChannel(1, 0)] && Legal(START, ops)
    ensures Exec(START, ops) ==
            World(Inner([], [], [], [], map[], None, map[], [Settlement(promise, Err(0))]), None, None,
                  [FrameEntry(Method(1, Part(0, 0)), FrameSending(None, None))], 1)
  {
    ops := StartedPublish(promise);
    ExecSnoc(START, ops, DoSend);
    ExecSnoc(START, ops + [DoSend], DoDropChannel(1, 0));
    var q := [FrameEntry(Header(1, 0, Part(0, 1)), FrameSending(None, Some(promise)))];
    assert q[..0] == [] && OffChannel(q, 1) == [] && RejectOnChannel(q, 1, 0) == [Settlement(promise, Err(0))];
    ops := ops + [DoSend] + [DoDropChannel(1, 0)];
  }

  /** Dropping its channel while a publish is under way cuts it short: what is
      sent next on that channel comes right after its first frame. */
  lemma CutPublish(promise: PromiseId, canceler: PromiseId)
    ensures
      var ops := [DoPublish(1, [], 0, promise), DoPop(true), DoSend, DoDropChannel(1, 0),
                  DoPush(1, Method(1, Own), canceler, None, None), DoPop(true), DoSend];
      && Legal(START, ops)
      && Exec(START, ops).out == [FrameEntry(Method(1, Part(0, 0)), FrameSending(None, None)),
                                  FrameEntry(Method(1, Own), FrameSending(Some(canceler), None))]
      && !Unbroken(Exec(START, ops).out)
  {
    var ops := DroppedPublish(promise);
    var push := DoPush(1, Method(1, Own), canceler, None, None);
    ExecSnoc(START, ops, push);
    ExecSnoc(START, ops + [push], DoPop(true));
    ExecSnoc(START, ops + [push] + [DoPop(true)], DoSend);
    var all := ops + [push] + [DoPop(true)] + [DoSend];
    assert all == [DoPublish(1, [], 0, promise), DoPop(true), DoSend, DoDropChannel(1, 0), push, DoPop(true), DoSend];
    var out := Exec(START, all).out;
    assert Open(out[0]) && !Follows(out[0].frame, out[1].frame);
  }

  // ---- a new connection ----

  /** The scheduler lives on; what has been sent starts over. */
  function Restarted(w: World): (r: World) {
    World(w.inner, None, None, [], w.next)
  }

  /** What is in line next is no content: it needs nothing sent before it. */
  predicate StartsClean(s: Inner) {
    var q := s.retry + s.publish + s.lowPrio;
    q == [] || !q[0].frame.IsContent()
  }

  /** A new connection keeps the invariant exactly when the frame in line next is
      not a header or a body. */
  lemma RestartIff(w: World)
    requires Inv(w) && w.hand.None? && w.lost.None?
    ensures Inv(Restarted(w)) <==> StartsClean(w.inner)
  {
    var q := w.inner.retry + w.inner.publish + w.inner.lowPrio;
    assert w.out + Taken(w) == w.out && [] + [] + q == q;
    if StartsClean(w.inner) {
      ChainedSuffix(w.out, q);
      SoundSuffix(w.out, q, w.next);
    } else {
      assert !Chained(q) by {
        assert q[0].frame.IsContent();
      }
    }
  }

  /** A frame that was lost keeps its place in front of what follows. */
  lemma PassedOver(w: World)
    requires Inv(w) && w.hand.None?
    ensures Inv(World(w.inner, None, None, w.out + Taken(w), w.next))
  {
    assert w.out + Taken(w) + [] == w.out + Taken(w);
  }

  /** Of what was sent, a later part is in order too, and lacks at most what
      should come before its first frame. */
  lemma SoundTail(a: seq<FrameEntry>, b: seq<FrameEntry>, next: nat)
    requires Sound(a + b, next)
    ensures Ordered(b) && (Chained(b) <==> b == [] || !b[0].frame.IsContent())
  {
    assert forall i :: 0 <= i < |b| ==> b[i] == (a + b)[|a| + i];
    if b != [] && b[0].frame.IsContent() {
      assert !Chained(b);
    } else {
      ChainedSuffix(a, b);
    }
  }

  lemma ChainedSuffix(a: seq<FrameEntry>, b: seq<FrameEntry>)
    requires Chained(a + b) && (b == [] || !b[0].frame.IsContent())
    ensures Chained(b)
  {
    assert forall i :: 0 <= i < |b| ==> b[i] == (a + b)[|a| + i];
  }

  /** Otherwise the first frame sent on the new connection is a header or a body,
      whatever the flow. */
  lemma DirtyStart(w: World, flow: bool)
    requires Inv(w) && w.hand.None? && w.lost.None? && !StartsClean(w.inner)
    ensures
      var ops := [DoPop(flow), DoSend];
      && Legal(Restarted(w), ops)
      && Exec(Restarted(w), ops).out == [(w.inner.retry + w.inner.publish + w.inner.lowPrio)[0]]
      && !Chained(Exec(Restarted(w), ops).out)
  {
    var s := w.inner;
    var q := s.retry + s.publish + s.lowPrio;
    assert s.retry == [] && s.publish == [] ==> q == s.lowPrio;
    ExecSnoc(Restarted(w), [], DoPop(flow));
    ExecSnoc(Restarted(w), [DoPop(flow)], DoSend);
    assert [] + [DoPop(flow)] == [DoPop(flow)] && [DoPop(flow)] + [DoSend] == [DoPop(flow), DoSend];
    assert Exec(Restarted(w), [DoPop(flow)]).hand == Some(q[0]);
    assert [] + [q[0]] == [q[0]];
    assert !Chained([q[0]]) by {
      assert [q[0]][0].frame.IsContent();
    }
  }

  /** This happens when a channel is dropped while the I/O thread holds one of
      its headers or bodies and then puts it back. */
  lemma DirtyRestart(promise: PromiseId)
    ensures
      var ops := [DoPublish(1, [], 0, promise), DoPop(true), DoSend, DoPop(true), DoDropChannel(1, 0), DoRetry];
      && Legal(START, ops)
      && Exec(START, ops).hand.None? && Exec(START, ops).lost.None? && !StartsClean(Exec(START, ops).inner)
  {
    var ops := StartedPublish(promise);
    ExecSnoc(START, ops, DoSend);
    var ops3 := ops + [DoSend];
    ExecSnoc(START, ops3, DoPop(true));
    var ops4 := ops3 + [DoPop(true)];
    ExecSnoc(START, ops4, DoDropChannel(1, 0));
    var ops5 := ops4 + [DoDropChannel(1, 0)];
    var header := FrameEntry(Header(1, 0, Part(0, 1)), FrameSending(None, Some(promise)));
    assert [header][1..] == [];
    assert Exec(START, ops5).hand == Some(header) && Exec(START, ops5).inner.retry == [];
    ExecSnoc(START, ops5, DoRetry);
    var s := Exec(START, ops5 + [DoRetry]).inner;
    assert (s.retry + s.publish + s.lowPrio)[0] == header;
    assert ops5 + [DoRetry] == [DoPublish(1, [], 0, promise), DoPop(true), DoSend, DoPop(true), DoDropChannel(1, 0), DoRetry];
  }
}
