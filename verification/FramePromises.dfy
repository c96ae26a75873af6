/** What happens to the promises given to the outgoing scheduler. */
module FramePromises {
  import opened Bytes
  import opened Scheduler
  import opened Publishing
  import opened FrameRuns

  /** The promise a held frame answers for.  A basic.cancel without a resolver
      leaves that to its expected reply. */
  function Owes(e: FrameEntry): (r: Option<PromiseId>) {
    if e.sending.resolver.Some? then e.sending.resolver
    else if e.frame.BasicCancel? then None
    else e.sending.canceler
  }

  /** That, or only what the frame answers for to the end: a canceler is of no
      use once the frame is written. */
  function Answers(e: FrameEntry, lasting: bool): (r: Option<PromiseId>)
    ensures r.Some? ==> r == Owes(e)
  {
    if lasting then e.sending.resolver else Owes(e)
  }

  /** The promise that rejecting a sending settles: the resolver wins over the
      canceler. */
  function RejectOwes(x: FrameSending): (r: Option<PromiseId>) {
    if x.resolver.Some? then x.resolver else x.canceler
  }

  function ReplyOwes(r: ExpectedReply): (p: PromiseId) {
    if r.reply.BasicCancelOk? then r.reply.resolver else r.canceler
  }

  ghost predicate Settled(log: Log, p: PromiseId) {
    exists o :: Settlement(p, o) in log
  }

  /** Some frame of `q` answers for `p`. */
  ghost predicate HeldIn(q: seq<FrameEntry>, p: PromiseId, lasting: bool) {
    exists e :: e in q && Answers(e, lasting) == Some(p)
  }

  ghost predicate AwaitedIn(rs: seq<ExpectedReply>, p: PromiseId) {
    exists r :: r in rs && ReplyOwes(r) == p
  }

  ghost predicate Awaited(s: Inner, p: PromiseId) {
    exists ch :: ch in s.replies && AwaitedIn(s.replies[ch], p)
  }

  ghost predicate Queued(s: Inner, p: PromiseId, lasting: bool) {
    HeldIn(s.retry, p, lasting) || HeldIn(s.publish, p, lasting) || HeldIn(s.frames, p, lasting) || HeldIn(s.lowPrio, p, lasting)
  }

  /** The I/O thread has the frame that answers for `p`, or has sent it. */
  ghost predicate WithWriter(w: World, p: PromiseId, lasting: bool) {
    HeldIn(w.out, p, lasting) || (w.hand.Some? && Answers(w.hand.value, lasting) == Some(p))
  }

  /** The frame that answers for `p` was refused by its generator. */
  predicate Stranded(w: World, p: PromiseId, lasting: bool) {
    w.lost.Some? && Answers(w.lost.value, lasting) == Some(p)
  }

  /** `p` is settled or something will still settle it. */
  ghost predicate Safe(w: World, p: PromiseId, lasting: bool) {
    Settled(w.inner.settled, p) || Queued(w.inner, p, lasting) || Awaited(w.inner, p) || WithWriter(w, p, lasting)
  }

  /** The promises a call passes in. */
  ghost predicate Given(op: Op, p: PromiseId, lasting: bool) {
    match op
    case DoPush(_, frame, canceler, reply, resolver) =>
      || Answers(FrameEntry(frame, FrameSending(Some(canceler), resolver)), lasting) == Some(p)
      || (reply.Some? && ReplyOwes(reply.value) == p)
    case DoPublish(_, _, _, promise) => p == promise
    case _ => false
  }

  /** The step takes a reply that answers for `p` out of the table and returns it. */
  ghost predicate HandsOver(w: World, op: Op, p: PromiseId) {
    match op
    case DoFind(ch, finder) =>
      var r := FoundReply(w.inner, ch, finder).reply;
      r.Some? && ReplyOwes(r.value) == p
    case DoCloseOk(ch, error) =>
      var r := NextCloseOk(w.inner, ch, error).reply;
      r.Some? && ReplyOwes(r.value) == p
    case DoTake(ch) => AwaitedIn(RepliesOn(w.inner, ch), p)
    case _ => false
  }

  // ---- what the settlement logs contain ----

  lemma {:induction false} DropFramesSettles(q: seq<FrameEntry>, error: ErrorId)
    ensures forall e :: e in q && Owes(e).Some? ==>
      Settlement(Owes(e).value, if e.frame.BasicCancel? then Ok else Err(error)) in DropFrames(q, error)
    decreases |q|
  {
    if q != [] {
      var n := |q| - 1;
      DropFramesSettles(q[..n], error);
      assert q == q[..n] + [q[n]];
    }
  }

  /** And it settles nothing else. */
  lemma {:induction false} DropFramesOnly(q: seq<FrameEntry>, error: ErrorId, x: Settlement)
    requires x in DropFrames(q, error)
    ensures HeldIn(q, x.promise, false)
    decreases |q|
  {
    var n := |q| - 1;
    if x in DropFrames(q[..n], error) {
      DropFramesOnly(q[..n], error, x);
      var e :| e in q[..n] && Answers(e, false) == Some(x.promise);
      assert e in q;
    } else {
      assert x in DropFrame(q[n], error);
      assert q[n] in q && Answers(q[n], false) == Some(x.promise);
    }
  }

  lemma {:induction false} CancelRepliesSettles(rs: seq<ExpectedReply>, error: ErrorId)
    ensures forall r :: r in rs ==>
      Settlement(ReplyOwes(r), if r.reply.BasicCancelOk? then Ok else Err(error)) in CancelReplies(rs, error)
    decreases |rs|
  {
    if rs != [] {
      var n := |rs| - 1;
      CancelRepliesSettles(rs[..n], error);
      assert rs == rs[..n] + [rs[n]];
    }
  }

  lemma {:induction false} CancelTableSettles(m: map<ChannelId, seq<ExpectedReply>>, error: ErrorId, order: seq<ChannelId>)
    ensures forall ch, r :: ch in order && ch in m && r in m[ch] ==>
      Settlement(ReplyOwes(r), if r.reply.BasicCancelOk? then Ok else Err(error)) in CancelTable(m, error, order)
    decreases |order|
  {
    if order != [] {
      var n := |order| - 1;
      CancelTableSettles(m, error, order[..n]);
      assert order == order[..n] + [order[n]];
      if order[n] in m {
        CancelRepliesSettles(m[order[n]], error);
      }
    }
  }

  lemma {:induction false} RejectOnChannelSettles(q: seq<FrameEntry>, ch: ChannelId, error: ErrorId)
    ensures forall e :: e in q && e.frame.ChannelId() == ch && Owes(e).Some? ==>
      Settlement(Owes(e).value, Err(error)) in RejectOnChannel(q, ch, error)
    decreases |q|
  {
    if q != [] {
      var n := |q| - 1;
      RejectOnChannelSettles(q[..n], ch, error);
      assert q == q[..n] + [q[n]];
    }
  }

  /** The part of the log that `drop_pending` adds. */
  ghost function DropLog(s: Inner, error: ErrorId, order: seq<ChannelId>): (log: Log)
    ensures DroppedPending(s, error, order).settled == s.settled + log
  {
    var a, b, c, d, e := DropFrames(s.retry, error), DropFrames(s.publish, error), DropFrames(s.frames, error),
      DropFrames(s.lowPrio, error), CancelTable(s.replies, error, order);
    Regroup5(s.settled, a, b, c, d, e);
    a + b + c + d + e
  }

  lemma Regroup5(s: Log, a: Log, b: Log, c: Log, d: Log, e: Log)
    ensures s + a + b + c + d + e == s + (a + b + c + d + e)
  {
    assert s + a + b + c + d == s + (a + b + c + d);
  }

  /** `drop_pending` leaves nothing queued or awaited, and settles every held
      frame and every expected reply: basic.cancel with success, all others
      with the error. */
  lemma DropPendingSettlesFrame(s: Inner, error: ErrorId, order: seq<ChannelId>, e: FrameEntry)
    requires e in s.retry || e in s.publish || e in s.frames || e in s.lowPrio
    requires Owes(e).Some?
    ensures Settlement(Owes(e).value, if e.frame.BasicCancel? then Ok else Err(error)) in DropLog(s, error, order)
  {
    DropFramesSettles(s.retry, error);
    DropFramesSettles(s.publish, error);
    DropFramesSettles(s.frames, error);
    DropFramesSettles(s.lowPrio, error);
  }

  lemma DropPendingSettlesReply(s: Inner, error: ErrorId, order: seq<ChannelId>, ch: ChannelId, r: ExpectedReply)
    requires Enumerates(order, s.replies)
    requires ch in s.replies && r in s.replies[ch]
    ensures Settlement(ReplyOwes(r), if r.reply.BasicCancelOk? then Ok else Err(error)) in DropLog(s, error, order)
  {
    CancelTableSettles(s.replies, error, order);
  }

  /** Dropping a channel's frames settles every one of them with the error. */
  lemma DropChannelSettles(s: Inner, ch: ChannelId, error: ErrorId, e: FrameEntry)
    requires e in s.retry + s.publish + s.frames + s.lowPrio
    requires e.frame.ChannelId() == ch && Owes(e).Some?
    ensures Settlement(Owes(e).value, Err(error)) in DroppedChannel(s, ch, error).settled[|s.settled|..]
  {
    RejectOnChannelSettles(s.retry, ch, error);
    RejectOnChannelSettles(s.publish, ch, error);
    RejectOnChannelSettles(s.frames, ch, error);
    RejectOnChannelSettles(s.lowPrio, ch, error);
    var a, b, c, d := RejectOnChannel(s.retry, ch, error), RejectOnChannel(s.publish, ch, error),
      RejectOnChannel(s.frames, ch, error), RejectOnChannel(s.lowPrio, ch, error);
    assert DroppedChannel(s, ch, error).settled[|s.settled|..] == a + b + c + d;
  }

  // ---- no promise is forgotten, over every run ----

  lemma SettledGrows(a: Log, b: Log, p: PromiseId)
    requires Settled(a, p) || Settled(b, p)
    ensures Settled(a + b, p)
  {
    var o :| Settlement(p, o) in a || Settlement(p, o) in b;
    assert Settlement(p, o) in a + b;
  }

  lemma QueuedSettles(s: Inner, error: ErrorId, order: seq<ChannelId>, p: PromiseId, lasting: bool)
    requires Queued(s, p, lasting)
    ensures Settled(DropLog(s, error, order), p)
  {
    var e :| (e in s.retry || e in s.publish || e in s.frames || e in s.lowPrio) && Answers(e, lasting) == Some(p);
    assert Owes(e) == Answers(e, lasting) == Some(p);
    DropPendingSettlesFrame(s, error, order, e);
  }

  lemma AwaitedSettles(s: Inner, error: ErrorId, order: seq<ChannelId>, p: PromiseId)
    requires Enumerates(order, s.replies) && Awaited(s, p)
    ensures Settled(DropLog(s, error, order), p)
  {
    var ch :| ch in s.replies && AwaitedIn(s.replies[ch], p);
    var r :| r in s.replies[ch] && ReplyOwes(r) == p;
    DropPendingSettlesReply(s, error, order, ch, r);
  }

  /** After `drop_pending` every promise that was safe is settled, unless the
      I/O thread has its frame. */
  lemma SafeDropPending(w: World, error: ErrorId, order: seq<ChannelId>, p: PromiseId, lasting: bool)
    requires Enumerates(order, w.inner.replies) && Safe(w, p, lasting)
    ensures Settled(DroppedPending(w.inner, error, order).settled, p) || WithWriter(w, p, lasting)
  {
    var s := w.inner;
    if Queued(s, p, lasting) {
      QueuedSettles(s, error, order, p, lasting);
    } else if Awaited(s, p) {
      AwaitedSettles(s, error, order, p);
    }
    if !WithWriter(w, p, lasting) {
      SettledGrows(s.settled, DropLog(s, error, order), p);
    }
  }

  lemma HeldOffChannel(q: seq<FrameEntry>, ch: ChannelId, error: ErrorId, p: PromiseId, lasting: bool)
    requires HeldIn(q, p, lasting)
    ensures HeldIn(OffChannel(q, ch), p, lasting) || Settled(RejectOnChannel(q, ch, error), p)
  {
    var e :| e in q && Answers(e, lasting) == Some(p);
    OffChannelAll(q, ch);
    RejectOnChannelSettles(q, ch, error);
  }

  lemma SafeDropChannel(w: World, ch: ChannelId, error: ErrorId, p: PromiseId, lasting: bool)
    requires Safe(w, p, lasting)
    ensures Safe(Step(w, DoDropChannel(ch, error)), p, lasting)
  {
    var s := w.inner;
    var s' := Step(w, DoDropChannel(ch, error)).inner;
    var a, b, c, d := RejectOnChannel(s.retry, ch, error), RejectOnChannel(s.publish, ch, error),
      RejectOnChannel(s.frames, ch, error), RejectOnChannel(s.lowPrio, ch, error);
    assert s'.settled == s.settled + a + b + c + d;
    forall o | Settlement(p, o) in s.settled || Settlement(p, o) in a || Settlement(p, o) in b
            || Settlement(p, o) in c || Settlement(p, o) in d
      ensures Settlement(p, o) in s'.settled
    {
    }
    if HeldIn(s.retry, p, lasting) { HeldOffChannel(s.retry, ch, error, p, lasting); }
    if HeldIn(s.publish, p, lasting) { HeldOffChannel(s.publish, ch, error, p, lasting); }
    if HeldIn(s.frames, p, lasting) { HeldOffChannel(s.frames, ch, error, p, lasting); }
    if HeldIn(s.lowPrio, p, lasting) { HeldOffChannel(s.lowPrio, ch, error, p, lasting); }
  }

  /** Frames only move between queues, the hand and the output. */
  lemma SafePop(w: World, flow: bool, p: PromiseId, lasting: bool)
    requires w.hand.None? && w.lost.None? && Safe(w, p, lasting)
    ensures Safe(Step(w, DoPop(flow)), p, lasting)
  {
    var s := w.inner;
    var w' := Step(w, DoPop(flow));
    forall e | e in s.retry || e in s.publish || e in s.frames || e in s.lowPrio
      ensures w'.hand == Some(e) || e in w'.inner.retry || e in w'.inner.publish || e in w'.inner.frames || e in w'.inner.lowPrio
    {
      if e in s.lowPrio && s.retry == [] && s.publish == [] && s.frames == [] && flow {
        var i :| 0 <= i < |s.lowPrio| && s.lowPrio[i] == e;
        var n := |w'.inner.publish|;
        assert i == 0 || (1 <= i < 1 + n && w'.inner.publish[i - 1] == e) || w'.inner.lowPrio[i - 1 - n] == e;
      }
    }
  }

  lemma SafePush(w: World, op: Op, p: PromiseId, lasting: bool)
    requires op.DoPush? && Enabled(w, op) && (Safe(w, p, lasting) || Given(op, p, lasting))
    ensures Safe(Step(w, op), p, lasting)
  {
    var s := w.inner;
    var s' := Step(w, op).inner;
    var sending := FrameSending(Some(op.canceler), op.resolver);
    var entry := FrameEntry(op.frame, sending);
    match CheckPoison(s, op.ch)
    case Some(error) =>
      var a := if op.reply.Some? then CancelReply(op.reply.value, error) else [];
      var b := Reject(sending, error);
      assert s'.settled == s.settled + a + b;
      if Settled(s.settled, p) {
        SettledGrows(s.settled, a, p);
        SettledGrows(s.settled + a, b, p);
      } else if op.reply.Some? && ReplyOwes(op.reply.value) == p {
        assert a[0].promise == p && a[0] == Settlement(p, a[0].outcome);
        SettledGrows(s.settled, a, p);
        SettledGrows(s.settled + a, b, p);
      } else if Answers(entry, lasting) == Some(p) {
        assert b[0] == Settlement(p, b[0].outcome);
        SettledGrows(s.settled + a, b, p);
      }
    case None =>
      assert s'.frames == s.frames + [entry];
      assert entry in s'.frames;
      assert forall e :: e in s.frames ==> e in s'.frames;
      SafeTablePush(s, op.ch, op.reply, p);
  }

  lemma SafeTablePush(s: Inner, ch: ChannelId, reply: Option<ExpectedReply>, p: PromiseId)
    ensures
      var m := if reply.Some? then s.replies[ch := RepliesOn(s, ch) + [reply.value]] else s.replies;
      Awaited(s, p) || (reply.Some? && ReplyOwes(reply.value) == p) ==>
        exists c :: c in m && AwaitedIn(m[c], p)
  {
    if reply.Some? {
      var m := s.replies[ch := RepliesOn(s, ch) + [reply.value]];
      assert reply.value in m[ch];
      if Awaited(s, p) {
        var c :| c in s.replies && AwaitedIn(s.replies[c], p);
        var r :| r in s.replies[c] && ReplyOwes(r) == p;
        assert r in m[c];
      }
    }
  }

  lemma SafePublish(w: World, op: Op, p: PromiseId, lasting: bool)
    requires op.DoPublish? && (Safe(w, p, lasting) || Given(op, p, lasting))
    ensures Safe(Step(w, op), p, lasting)
  {
    var s := w.inner;
    var s' := Step(w, op).inner;
    match CheckPoison(s, op.ch)
    case Some(error) =>
      assert Settlement(op.promise, Err(error)) in s'.settled;
      assert forall x :: x in s.settled ==> x in s'.settled;
    case None =>
      var fs := PublishFrames(op.ch, op.payload, op.frameMax, w.next);
      var q := Entries(fs, op.promise);
      assert s'.lowPrio == s.lowPrio + q;
      assert q[|q| - 1] in s'.lowPrio && Answers(q[|q| - 1], lasting) == Some(op.promise);
      assert forall e :: e in s.lowPrio ==> e in s'.lowPrio;
  }

  /** A reply leaves the table only by being settled or handed over. */
  lemma SafeReplies(w: World, op: Op, p: PromiseId, lasting: bool)
    requires op.DoFind? || op.DoTake? || op.DoClear? || op.DoCloseOk?
    requires Safe(w, p, lasting) && !HandsOver(w, op, p)
    ensures Safe(Step(w, op), p, lasting)
  {
    var s := w.inner;
    var s' := Step(w, op).inner;
    assert forall x :: x in s.settled ==> x in s'.settled;
    if !Settled(s.settled, p) && !Queued(s, p, lasting) && !WithWriter(w, p, lasting) {
      var ch :| ch in s.replies && AwaitedIn(s.replies[ch], p);
      if ch != op.ch {
        assert ch in s'.replies && s'.replies[ch] == s.replies[ch];
      } else {
        var r :| r in s.replies[ch] && ReplyOwes(r) == p;
        SafeReply(w, op, r);
      }
    }
  }

  /** What is left after taking one reply out is everything else. */
  lemma StillThere(rs: seq<ExpectedReply>, k: nat, r: ExpectedReply)
    requires k < |rs| && r in rs && r != rs[k]
    ensures r in rs[..k] + rs[k + 1..]
  {
    var i :| 0 <= i < |rs| && rs[i] == r;
    var rest := rs[..k] + rs[k + 1..];
    assert rest[if i < k then i else i - 1] == r;
  }

  lemma SafeCloseOk(w: World, ch: ChannelId, error: ErrorId, r: ExpectedReply)
    requires ch in w.inner.replies && r in w.inner.replies[ch] && !HandsOver(w, DoCloseOk(ch, error), ReplyOwes(r))
    ensures
      var s' := Step(w, DoCloseOk(ch, error)).inner;
      Settled(s'.settled, ReplyOwes(r)) || (ch in s'.replies && r in s'.replies[ch])
  {
    var rs := w.inner.replies[ch];
    var i :| 0 <= i < |rs| && rs[i] == r;
    var k := BeforeCloseOk(rs);
    if i < k {
      assert rs[..k][i] == r;
      CancelRepliesSettles(rs[..k], error);
    } else {
      assert i != k;
      assert rs[k + 1..][i - k - 1] == r;
    }
  }

  lemma SafeReply(w: World, op: Op, r: ExpectedReply)
    requires op.DoFind? || op.DoTake? || op.DoClear? || op.DoCloseOk?
    requires op.ch in w.inner.replies && r in w.inner.replies[op.ch] && !HandsOver(w, op, ReplyOwes(r))
    ensures
      var s' := Step(w, op).inner;
      Settled(s'.settled, ReplyOwes(r)) || (op.ch in s'.replies && r in s'.replies[op.ch])
  {
    var rs := w.inner.replies[op.ch];
    match op
    case DoFind(ch, finder) =>
      var k := Find(rs, finder);
      if k.Some? {
        StillThere(rs, k.value, r);
      }
    case DoClear(ch, error) => CancelRepliesSettles(rs, error);
    case DoCloseOk(ch, error) => SafeCloseOk(w, ch, error, r);
    case DoTake(ch) =>
  }

  lemma SafeClearAll(w: World, error: ErrorId, order: seq<ChannelId>, p: PromiseId, lasting: bool)
    requires Enumerates(order, w.inner.replies) && Safe(w, p, lasting)
    ensures Safe(Step(w, DoClearAll(error, order)), p, lasting)
  {
    var s := w.inner;
    var log := CancelTable(s.replies, error, order);
    if Awaited(s, p) {
      var ch :| ch in s.replies && AwaitedIn(s.replies[ch], p);
      var r :| r in s.replies[ch] && ReplyOwes(r) == p;
      CancelTableSettles(s.replies, error, order);
      assert Settlement(p, if r.reply.BasicCancelOk? then Ok else Err(error)) in log;
      SettledGrows(s.settled, log, p);
    } else if Settled(s.settled, p) {
      SettledGrows(s.settled, log, p);
    }
  }

  lemma SafeSend(w: World, p: PromiseId, lasting: bool)
    requires w.hand.Some? && Safe(w, p, lasting)
    ensures Safe(Step(w, DoSend), p, lasting) && Safe(Step(w, DoRetry), p, lasting)
  {
    var sent, back := Step(w, DoSend), Step(w, DoRetry);
    assert w.hand.value in sent.out && w.hand.value in back.inner.retry;
    assert forall e :: e in w.out ==> e in sent.out;
    assert forall e :: e in w.inner.retry ==> e in back.inner.retry;
  }

  lemma SafeLose(w: World, p: PromiseId, lasting: bool)
    requires Enabled(w, DoLose) && Safe(w, p, lasting)
    ensures Safe(Step(w, DoLose), p, lasting) || Stranded(Step(w, DoLose), p, lasting)
  {
  }

  lemma SafeStep(w: World, op: Op, p: PromiseId, lasting: bool)
    requires Enabled(w, op) && (Safe(w, p, lasting) || Given(op, p, lasting)) && !HandsOver(w, op, p)
    ensures Safe(Step(w, op), p, lasting) || (op.DoLose? && Stranded(Step(w, op), p, lasting))
  {
    match op
    case DoPush(_, _, _, _, _) => SafePush(w, op, p, lasting);
    case DoPublish(_, _, _, _) => SafePublish(w, op, p, lasting);
    case DoPop(flow) => SafePop(w, flow, p, lasting);
    case DoSend => SafeSend(w, p, lasting);
    case DoRetry => SafeSend(w, p, lasting);
    case DoLose => SafeLose(w, p, lasting);
    case DoDropChannel(ch, error) => SafeDropChannel(w, ch, error, p, lasting);
    case DoDropPending(error, order) => SafeDropPending(w, error, order, p, lasting);
    case DoFind(_, _) => SafeReplies(w, op, p, lasting);
    case DoTake(_) => SafeReplies(w, op, p, lasting);
    case DoClear(_, _) => SafeReplies(w, op, p, lasting);
    case DoCloseOk(_, _) => SafeReplies(w, op, p, lasting);
    case DoClearAll(error, order) => SafeClearAll(w, error, order, p, lasting);
    case DoPoisonChannel(_, _) =>
    case DoDropPoison =>
    case DoDropChannelPoison(_) =>
  }

  ghost predicate EverGiven(ops: seq<Op>, p: PromiseId, lasting: bool) {
    exists op :: op in ops && Given(op, p, lasting)
  }

  ghost predicate NeverHandedOver(w: World, ops: seq<Op>, p: PromiseId)
    requires Legal(w, ops)
    decreases |ops|
  {
    ops == [] || (!HandsOver(w, ops[0], p) && NeverHandedOver(Step(w, ops[0]), ops[1..], p))
  }

  /** Over every run, a promise given to the scheduler is at the end settled,
      still answered for by a queued frame or an awaited reply, or with the
      I/O thread, unless its reply was handed to the caller or its frame was
      refused by the generator. */
  lemma {:induction false} NoPromiseForgotten(w: World, ops: seq<Op>, p: PromiseId, lasting: bool)
    requires Legal(w, ops) && NeverHandedOver(w, ops, p)
    requires Safe(w, p, lasting) || Stranded(w, p, lasting) || EverGiven(ops, p, lasting)
    ensures Safe(Exec(w, ops), p, lasting) || Stranded(Exec(w, ops), p, lasting)
    decreases |ops|
  {
    if ops != [] {
      var op := ops[0];
      if Safe(w, p, lasting) || Given(op, p, lasting) {
        SafeStep(w, op, p, lasting);
      } else if Stranded(w, p, lasting) {
        assert Stranded(Step(w, op), p, lasting);
      } else {
        var x :| x in ops && Given(x, p, lasting);
        assert x in ops[1..];
      }
      NoPromiseForgotten(Step(w, op), ops[1..], p, lasting);
    }
  }

  // ---- after poisoning ----

  /** Since everything was dropped and poisoned with `held` in the I/O thread's
      hands: nothing is queued or awaited but that frame, if it was put back. */
  ghost predicate Poisoned(w: World, held: Option<FrameEntry>) {
    var s := w.inner;
    && s.poison.Some? && s.publish == [] && s.frames == [] && s.lowPrio == [] && s.replies == map[]
    && (s.retry == [] || (held.Some? && s.retry == [held.value] && w.hand.None?))
    && (w.hand.Some? ==> w.hand == held)
  }

  lemma DropPoisons(w: World, error: ErrorId, order: seq<ChannelId>)
    requires Enumerates(order, w.inner.replies)
    ensures Poisoned(Step(w, DoDropPending(error, order)), w.hand)
  {
  }

  /** Until the poison is lifted, every later push settles its promises at once,
      and at most the frame in hand at the drop is ever queued again. */
  lemma {:induction false} PoisonedRun(w: World, ops: seq<Op>, held: Option<FrameEntry>, p: PromiseId)
    requires Legal(w, ops) && Poisoned(w, held) && (forall op :: op in ops ==> !op.DoDropPoison?)
    ensures Poisoned(Exec(w, ops), held)
    ensures Settled(w.inner.settled, p) || EverGiven(ops, p, false) ==> Settled(Exec(w, ops).inner.settled, p)
    decreases |ops|
  {
    if ops != [] {
      var op := ops[0];
      assert op in ops;
      PoisonedStep(w, op, held, p);
      PoisonedRun(Step(w, op), ops[1..], held, p);
      if EverGiven(ops, p, false) && !Given(op, p, false) {
        var x :| x in ops && Given(x, p, false);
        assert x in ops[1..];
      }
    }
  }

  lemma PoisonedStep(w: World, op: Op, held: Option<FrameEntry>, p: PromiseId)
    requires Enabled(w, op) && Poisoned(w, held) && !op.DoDropPoison?
    ensures Poisoned(Step(w, op), held)
    ensures Settled(w.inner.settled, p) || Given(op, p, false) ==> Settled(Step(w, op).inner.settled, p)
  {
    PoisonedState(w, op, held);
    PoisonedLog(w, op, held, p);
  }

  lemma PoisonedState(w: World, op: Op, held: Option<FrameEntry>)
    requires Enabled(w, op) && Poisoned(w, held) && !op.DoDropPoison?
    ensures Poisoned(Step(w, op), held)
  {
    if op.DoDropChannel? && w.inner.retry != [] {
      assert w.inner.retry[..0] == [];
    }
  }

  lemma PoisonedLog(w: World, op: Op, held: Option<FrameEntry>, p: PromiseId)
    requires Enabled(w, op) && Poisoned(w, held)
    ensures Settled(w.inner.settled, p) || Given(op, p, false) ==> Settled(Step(w, op).inner.settled, p)
  {
    if Settled(w.inner.settled, p) {
      LogGrows(w, op);
      var o :| Settlement(p, o) in w.inner.settled;
      assert Settlement(p, o) in Step(w, op).inner.settled;
    }
  }

  lemma LogGrows(w: World, op: Op)
    requires Enabled(w, op)
    ensures w.inner.settled <= Step(w, op).inner.settled
  {
    if op.DoDropPending? {
      assert Step(w, op).inner.settled == w.inner.settled + DropLog(w.inner, op.error, op.order);
    }
  }
}
