/** What every call on the outgoing scheduler settles, and with what; who is let
    in and who is turned away; and that each expected reply is used up once. */
module FrameOutcomes {
  import opened Bytes
  import opened Scheduler
  import opened Publishing
  import opened FrameRuns
  import opened FramePromises

  // ---- who is let in ----

  /** The poison of channel `ch` after a step, given what it was before. */
  function OwnPoisonAfter(own: Option<ErrorId>, op: Op, ch: ChannelId): (r: Option<ErrorId>) {
    match op
    case DoPoisonChannel(c, error) => if c == ch then Some(error) else own
    case DoDropChannelPoison(c) => if c == ch then None else own
    case _ => own
  }

  /** The poison of everything after a step. */
  function PoisonAfter(all: Option<ErrorId>, op: Op): (r: Option<ErrorId>) {
    match op
    case DoDropPending(error, _) => Some(error)
    case DoDropPoison => None
    case _ => all
  }

  /** The error that keeps channel `ch` out after a run, by the calls made: its
      own latest poison unless that was lifted, else the latest of all. */
  function Gate(own: Option<ErrorId>, all: Option<ErrorId>, ops: seq<Op>, ch: ChannelId): (r: Option<ErrorId>)
    decreases |ops|
  {
    if ops == [] then if own.Some? then own else all
    else Gate(OwnPoisonAfter(own, ops[0], ch), PoisonAfter(all, ops[0]), ops[1..], ch)
  }

  function OwnPoison(s: Inner, ch: ChannelId): (r: Option<ErrorId>) {
    if ch in s.channelsPoison then Some(s.channelsPoison[ch]) else None
  }

  /** The error that keeps channel `ch` out now. */
  function Barred(s: Inner, ch: ChannelId): (r: Option<ErrorId>) {
    if OwnPoison(s, ch).Some? then OwnPoison(s, ch) else s.poison
  }

  lemma GateStep(w: World, op: Op, ch: ChannelId)
    requires Enabled(w, op)
    ensures OwnPoison(Step(w, op).inner, ch) == OwnPoisonAfter(OwnPoison(w.inner, ch), op, ch)
    ensures Step(w, op).inner.poison == PoisonAfter(w.inner.poison, op)
  {
  }

  /** A push or a publish on channel `ch`. */
  predicate Asks(op: Op, ch: ChannelId) {
    (op.DoPush? || op.DoPublish?) && op.ch == ch
  }

  /** What a refused call settles: its frame's promise with the error, and the
      reply it awaited as well, except that a basic.cancel-ok is as good as here. */
  predicate Refuses(op: Op, error: ErrorId, x: Settlement)
    requires op.DoPush? || op.DoPublish?
  {
    if op.DoPublish? then x == Settlement(op.promise, Err(error))
    else
      || x == Settlement(if op.resolver.Some? then op.resolver.value else op.canceler, Err(error))
      || (op.reply.Some? &&
          x == Settlement(ReplyOwes(op.reply.value), if op.reply.value.reply.BasicCancelOk? then Ok else Err(error)))
  }

  /** The step adds to no queue and not to the table of replies, and settles at
      once what the call passed in, and nothing else. */
  ghost predicate TurnedAway(w: World, w': World, op: Op, error: ErrorId)
    requires op.DoPush? || op.DoPublish?
  {
    && w' == World(w.inner.(settled := w'.inner.settled), w.hand, w.lost, w.out, w'.next)
    && w.inner.settled <= w'.inner.settled
    && forall x :: x in w'.inner.settled[|w.inner.settled|..] <==> Refuses(op, error, x)
  }

  /** The entries are those frames, and only the last one answers for `p`. */
  ghost predicate Carries(q: seq<FrameEntry>, frames: seq<Frame>, p: PromiseId) {
    && |q| == |frames| > 0
    && (forall i :: 0 <= i < |q| ==> q[i].frame == frames[i])
    && (forall i :: 0 <= i < |q| - 1 ==> q[i].sending == FrameSending(None, None))
    && q[|q| - 1].sending == FrameSending(None, Some(p))
  }

  /** The step settles nothing, and what the call passed in is answered for by
      what it put at the back of a queue and of its channel's replies. */
  ghost predicate LetIn(w: World, w': World, op: Op)
    requires op.DoPush? || op.DoPublish?
  {
    var s, s' := w.inner, w'.inner;
    && s'.settled == s.settled && s'.retry == s.retry && s'.publish == s.publish
    && s.frames <= s'.frames && s.lowPrio <= s'.lowPrio
    && (forall ch :: ch != op.ch ==> RepliesOn(s', ch) == RepliesOn(s, ch))
    && if op.DoPublish? then
         && s'.frames == s.frames && s'.replies == s.replies
         && Carries(s'.lowPrio[|s.lowPrio|..], PublishFrames(op.ch, op.payload, op.frameMax, w.next), op.promise)
       else
         && s'.lowPrio == s.lowPrio
         && s'.frames[|s.frames|..] == [FrameEntry(op.frame, FrameSending(Some(op.canceler), op.resolver))]
         && RepliesOn(s', op.ch) == RepliesOn(s, op.ch) + if op.reply.Some? then [op.reply.value] else []
  }

  lemma TurnedAwayStep(w: World, op: Op, error: ErrorId)
    requires Enabled(w, op) && (op.DoPush? || op.DoPublish?) && CheckPoison(w.inner, op.ch) == Some(error)
    ensures TurnedAway(w, Step(w, op), op, error)
  {
    var s, s' := w.inner, Step(w, op).inner;
    if op.DoPublish? {
      assert s'.settled[|s.settled|..] == [Settlement(op.promise, Err(error))];
    } else {
      var a := if op.reply.Some? then CancelReply(op.reply.value, error) else [];
      var b := Reject(FrameSending(Some(op.canceler), op.resolver), error);
      assert s'.settled[|s.settled|..] == a + b;
      assert b == [Settlement(if op.resolver.Some? then op.resolver.value else op.canceler, Err(error))];
      assert op.reply.Some? ==>
        a == [Settlement(ReplyOwes(op.reply.value), if op.reply.value.reply.BasicCancelOk? then Ok else Err(error))];
    }
  }

  lemma LetInStep(w: World, op: Op)
    requires Enabled(w, op) && (op.DoPush? || op.DoPublish?) && CheckPoison(w.inner, op.ch).None?
    ensures LetIn(w, Step(w, op), op)
  {
    var s, s' := w.inner, Step(w, op).inner;
    if op.DoPublish? {
      var fs := PublishFrames(op.ch, op.payload, op.frameMax, w.next);
      assert s'.lowPrio[|s.lowPrio|..] == Entries(fs, op.promise);
    } else {
      assert s'.frames[|s.frames|..] == [FrameEntry(op.frame, FrameSending(Some(op.canceler), op.resolver))];
    }
  }

  /** Any batch let in: its frames in order at the back, its promise with the
      last one; an empty one is resolved at once. */
  lemma BatchLetIn(s: Inner, ch: ChannelId, frames: seq<Frame>, p: PromiseId)
    requires Barred(s, ch).None?
    ensures
      var s' := PushedFrames(s, ch, frames, p);
      if frames == [] then s' == s.(settled := s.settled + [Settlement(p, Ok)])
      else
        && s' == s.(lowPrio := s'.lowPrio) && s.lowPrio <= s'.lowPrio
        && Carries(s'.lowPrio[|s.lowPrio|..], frames, p)
  {
    if frames != [] {
      assert PushedFrames(s, ch, frames, p).lowPrio[|s.lowPrio|..] == Entries(frames, p);
    }
  }

  /** After every run, a push or a publish is let in if and only if, by the calls
      made so far, neither its channel nor everything is poisoned; otherwise it is
      turned away with its channel's own latest error, or with the general one
      if the channel has none. */
  lemma {:induction false} GateExact(w: World, ops: seq<Op>, op: Op, ch: ChannelId)
    requires Legal(w, ops) && Asks(op, ch) && Enabled(Exec(w, ops), op)
    ensures
      var r := Exec(w, ops);
      match Gate(OwnPoison(w.inner, ch), w.inner.poison, ops, ch)
      case Some(error) => TurnedAway(r, Step(r, op), op, error)
      case None => LetIn(r, Step(r, op), op)
    decreases |ops|
  {
    if ops == [] {
      match CheckPoison(w.inner, ch)
      case Some(error) => TurnedAwayStep(w, op, error);
      case None => LetInStep(w, op);
    } else {
      GateStep(w, ops[0], ch);
      GateExact(Step(w, ops[0]), ops[1..], op, ch);
    }
  }

  /** The error `ch` was poisoned with last, `error` if not since. */
  function LatestPoison(error: ErrorId, ops: seq<Op>, ch: ChannelId): (r: ErrorId)
    decreases |ops|
  {
    if ops == [] then error
    else LatestPoison(if ops[0].DoPoisonChannel? && ops[0].ch == ch then ops[0].error else error, ops[1..], ch)
  }

  predicate Lifts(op: Op, ch: ChannelId) {
    op.DoDropChannelPoison? && op.ch == ch
  }

  lemma {:induction false} GateOwn(error: ErrorId, all: Option<ErrorId>, ops: seq<Op>, ch: ChannelId)
    requires forall op :: op in ops ==> !Lifts(op, ch)
    ensures Gate(Some(error), all, ops, ch) == Some(LatestPoison(error, ops, ch))
    decreases |ops|
  {
    if ops != [] {
      assert ops[0] in ops;
      GateOwn(OwnPoisonAfter(Some(error), ops[0], ch).value, PoisonAfter(all, ops[0]), ops[1..], ch);
    }
  }

  /** From the moment a channel is poisoned until that is lifted, whatever else is
      poisoned, dropped or lifted meanwhile, every push and publish on it is
      turned away with the channel's latest error. */
  lemma ChannelPoisonedRun(w: World, ch: ChannelId, error: ErrorId, ops: seq<Op>, op: Op)
    requires Legal(Step(w, DoPoisonChannel(ch, error)), ops) && Asks(op, ch)
    requires forall o :: o in ops ==> !Lifts(o, ch)
    requires Enabled(Exec(Step(w, DoPoisonChannel(ch, error)), ops), op)
    ensures
      var r := Exec(Step(w, DoPoisonChannel(ch, error)), ops);
      TurnedAway(r, Step(r, op), op, LatestPoison(error, ops, ch))
  {
    var poisoned := Step(w, DoPoisonChannel(ch, error));
    GateOwn(error, poisoned.inner.poison, ops, ch);
    GateExact(poisoned, ops, op, ch);
  }

  // ---- what each call settles ----

  function Held(s: Inner): (q: seq<FrameEntry>) {
    s.retry + s.publish + s.frames + s.lowPrio
  }

  /** What rejecting the entry settles. */
  predicate RejectedWith(e: FrameEntry, error: ErrorId, x: Settlement) {
    RejectOwes(e.sending).Some? && x == Settlement(RejectOwes(e.sending).value, Err(error))
  }

  /** What dropping the entry with everything else settles: a basic.cancel is as
      good as done. */
  predicate DroppedWith(e: FrameEntry, error: ErrorId, x: Settlement) {
    if e.frame.BasicCancel? then e.sending.resolver.Some? && x == Settlement(e.sending.resolver.value, Ok)
    else RejectedWith(e, error, x)
  }

  predicate ReplySettles(r: ExpectedReply, error: ErrorId, x: Settlement) {
    x == Settlement(ReplyOwes(r), if r.reply.BasicCancelOk? then Ok else Err(error))
  }

  ghost predicate AnyDropped(q: seq<FrameEntry>, error: ErrorId, x: Settlement) {
    exists e :: e in q && DroppedWith(e, error, x)
  }

  ghost predicate AnyRejected(q: seq<FrameEntry>, ch: ChannelId, error: ErrorId, x: Settlement) {
    exists e :: e in q && e.frame.ChannelId() == ch && RejectedWith(e, error, x)
  }

  ghost predicate AnyReplySettles(rs: seq<ExpectedReply>, error: ErrorId, x: Settlement) {
    exists r :: r in rs && ReplySettles(r, error, x)
  }

  ghost predicate TableSettles(s: Inner, error: ErrorId, x: Settlement) {
    exists ch :: ch in s.replies && AnyReplySettles(s.replies[ch], error, x)
  }

  lemma {:induction false} DropFramesIff(q: seq<FrameEntry>, error: ErrorId, x: Settlement)
    ensures x in DropFrames(q, error) <==> AnyDropped(q, error, x)
    decreases |q|
  {
    if q != [] {
      var init, last := q[..|q| - 1], q[|q| - 1];
      DropFramesIff(init, error, x);
      assert x in DropFrame(last, error) <==> DroppedWith(last, error, x);
      assert q == init + [last] && last in q;
      assert forall e :: e in init ==> e in q;
    }
  }

  lemma {:induction false} RejectOnChannelIff(q: seq<FrameEntry>, ch: ChannelId, error: ErrorId, x: Settlement)
    ensures x in RejectOnChannel(q, ch, error) <==> AnyRejected(q, ch, error, x)
    decreases |q|
  {
    if q != [] {
      var init, last := q[..|q| - 1], q[|q| - 1];
      RejectOnChannelIff(init, ch, error, x);
      assert x in Reject(last.sending, error) <==> RejectedWith(last, error, x);
      assert q == init + [last] && last in q;
      assert forall e :: e in init ==> e in q;
    }
  }

  lemma {:induction false} CancelRepliesIff(rs: seq<ExpectedReply>, error: ErrorId, x: Settlement)
    ensures x in CancelReplies(rs, error) <==> AnyReplySettles(rs, error, x)
    decreases |rs|
  {
    if rs != [] {
      var init, last := rs[..|rs| - 1], rs[|rs| - 1];
      CancelRepliesIff(init, error, x);
      assert x in CancelReply(last, error) <==> ReplySettles(last, error, x);
      assert rs == init + [last] && last in rs;
      assert forall r :: r in init ==> r in rs;
    }
  }

  lemma {:induction false} CancelTableIff(m: map<ChannelId, seq<ExpectedReply>>, error: ErrorId, order: seq<ChannelId>, x: Settlement)
    ensures x in CancelTable(m, error, order) <==> exists ch :: ch in order && ch in m && AnyReplySettles(m[ch], error, x)
    decreases |order|
  {
    if order != [] {
      var init, last := order[..|order| - 1], order[|order| - 1];
      CancelTableIff(m, error, init, x);
      if last in m {
        CancelRepliesIff(m[last], error, x);
      }
      assert order == init + [last] && last in order;
      assert forall ch :: ch in init ==> ch in order;
    }
  }

  /** What the step settles `x` for: a call turned away, the frames dropped with
      their channel or with everything, and the replies cancelled. */
  ghost predicate Settles(w: World, op: Op, x: Settlement) {
    var s := w.inner;
    match op
    case DoPush(ch, _, _, _, _) => Barred(s, ch).Some? && Refuses(op, Barred(s, ch).value, x)
    case DoPublish(ch, _, _, _) => Barred(s, ch).Some? && Refuses(op, Barred(s, ch).value, x)
    case DoDropChannel(ch, error) => AnyRejected(Held(s), ch, error, x)
    case DoDropPending(error, _) => AnyDropped(Held(s), error, x) || TableSettles(s, error, x)
    case DoClear(ch, error) => AnyReplySettles(RepliesOn(s, ch), error, x)
    case DoClearAll(error, _) => TableSettles(s, error, x)
    case DoCloseOk(ch, error) => AnyReplySettles(RepliesOn(s, ch)[..BeforeCloseOk(RepliesOn(s, ch))], error, x)
    case _ => false
  }

  /** The log grows by what is appended to it. */
  lemma NewPart(a: Log, b: Log)
    ensures a <= a + b && (a + b)[|a|..] == b
  {
  }

  lemma SettlesDropChannel(w: World, ch: ChannelId, error: ErrorId, x: Settlement)
    ensures
      var s, s' := w.inner, DroppedChannel(w.inner, ch, error);
      s.settled <= s'.settled && (x in s'.settled[|s.settled|..] <==> AnyRejected(Held(s), ch, error, x))
  {
    var s := w.inner;
    RejectOnChannelIff(s.retry, ch, error, x);
    RejectOnChannelIff(s.publish, ch, error, x);
    RejectOnChannelIff(s.frames, ch, error, x);
    RejectOnChannelIff(s.lowPrio, ch, error, x);
    var a, b, c, d := RejectOnChannel(s.retry, ch, error), RejectOnChannel(s.publish, ch, error),
      RejectOnChannel(s.frames, ch, error), RejectOnChannel(s.lowPrio, ch, error);
    Regroup4(s.settled, a, b, c, d);
    NewPart(s.settled, a + b + c + d);
    HeldEach(s);
  }

  lemma Regroup4(s: Log, a: Log, b: Log, c: Log, d: Log)
    ensures s + a + b + c + d == s + (a + b + c + d)
  {
  }

  lemma HeldEach(s: Inner)
    ensures forall e :: e in Held(s) <==> e in s.retry || e in s.publish || e in s.frames || e in s.lowPrio
  {
  }

  lemma SettlesDropPending(w: World, error: ErrorId, order: seq<ChannelId>, x: Settlement)
    requires Enumerates(order, w.inner.replies)
    ensures
      var s, s' := w.inner, DroppedPending(w.inner, error, order);
      && s.settled <= s'.settled
      && (x in s'.settled[|s.settled|..] <==> AnyDropped(Held(s), error, x) || TableSettles(s, error, x))
  {
    var s := w.inner;
    DropFramesIff(s.retry, error, x);
    DropFramesIff(s.publish, error, x);
    DropFramesIff(s.frames, error, x);
    DropFramesIff(s.lowPrio, error, x);
    CancelTableIff(s.replies, error, order, x);
    NewPart(s.settled, DropLog(s, error, order));
    HeldEach(s);
  }

  /** Every step settles exactly what it has to, with the outcome it has to; the
      log only grows. */
  lemma SettlesExact(w: World, op: Op, x: Settlement)
    requires Enabled(w, op)
    ensures
      var s, s' := w.inner, Step(w, op).inner;
      s.settled <= s'.settled && (x in s'.settled[|s.settled|..] <==> Settles(w, op, x))
  {
    var s := w.inner;
    if op.DoPush? || op.DoPublish? {
      SettlesAsked(w, op, x);
    } else if op.DoDropChannel? {
      SettlesDropChannel(w, op.ch, op.error, x);
    } else if op.DoDropPending? {
      SettlesDropPending(w, op.error, op.order, x);
    } else if op.DoClear? {
      CancelRepliesIff(RepliesOn(s, op.ch), op.error, x);
      NewPart(s.settled, CancelReplies(RepliesOn(s, op.ch), op.error));
    } else if op.DoClearAll? {
      CancelTableIff(s.replies, op.error, op.order, x);
      NewPart(s.settled, CancelTable(s.replies, op.error, op.order));
    } else if op.DoCloseOk? {
      var rs := RepliesOn(s, op.ch)[..BeforeCloseOk(RepliesOn(s, op.ch))];
      CancelRepliesIff(rs, op.error, x);
      NewPart(s.settled, CancelReplies(rs, op.error));
    }
  }

  lemma SettlesAsked(w: World, op: Op, x: Settlement)
    requires Enabled(w, op) && (op.DoPush? || op.DoPublish?)
    ensures
      var s, s' := w.inner, Step(w, op).inner;
      s.settled <= s'.settled && (x in s'.settled[|s.settled|..] <==> Settles(w, op, x))
  {
    match CheckPoison(w.inner, op.ch)
    case Some(error) => TurnedAwayStep(w, op, error);
    case None => LetInStep(w, op);
  }

  ghost predicate EverSettles(w: World, ops: seq<Op>, x: Settlement)
    requires Legal(w, ops)
    decreases |ops|
  {
    ops != [] && (Settles(w, ops[0], x) || EverSettles(Step(w, ops[0]), ops[1..], x))
  }

  /** Over every run, a promise is settled with an outcome if and only if some
      step had to settle it so. */
  lemma {:induction false} LogExact(w: World, ops: seq<Op>, x: Settlement)
    requires Legal(w, ops)
    ensures x in Exec(w, ops).inner.settled <==> x in w.inner.settled || EverSettles(w, ops, x)
    decreases |ops|
  {
    if ops != [] {
      var s, s' := w.inner, Step(w, ops[0]).inner;
      SettlesExact(w, ops[0], x);
      assert s'.settled == s.settled + s'.settled[|s.settled|..];
      LogExact(Step(w, ops[0]), ops[1..], x);
    }
  }

  /** The consumers to deregister are exactly those whose basic.cancel is held. */
  lemma {:induction false} CancelsExact(q: seq<FrameEntry>, gone: Gone)
    ensures gone in Cancels(q) <==> exists e :: e in q && e.frame == BasicCancel(gone.channel, gone.consumer)
    decreases |q|
  {
    if q != [] {
      var init, last := q[..|q| - 1], q[|q| - 1];
      CancelsExact(init, gone);
      assert q == init + [last] && last in q;
      assert forall e :: e in init ==> e in q;
    }
  }

  // ---- each expected reply is used up once ----

  /** The replies of channel `ch` that the step hands to its caller or cancels. */
  function Leaving(s: Inner, op: Op, ch: ChannelId): (rs: seq<ExpectedReply>) {
    match op
    case DoFind(c, finder) =>
      var r := FoundReply(s, c, finder).reply;
      if c == ch && r.Some? then [r.value] else []
    case DoCloseOk(c, error) =>
      var all, r := RepliesOn(s, ch), NextCloseOk(s, c, error).reply;
      if c != ch then [] else all[..BeforeCloseOk(all)] + if r.Some? then [r.value] else []
    case DoTake(c) => if c == ch then RepliesOn(s, ch) else []
    case DoClear(c, _) => if c == ch then RepliesOn(s, ch) else []
    case DoClearAll(_, _) => RepliesOn(s, ch)
    case DoDropPending(_, _) => RepliesOn(s, ch)
    case _ => []
  }

  /** The reply the step begins to await on channel `ch`. */
  function Joining(s: Inner, op: Op, ch: ChannelId): (rs: seq<ExpectedReply>) {
    if op.DoPush? && op.ch == ch && op.reply.Some? && Barred(s, ch).None? then [op.reply.value] else []
  }

  lemma TakenOut(rs: seq<ExpectedReply>, i: nat)
    requires i < |rs|
    ensures multiset(rs[..i] + rs[i + 1..]) + multiset([rs[i]]) == multiset(rs)
  {
    assert rs == rs[..i] + [rs[i]] + rs[i + 1..];
  }

  lemma RepliesFind(s: Inner, ch: ChannelId, finder: ExpectedReply -> bool)
    ensures
      var s' := FoundReply(s, ch, finder).inner;
      && multiset(RepliesOn(s', ch)) + multiset(Leaving(s, DoFind(ch, finder), ch)) == multiset(RepliesOn(s, ch))
      && forall c :: c != ch ==> RepliesOn(s', c) == RepliesOn(s, c)
  {
    var rs := RepliesOn(s, ch);
    var i := Find(rs, finder);
    if i.Some? {
      TakenOut(rs, i.value);
    }
  }

  /** How many replies looking for the close-ok uses up. */
  function UsedByCloseOk(rs: seq<ExpectedReply>): (n: nat)
    ensures n <= |rs|
  {
    Min(BeforeCloseOk(rs) + 1, |rs|)
  }

  lemma CloseOkLeaving(s: Inner, ch: ChannelId, error: ErrorId)
    ensures Leaving(s, DoCloseOk(ch, error), ch) == RepliesOn(s, ch)[..UsedByCloseOk(RepliesOn(s, ch))]
  {
  }

  lemma CloseOkLeaves(s: Inner, ch: ChannelId, error: ErrorId)
    ensures
      var s' := NextCloseOk(s, ch, error).inner;
      && RepliesOn(s', ch) == RepliesOn(s, ch)[UsedByCloseOk(RepliesOn(s, ch))..]
      && forall c :: c != ch ==> RepliesOn(s', c) == RepliesOn(s, c)
  {
  }

  lemma RepliesCloseOk(s: Inner, ch: ChannelId, error: ErrorId)
    ensures
      var s' := NextCloseOk(s, ch, error).inner;
      && multiset(RepliesOn(s', ch)) + multiset(Leaving(s, DoCloseOk(ch, error), ch)) == multiset(RepliesOn(s, ch))
      && forall c :: c != ch ==> RepliesOn(s', c) == RepliesOn(s, c)
  {
    CloseOkLeaving(s, ch, error);
    CloseOkLeaves(s, ch, error);
    Halves(RepliesOn(s, ch), UsedByCloseOk(RepliesOn(s, ch)));
  }

  lemma Halves(rs: seq<ExpectedReply>, k: nat)
    requires k <= |rs|
    ensures multiset(rs[k..]) + multiset(rs[..k]) == multiset(rs)
  {
    assert rs == rs[..k] + rs[k..];
  }

  lemma RepliesPush(s: Inner, op: Op, ch: ChannelId)
    requires op.DoPush?
    ensures
      var s' := Pushed(s, op.ch, op.frame, op.canceler, op.reply, op.resolver);
      RepliesOn(s', ch) == RepliesOn(s, ch) + Joining(s, op, ch)
  {
  }

  lemma RepliesStep(w: World, op: Op, ch: ChannelId)
    requires Enabled(w, op)
    ensures
      var s, s' := w.inner, Step(w, op).inner;
      multiset(RepliesOn(s', ch)) + multiset(Leaving(s, op, ch)) == multiset(RepliesOn(s, ch)) + multiset(Joining(s, op, ch))
  {
    var s, s' := w.inner, Step(w, op).inner;
    if op.DoPush? {
      RepliesPush(s, op, ch);
    } else if op.DoFind? {
      RepliesFind(s, op.ch, op.finder);
    } else if op.DoCloseOk? {
      RepliesCloseOk(s, op.ch, op.error);
    } else {
      RepliesElse(w, op, ch);
    }
  }

  lemma RepliesElse(w: World, op: Op, ch: ChannelId)
    requires Enabled(w, op) && !op.DoPush? && !op.DoFind? && !op.DoCloseOk?
    ensures
      var s, s' := w.inner, Step(w, op).inner;
      if Leaving(s, op, ch) == [] then RepliesOn(s', ch) == RepliesOn(s, ch)
      else Leaving(s, op, ch) == RepliesOn(s, ch) && RepliesOn(s', ch) == []
  {
  }

  /** One step's balance and that of the rest. */
  lemma Balance(a: multiset<ExpectedReply>, b: multiset<ExpectedReply>, c: multiset<ExpectedReply>,
                out: multiset<ExpectedReply>, in_: multiset<ExpectedReply>,
                out': multiset<ExpectedReply>, in': multiset<ExpectedReply>)
    requires b + out == a + in_ && c + out' == b + in'
    ensures c + (out + out') == a + (in_ + in')
  {
    forall x ensures (c + (out + out'))[x] == (a + (in_ + in'))[x] {
      assert (b + out)[x] == (a + in_)[x] && (c + out')[x] == (b + in')[x];
    }
  }

  ghost function AllLeaving(w: World, ops: seq<Op>, ch: ChannelId): (m: multiset<ExpectedReply>)
    requires Legal(w, ops)
    decreases |ops|
  {
    if ops == [] then multiset{}
    else multiset(Leaving(w.inner, ops[0], ch)) + AllLeaving(Step(w, ops[0]), ops[1..], ch)
  }

  ghost function AllJoining(w: World, ops: seq<Op>, ch: ChannelId): (m: multiset<ExpectedReply>)
    requires Legal(w, ops)
    decreases |ops|
  {
    if ops == [] then multiset{}
    else multiset(Joining(w.inner, ops[0], ch)) + AllJoining(Step(w, ops[0]), ops[1..], ch)
  }

  /** Over every run and for every channel: of the replies awaited, those still in
      the table and those handed over or cancelled add up, none twice. */
  lemma {:induction false} RepliesConserved(w: World, ops: seq<Op>, ch: ChannelId)
    requires Legal(w, ops)
    ensures multiset(RepliesOn(Exec(w, ops).inner, ch)) + AllLeaving(w, ops, ch) ==
            multiset(RepliesOn(w.inner, ch)) + AllJoining(w, ops, ch)
    decreases |ops|
  {
    if ops != [] {
      var w' := Step(w, ops[0]);
      RepliesStep(w, ops[0], ch);
      RepliesConserved(w', ops[1..], ch);
      Balance(multiset(RepliesOn(w.inner, ch)), multiset(RepliesOn(w'.inner, ch)), multiset(RepliesOn(Exec(w, ops).inner, ch)),
              multiset(Leaving(w.inner, ops[0], ch)), multiset(Joining(w.inner, ops[0], ch)),
              AllLeaving(w', ops[1..], ch), AllJoining(w', ops[1..], ch));
    }
  }

  /** What is found is the channel's first reply the finder accepts, and nothing
      only if it accepts none. */
  lemma FoundFirst(s: Inner, ch: ChannelId, finder: ExpectedReply -> bool)
    ensures
      var rs, r := RepliesOn(s, ch), FoundReply(s, ch, finder).reply;
      && (r.None? <==> forall i :: 0 <= i < |rs| ==> !finder(rs[i]))
      && (r.Some? ==> exists i :: 0 <= i < |rs| && rs[i] == r.value && finder(rs[i]) && forall j :: 0 <= j < i ==> !finder(rs[j]))
  {
  }

  /** What is handed over as the awaited close-ok is one, the channel's first. */
  lemma CloseOkFirst(s: Inner, ch: ChannelId, error: ErrorId)
    ensures
      var rs, r := RepliesOn(s, ch), NextCloseOk(s, ch, error).reply;
      && (r.None? <==> forall i :: 0 <= i < |rs| ==> !rs[i].reply.ChannelCloseOk?)
      && (r.Some? ==> exists i :: 0 <= i < |rs| && rs[i] == r.value && rs[i].reply.ChannelCloseOk?
                                  && forall j :: 0 <= j < i ==> !rs[j].reply.ChannelCloseOk?)
  {
  }

  // ---- success without sending ----

  /** The call passes in `p` for a basic.cancel, or for the reply to one. */
  predicate GivenToCancel(op: Op, p: PromiseId) {
    op.DoPush? &&
    (|| (op.frame.BasicCancel? && op.resolver == Some(p))
     || (op.reply.Some? && op.reply.value.reply == BasicCancelOk(p)))
  }

  predicate CancelFor(e: FrameEntry, p: PromiseId) {
    e.frame.BasicCancel? && e.sending.resolver == Some(p)
  }

  /** The entry is in a queue or in hand. */
  predicate Around(w: World, e: FrameEntry) {
    e in w.inner.retry || e in w.inner.publish || e in w.inner.frames || e in w.inner.lowPrio || w.hand == Some(e)
  }

  ghost predicate NoCancelOk(rs: seq<ExpectedReply>, p: PromiseId) {
    forall r :: r in rs ==> r.reply != BasicCancelOk(p)
  }

  /** The scheduler has told `p` no success, and has no reason to. */
  ghost predicate NoCancel(w: World, p: PromiseId) {
    && Settlement(p, Ok) !in w.inner.settled
    && (forall e :: Around(w, e) ==> !CancelFor(e, p))
    && (forall ch :: NoCancelOk(RepliesOn(w.inner, ch), p))
  }

  lemma AroundPublish(w: World, op: Op, e: FrameEntry)
    requires op.DoPublish? && Around(Step(w, op), e) && !Around(w, e)
    ensures !e.frame.BasicCancel?
  {
    var s' := Step(w, op).inner;
    var fs := PublishFrames(op.ch, op.payload, op.frameMax, w.next);
    assert s'.lowPrio == w.inner.lowPrio + Entries(fs, op.promise);
    var i :| 0 <= i < |fs| && Entries(fs, op.promise)[i] == e;
    assert e.frame == fs[i];
  }

  lemma AroundDropChannel(w: World, ch: ChannelId, error: ErrorId, e: FrameEntry)
    requires Around(Step(w, DoDropChannel(ch, error)), e)
    ensures Around(w, e)
  {
    OffChannelAll(w.inner.retry, ch);
    OffChannelAll(w.inner.publish, ch);
    OffChannelAll(w.inner.frames, ch);
    OffChannelAll(w.inner.lowPrio, ch);
  }

  lemma AroundPop(w: World, flow: bool, e: FrameEntry)
    requires Enabled(w, DoPop(flow)) && Around(Step(w, DoPop(flow)), e)
    ensures Around(w, e)
  {
  }

  /** Frames come from pushes and publishes only. */
  lemma AroundStep(w: World, op: Op, e: FrameEntry)
    requires Enabled(w, op) && Around(Step(w, op), e)
    ensures
      || Around(w, e)
      || (op.DoPush? && e == FrameEntry(op.frame, FrameSending(Some(op.canceler), op.resolver)))
      || (op.DoPublish? && !e.frame.BasicCancel?)
  {
    if op.DoPublish? {
      if !Around(w, e) {
        AroundPublish(w, op, e);
      }
    } else if op.DoDropChannel? {
      AroundDropChannel(w, op.ch, op.error, e);
    } else if op.DoPop? {
      AroundPop(w, op.flow, e);
    }
  }

  lemma NoReplySuccess(rs: seq<ExpectedReply>, error: ErrorId, p: PromiseId)
    requires NoCancelOk(rs, p)
    ensures !AnyReplySettles(rs, error, Settlement(p, Ok))
  {
  }

  lemma NoTableSuccess(w: World, error: ErrorId, p: PromiseId)
    requires NoCancel(w, p)
    ensures !TableSettles(w.inner, error, Settlement(p, Ok))
  {
    forall ch | ch in w.inner.replies ensures !AnyReplySettles(w.inner.replies[ch], error, Settlement(p, Ok)) {
      assert NoCancelOk(RepliesOn(w.inner, ch), p);
      NoReplySuccess(w.inner.replies[ch], error, p);
    }
  }

  lemma NoDropSuccess(w: World, error: ErrorId, p: PromiseId)
    requires NoCancel(w, p)
    ensures !AnyDropped(Held(w.inner), error, Settlement(p, Ok))
  {
    forall e | e in Held(w.inner) ensures !DroppedWith(e, error, Settlement(p, Ok)) {
      assert Around(w, e);
    }
  }

  lemma NoSuccessStep(w: World, op: Op, p: PromiseId)
    requires Enabled(w, op) && NoCancel(w, p) && !GivenToCancel(op, p)
    ensures Settlement(p, Ok) !in Step(w, op).inner.settled
  {
    var s, s' := w.inner, Step(w, op).inner;
    SettlesExact(w, op, Settlement(p, Ok));
    assert s'.settled == s.settled + s'.settled[|s.settled|..];
    if op.DoDropPending? {
      NoDropSuccess(w, op.error, p);
      NoTableSuccess(w, op.error, p);
    } else if op.DoClearAll? {
      NoTableSuccess(w, op.error, p);
    } else if op.DoClear? || op.DoCloseOk? {
      NoReplySuccess(RepliesOn(s, op.ch), op.error, p);
    }
  }

  lemma NoCancelStep(w: World, op: Op, p: PromiseId)
    requires Enabled(w, op) && NoCancel(w, p) && !GivenToCancel(op, p)
    ensures NoCancel(Step(w, op), p)
  {
    var w' := Step(w, op);
    NoSuccessStep(w, op, p);
    forall e | Around(w', e) ensures !CancelFor(e, p) {
      AroundStep(w, op, e);
    }
    forall ch ensures NoCancelOk(RepliesOn(w'.inner, ch), p) {
      RepliesStep(w, op, ch);
      NoCancelReplies(RepliesOn(w.inner, ch), RepliesOn(w'.inner, ch), Leaving(w.inner, op, ch), Joining(w.inner, op, ch), p);
    }
  }

  lemma NoCancelReplies(rs: seq<ExpectedReply>, rs': seq<ExpectedReply>, left: seq<ExpectedReply>, new_: seq<ExpectedReply>, p: PromiseId)
    requires multiset(rs') + multiset(left) == multiset(rs) + multiset(new_)
    requires NoCancelOk(rs, p) && NoCancelOk(new_, p)
    ensures NoCancelOk(rs', p)
  {
    forall r | r in rs' ensures r.reply != BasicCancelOk(p) {
      assert r in multiset(rs') && r in multiset(rs) + multiset(new_);
      assert r in rs || r in new_;
    }
  }

  /** Over every run, the scheduler itself tells a promise of success only if it
      was passed in for a basic.cancel or the reply to one. */
  lemma {:induction false} SuccessOnlyForCancel(w: World, ops: seq<Op>, p: PromiseId)
    requires Legal(w, ops) && NoCancel(w, p) && (forall op :: op in ops ==> !GivenToCancel(op, p))
    ensures NoCancel(Exec(w, ops), p) && Settlement(p, Ok) !in Exec(w, ops).inner.settled
    decreases |ops|
  {
    if ops != [] {
      assert ops[0] in ops;
      NoCancelStep(w, ops[0], p);
      SuccessOnlyForCancel(Step(w, ops[0]), ops[1..], p);
    }
  }
}
