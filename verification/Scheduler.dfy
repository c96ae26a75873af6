/** The outgoing frame queues and the table of expected replies (src/frames.rs).

    `Inner` is the value of the locked state; the functions on it say what each
    operation does, and the class `Frames` is the code proved against them.
    Promises are numbers; settling one is recorded in the log `settled`.
 */
module Scheduler {
  import opened Bytes

  type ChannelId = nat
  type PromiseId = nat
  type ErrorId = nat

  /** Where a frame comes from: on its own, or as one part of a publish. */
  datatype Origin = Own | Part(publish: nat, index: nat)

  datatype Frame =
    | Method(channel: ChannelId, origin: Origin)
    | BasicCancel(channel: ChannelId, consumer: nat)
    | Header(channel: ChannelId, bodySize: nat, origin: Origin)
    | Body(channel: ChannelId, payload: seq<byte>, origin: Origin)
    | Heartbeat
    | ProtocolHeader
  {
    function ChannelId(): ChannelId {
      if Heartbeat? || ProtocolHeader? then 0 else channel
    }

    function Provenance(): Origin {
      if Method? || Header? || Body? then origin else Own
    }

    predicate IsContent() {
      Header? || Body?
    }
  }

  /** The resolver wins over the canceler when a sending is rejected. */
  datatype FrameSending = FrameSending(canceler: Option<PromiseId>, resolver: Option<PromiseId>)

  datatype FrameEntry = FrameEntry(frame: Frame, sending: FrameSending)

  datatype Reply = BasicCancelOk(resolver: PromiseId) | ChannelCloseOk(resolver: PromiseId) | OtherReply(resolver: PromiseId)

  datatype ExpectedReply = ExpectedReply(reply: Reply, canceler: PromiseId)

  datatype Outcome = Ok | Err(error: ErrorId)

  datatype Settlement = Settlement(promise: PromiseId, outcome: Outcome)

  type Log = seq<Settlement>

  datatype Inner = Inner(
    publish: seq<FrameEntry>,
    retry: seq<FrameEntry>,
    frames: seq<FrameEntry>,
    lowPrio: seq<FrameEntry>,
    replies: map<ChannelId, seq<ExpectedReply>>,
    poison: Option<ErrorId>,
    channelsPoison: map<ChannelId, ErrorId>,
    settled: Log)

  // ---- settling promises ----

  function Reject(s: FrameSending, error: ErrorId): (log: Log) {
    match s
    case FrameSending(_, Some(r)) => [Settlement(r, Err(error))]
    case FrameSending(Some(c), None) => [Settlement(c, Err(error))]
    case FrameSending(None, None) => []
  }

  function Resolve(s: FrameSending): (log: Log) {
    match s.resolver
    case Some(r) => [Settlement(r, Ok)]
    case None => []
  }

  function CancelReply(r: ExpectedReply, error: ErrorId): (log: Log) {
    match r.reply
    case BasicCancelOk(p) => [Settlement(p, Ok)]
    case _ => [Settlement(r.canceler, Err(error))]
  }

  function CancelReplies(rs: seq<ExpectedReply>, error: ErrorId): (log: Log) {
    if rs == [] then [] else CancelReplies(rs[..|rs| - 1], error) + CancelReply(rs[|rs| - 1], error)
  }

  /** What `drop_pending` does with one held frame: a basic.cancel is as good as done. */
  function DropFrame(e: FrameEntry, error: ErrorId): (log: Log) {
    if e.frame.BasicCancel? then Resolve(e.sending) else Reject(e.sending, error)
  }

  function DropFrames(q: seq<FrameEntry>, error: ErrorId): (log: Log) {
    if q == [] then [] else DropFrames(q[..|q| - 1], error) + DropFrame(q[|q| - 1], error)
  }

  /** A consumer whose basic.cancel is dropped unsent. */
  datatype Gone = Gone(channel: ChannelId, consumer: nat)

  /** The consumers to deregister when a queue is dropped. */
  function Cancels(q: seq<FrameEntry>): (r: seq<Gone>) {
    if q == [] then []
    else
      var last := q[|q| - 1].frame;
      Cancels(q[..|q| - 1]) + if last.BasicCancel? then [Gone(last.channel, last.consumer)] else []
  }

  /** The frames of a queue that are not on channel `ch`. */
  function OffChannel(q: seq<FrameEntry>, ch: ChannelId): (r: seq<FrameEntry>) {
    if q == [] then []
    else
      var last := q[|q| - 1];
      OffChannel(q[..|q| - 1], ch) + if last.frame.ChannelId() == ch then [] else [last]
  }

  function RejectOnChannel(q: seq<FrameEntry>, ch: ChannelId, error: ErrorId): (log: Log) {
    if q == [] then []
    else
      var last := q[|q| - 1];
      RejectOnChannel(q[..|q| - 1], ch, error) +
      if last.frame.ChannelId() == ch then Reject(last.sending, error) else []
  }

  // ---- operations on the locked state ----

  function CheckPoison(s: Inner, ch: ChannelId): (e: Option<ErrorId>) {
    if ch in s.channelsPoison then Some(s.channelsPoison[ch]) else s.poison
  }

  function RepliesOn(s: Inner, ch: ChannelId): (rs: seq<ExpectedReply>) {
    if ch in s.replies then s.replies[ch] else []
  }

  function Pushed(s: Inner, ch: ChannelId, frame: Frame, canceler: PromiseId,
                  reply: Option<ExpectedReply>, resolver: Option<PromiseId>): (r: Inner)
  {
    var sending := FrameSending(Some(canceler), resolver);
    match CheckPoison(s, ch)
    case Some(error) =>
      s.(settled := s.settled + (if reply.Some? then CancelReply(reply.value, error) else []) + Reject(sending, error))
    case None =>
      s.(frames := s.frames + [FrameEntry(frame, sending)],
         replies := if reply.Some? then s.replies[ch := RepliesOn(s, ch) + [reply.value]] else s.replies)
  }

  /** Entries without a promise, except that the last one carries the resolver. */
  function Entries(frames: seq<Frame>, resolver: PromiseId): (q: seq<FrameEntry>)
    requires frames != []
    ensures |q| == |frames| && forall i :: 0 <= i < |q| ==> q[i].frame == frames[i]
  {
    Bare(frames[..|frames| - 1]) +
    [FrameEntry(frames[|frames| - 1], FrameSending(None, Some(resolver)))]
  }

  function Bare(frames: seq<Frame>): (q: seq<FrameEntry>)
    ensures |q| == |frames| && forall i :: 0 <= i < |q| ==> q[i].frame == frames[i]
  {
    seq(|frames|, i requires 0 <= i < |frames| => FrameEntry(frames[i], FrameSending(None, None)))
  }

  function PushedFrames(s: Inner, ch: ChannelId, frames: seq<Frame>, resolver: PromiseId): (r: Inner) {
    match CheckPoison(s, ch)
    case Some(error) => s.(settled := s.settled + [Settlement(resolver, Err(error))])
    case None =>
      if frames == [] then s.(settled := s.settled + [Settlement(resolver, Ok)])
      else s.(lowPrio := s.lowPrio + Entries(frames, resolver))
  }

  /** How many content frames a queue starts with. */
  function ContentPrefix(q: seq<FrameEntry>): (n: nat)
    ensures n <= |q|
    ensures forall i :: 0 <= i < n ==> q[i].frame.IsContent()
    ensures n < |q| ==> !q[n].frame.IsContent()
  {
    if q == [] || !q[0].frame.IsContent() then 0 else 1 + ContentPrefix(q[1..])
  }

  datatype Popped = Popped(inner: Inner, entry: Option<FrameEntry>)

  function Pop(s: Inner, flow: bool): (r: Popped) {
    if s.retry != [] then Popped(s.(retry := s.retry[1..]), Some(s.retry[0]))
    else if s.publish != [] then Popped(s.(publish := s.publish[1..]), Some(s.publish[0]))
    else if s.frames != [] then Popped(s.(frames := s.frames[1..]), Some(s.frames[0]))
    else if flow && s.lowPrio != [] then
      var rest := s.lowPrio[1..];
      var n := if rest != [] && rest[0].frame.Header? then ContentPrefix(rest) else 0;
      Popped(s.(publish := rest[..n], lowPrio := rest[n..]), Some(s.lowPrio[0]))
    else Popped(s, None)
  }

  function Retried(s: Inner, e: FrameEntry): (r: Inner) {
    s.(retry := s.retry + [e])
  }

  function DroppedChannel(s: Inner, ch: ChannelId, error: ErrorId): (r: Inner) {
    s.(retry := OffChannel(s.retry, ch), publish := OffChannel(s.publish, ch),
       frames := OffChannel(s.frames, ch), lowPrio := OffChannel(s.lowPrio, ch),
       settled := s.settled + RejectOnChannel(s.retry, ch, error) + RejectOnChannel(s.publish, ch, error)
                  + RejectOnChannel(s.frames, ch, error) + RejectOnChannel(s.lowPrio, ch, error))
  }

  /** The replies of the table, cancelled channel by channel in the order
      `order` the hash map is drained in. */
  function CancelTable(replies: map<ChannelId, seq<ExpectedReply>>, error: ErrorId, order: seq<ChannelId>): (log: Log) {
    if order == [] then []
    else
      var ch := order[|order| - 1];
      CancelTable(replies, error, order[..|order| - 1]) +
      if ch in replies then CancelReplies(replies[ch], error) else []
  }

  lemma CancelTableNext(replies: map<ChannelId, seq<ExpectedReply>>, error: ErrorId, order: seq<ChannelId>, i: nat)
    requires i < |order| && order[i] in replies
    ensures CancelTable(replies, error, order[..i + 1]) ==
            CancelTable(replies, error, order[..i]) + CancelReplies(replies[order[i]], error)
  {
    assert order[..i + 1][..i] == order[..i];
  }

  function ClearedAll(s: Inner, error: ErrorId, order: seq<ChannelId>): (r: Inner) {
    s.(replies := map[], settled := s.settled + CancelTable(s.replies, error, order))
  }

  function DroppedPending(s: Inner, error: ErrorId, order: seq<ChannelId>): (r: Inner) {
    Inner([], [], [], [], map[], Some(error), s.channelsPoison,
          s.settled + DropFrames(s.retry, error) + DropFrames(s.publish, error) + DropFrames(s.frames, error)
          + DropFrames(s.lowPrio, error) + CancelTable(s.replies, error, order))
  }

  /** Index of the first reply that `finder` accepts. */
  function Find(rs: seq<ExpectedReply>, finder: ExpectedReply -> bool): (r: Option<nat>)
    ensures r.Some? ==> r.value < |rs| && finder(rs[r.value])
    ensures forall i :: 0 <= i < |rs| && (r.None? || i < r.value) ==> !finder(rs[i])
  {
    if rs == [] then None
    else if finder(rs[0]) then Some(0)
    else match Find(rs[1..], finder)
      case None => None
      case Some(i) => Some(i + 1)
  }

  datatype Found = Found(inner: Inner, reply: Option<ExpectedReply>)

  function FoundReply(s: Inner, ch: ChannelId, finder: ExpectedReply -> bool): (r: Found) {
    var rs := RepliesOn(s, ch);
    match Find(rs, finder)
    case None => Found(s, None)
    case Some(i) => Found(s.(replies := s.replies[ch := rs[..i] + rs[i + 1..]]), Some(rs[i]))
  }

  function TookReplies(s: Inner, ch: ChannelId): (r: Inner) {
    s.(replies := s.replies - {ch})
  }

  function ClearedReplies(s: Inner, ch: ChannelId, error: ErrorId): (r: Inner) {
    s.(replies := s.replies - {ch}, settled := s.settled + CancelReplies(RepliesOn(s, ch), error))
  }

  /** How many replies precede the first awaited channel.close-ok. */
  function BeforeCloseOk(rs: seq<ExpectedReply>): (k: nat)
    ensures k <= |rs|
    ensures forall i :: 0 <= i < k ==> !rs[i].reply.ChannelCloseOk?
    ensures k < |rs| ==> rs[k].reply.ChannelCloseOk?
  {
    if rs == [] || rs[0].reply.ChannelCloseOk? then 0 else 1 + BeforeCloseOk(rs[1..])
  }

  /** The replies up to the first awaited channel.close-ok are cancelled; that
      one is handed over. */
  function NextCloseOk(s: Inner, ch: ChannelId, error: ErrorId): (r: Found) {
    var rs := RepliesOn(s, ch);
    var k := BeforeCloseOk(rs);
    var log := s.settled + CancelReplies(rs[..k], error);
    if k < |rs| then Found(s.(replies := s.replies[ch := rs[k + 1..]], settled := log), Some(rs[k]))
    else Found(s.(replies := if ch in s.replies then s.replies[ch := []] else s.replies, settled := log), None)
  }

  /** `order` lists every channel of the table once, as draining the map does. */
  ghost predicate Enumerates<K(!new), V>(order: seq<K>, m: map<K, V>) {
    (forall k :: k in m <==> k in order) && Distinct(order)
  }

  class Frames {
    var publish: seq<FrameEntry>
    var retry: seq<FrameEntry>
    var frames: seq<FrameEntry>
    var lowPrio: seq<FrameEntry>
    var replies: map<ChannelId, seq<ExpectedReply>>
    var poison: Option<ErrorId>
    var channelsPoison: map<ChannelId, ErrorId>
    var settled: Log

    ghost function State(): (s: Inner)
      reads this
    {
      Inner(publish, retry, frames, lowPrio, replies, poison, channelsPoison, settled)
    }

    constructor ()
      ensures State() == Inner([], [], [], [], map[], None, map[], [])
    {
      publish, retry, frames, lowPrio := [], [], [], [];
      replies := map[];
      poison := None;
      channelsPoison := map[];
      settled := [];
    }

    method FindPoison(ch: ChannelId) returns (e: Option<ErrorId>)
      ensures e == CheckPoison(State(), ch)
    {
      if ch in channelsPoison {
        e := Some(channelsPoison[ch]);
      } else {
        e := poison;
      }
    }

    method Push(ch: ChannelId, frame: Frame, canceler: PromiseId,
                reply: Option<ExpectedReply>, resolver: Option<PromiseId>)
      modifies this
      ensures State() == Pushed(old(State()), ch, frame, canceler, reply, resolver)
    {
      var sending := FrameSending(Some(canceler), resolver);
      var error := FindPoison(ch);
      if error.Some? {
        if reply.Some? {
          settled := settled + CancelReply(reply.value, error.value);
        }
        settled := settled + Reject(sending, error.value);
        assert old(settled) + [] == old(settled);
        return;
      }
      frames := frames + [FrameEntry(frame, sending)];
      if reply.Some? {
        var waiting := if ch in replies then replies[ch] else [];
        replies := replies[ch := waiting + [reply.value]];
      }
    }

    method PushFrames(ch: ChannelId, batch: seq<Frame>, resolver: PromiseId)
      modifies this
      ensures State() == PushedFrames(old(State()), ch, batch, resolver)
    {
      var error := FindPoison(ch);
      if error.Some? {
        settled := settled + [Settlement(resolver, Err(error.value))];
        return;
      }
      if batch == [] {
        settled := settled + [Settlement(resolver, Ok)];
        return;
      }
      var initial := batch[..|batch| - 1];
      for i := 0 to |initial|
        invariant lowPrio == old(lowPrio) + Bare(initial[..i])
        invariant State() == old(State()).(lowPrio := lowPrio)
      {
        lowPrio := lowPrio + [FrameEntry(initial[i], FrameSending(None, None))];
        assert Bare(initial[..i + 1]) == Bare(initial[..i]) + [FrameEntry(initial[i], FrameSending(None, None))];
      }
      assert initial[..|initial|] == initial;
      lowPrio := lowPrio + [FrameEntry(batch[|batch| - 1], FrameSending(None, Some(resolver)))];
    }

    method Retry(e: FrameEntry)
      modifies this`retry
      ensures State() == Retried(old(State()), e)
    {
      retry := retry + [e];
    }

    method PopFrame(flow: bool) returns (e: Option<FrameEntry>)
      modifies this
      ensures Popped(State(), e) == Pop(old(State()), flow)
    {
      if retry != [] {
        e := Some(retry[0]);
        retry := retry[1..];
      } else if publish != [] {
        e := Some(publish[0]);
        publish := publish[1..];
      } else if frames != [] {
        e := Some(frames[0]);
        frames := frames[1..];
      } else if flow && lowPrio != [] {
        e := Some(lowPrio[0]);
        lowPrio := lowPrio[1..];
        if lowPrio != [] && lowPrio[0].frame.Header? {
          MoveContent();
        }
      } else {
        e := None;
      }
    }

    /** Move the content frames at the front of the low priority queue. */
    method MoveContent()
      requires publish == []
      modifies this`publish, this`lowPrio
      ensures publish == old(lowPrio)[..ContentPrefix(old(lowPrio))]
      ensures lowPrio == old(lowPrio)[ContentPrefix(old(lowPrio))..]
    {
      while lowPrio != []
        invariant |publish| <= |old(lowPrio)|
        invariant publish == old(lowPrio)[..|publish|] && lowPrio == old(lowPrio)[|publish|..]
        invariant ContentPrefix(old(lowPrio)) == |publish| + ContentPrefix(lowPrio)
        decreases |lowPrio|
      {
        var next := lowPrio[0];
        lowPrio := lowPrio[1..];
        if next.frame.IsContent() {
          publish := publish + [next];
        } else {
          lowPrio := [next] + lowPrio;
          break;
        }
      }
    }

    method HasPending() returns (r: bool)
      ensures r <==> exists e :: e in retry + publish + frames + lowPrio
    {
      r := !(retry == [] && publish == [] && frames == [] && lowPrio == []);
      if r {
        assert (retry + publish + frames + lowPrio)[0] in retry + publish + frames + lowPrio;
      }
    }

    /** Settle every frame of one queue; the consumers of its basic.cancels are
        to be deregistered. */
    method DropQueue(q: seq<FrameEntry>, error: ErrorId) returns (gone: seq<Gone>)
      modifies this`settled
      ensures settled == old(settled) + DropFrames(q, error)
      ensures gone == Cancels(q)
    {
      gone := [];
      for i := 0 to |q|
        invariant settled == old(settled) + DropFrames(q[..i], error)
        invariant gone == Cancels(q[..i])
      {
        if q[i].frame.BasicCancel? {
          gone := gone + [Gone(q[i].frame.channel, q[i].frame.consumer)];
          settled := settled + Resolve(q[i].sending);
        } else {
          settled := settled + Reject(q[i].sending, error);
        }
        assert q[..i + 1][..i] == q[..i];
        Assoc(old(settled), DropFrames(q[..i], error), DropFrame(q[i], error));
      }
      assert q[..|q|] == q;
    }

    method CancelAll(rs: seq<ExpectedReply>, error: ErrorId)
      modifies this`settled
      ensures settled == old(settled) + CancelReplies(rs, error)
    {
      for i := 0 to |rs|
        invariant settled == old(settled) + CancelReplies(rs[..i], error)
      {
        settled := settled + CancelReply(rs[i], error);
        assert rs[..i + 1][..i] == rs[..i];
        Assoc(old(settled), CancelReplies(rs[..i], error), CancelReply(rs[i], error));
      }
      assert rs[..|rs|] == rs;
    }

    /** Cancel the whole table, in the order `order` the map is drained in. */
    method ClearAllReplies(error: ErrorId, order: seq<ChannelId>)
      requires Enumerates(order, replies)
      modifies this`settled, this`replies
      ensures State() == ClearedAll(old(State()), error, order)
    {
      var table := replies;
      for i := 0 to |order|
        invariant settled == old(settled) + CancelTable(table, error, order[..i])
      {
        assert order[i] in order;
        CancelAll(table[order[i]], error);
        CancelTableNext(table, error, order, i);
        Assoc(old(settled), CancelTable(table, error, order[..i]), CancelReplies(table[order[i]], error));
      }
      assert order[..|order|] == order;
      replies := map[];
    }

    method DropAllQueues(error: ErrorId) returns (gone: seq<Gone>)
      modifies this`settled, this`retry, this`publish, this`frames, this`lowPrio
      ensures gone == Cancels(old(retry)) + Cancels(old(publish)) + Cancels(old(frames)) + Cancels(old(lowPrio))
      ensures retry == publish == frames == lowPrio == []
      ensures settled == old(settled) + DropFrames(old(retry), error) + DropFrames(old(publish), error)
                         + DropFrames(old(frames), error) + DropFrames(old(lowPrio), error)
    {
      var a := DropQueue(retry, error);
      var b := DropQueue(publish, error);
      var c := DropQueue(frames, error);
      var d := DropQueue(lowPrio, error);
      gone := a + b + c + d;
      retry, publish, frames, lowPrio := [], [], [], [];
    }

    method DropPending(error: ErrorId, order: seq<ChannelId>) returns (gone: seq<Gone>)
      requires Enumerates(order, replies)
      modifies this
      ensures State() == DroppedPending(old(State()), error, order)
      ensures gone == Cancels(old(retry)) + Cancels(old(publish)) + Cancels(old(frames)) + Cancels(old(lowPrio))
    {
      gone := DropAllQueues(error);
      ClearAllReplies(error, order);
      poison := Some(error);
    }

    method RetainOffChannel(q: seq<FrameEntry>, ch: ChannelId, error: ErrorId) returns (kept: seq<FrameEntry>)
      modifies this`settled
      ensures kept == OffChannel(q, ch)
      ensures settled == old(settled) + RejectOnChannel(q, ch, error)
    {
      kept := [];
      for i := 0 to |q|
        invariant kept == OffChannel(q[..i], ch)
        invariant settled == old(settled) + RejectOnChannel(q[..i], ch, error)
      {
        if q[i].frame.ChannelId() == ch {
          settled := settled + Reject(q[i].sending, error);
        } else {
          kept := kept + [q[i]];
        }
        assert q[..i + 1][..i] == q[..i];
      }
      assert q[..|q|] == q;
    }

    method DropFramesForChannel(ch: ChannelId, error: ErrorId)
      modifies this
      ensures State() == DroppedChannel(old(State()), ch, error)
    {
      retry := RetainOffChannel(retry, ch, error);
      publish := RetainOffChannel(publish, ch, error);
      frames := RetainOffChannel(frames, ch, error);
      lowPrio := RetainOffChannel(lowPrio, ch, error);
    }

    method FindExpectedReply(ch: ChannelId, finder: ExpectedReply -> bool) returns (r: Option<ExpectedReply>)
      modifies this`replies
      ensures Found(State(), r) == FoundReply(old(State()), ch, finder)
    {
      if ch !in replies {
        return None;
      }
      var rs := replies[ch];
      var i := Find(rs, finder);
      if i.None? {
        return None;
      }
      r := Some(rs[i.value]);
      replies := replies[ch := rs[..i.value] + rs[i.value + 1..]];
    }

    method TakeExpectedReplies(ch: ChannelId) returns (rs: seq<ExpectedReply>)
      modifies this`replies
      ensures State() == TookReplies(old(State()), ch)
      ensures rs == RepliesOn(old(State()), ch)
    {
      rs := if ch in replies then replies[ch] else [];
      replies := replies - {ch};
    }

    method ClearExpectedReplies(ch: ChannelId, error: ErrorId)
      modifies this`replies, this`settled
      ensures State() == ClearedReplies(old(State()), ch, error)
    {
      var rs := TakeExpectedReplies(ch);
      CancelAll(rs, error);
    }

    method NextExpectedCloseOk(ch: ChannelId, error: ErrorId) returns (r: Option<ExpectedReply>)
      modifies this`replies, this`settled
      ensures Found(State(), r) == NextCloseOk(old(State()), ch, error)
    {
      if ch !in replies {
        assert settled + [] == settled;
        return None;
      }
      var rs := replies[ch];
      ghost var k := BeforeCloseOk(rs);
      var i := 0;
      while i < |rs|
        invariant 0 <= i <= k
        invariant settled == old(settled) + CancelReplies(rs[..i], error)
        invariant replies == old(replies)
      {
        if rs[i].reply.ChannelCloseOk? {
          replies := replies[ch := rs[i + 1..]];
          return Some(rs[i]);
        }
        settled := settled + CancelReply(rs[i], error);
        assert rs[..i + 1][..i] == rs[..i];
        Assoc(old(settled), CancelReplies(rs[..i], error), CancelReply(rs[i], error));
        i := i + 1;
      }
      replies := replies[ch := []];
      return None;
    }

    method PoisonChannel(ch: ChannelId, error: ErrorId)
      modifies this`channelsPoison
      ensures channelsPoison == old(channelsPoison)[ch := error]
    {
      channelsPoison := channelsPoison[ch := error];
    }

    method DropPoison()
      modifies this`poison
      ensures poison == None
    {
      poison := None;
    }

    method DropChannelPoison(ch: ChannelId)
      modifies this`channelsPoison
      ensures channelsPoison == old(channelsPoison) - {ch}
    {
      channelsPoison := channelsPoison - {ch};
    }
  }
}
