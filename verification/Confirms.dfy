/** Publisher confirms and returned messages (src/acknowledgement.rs,
    src/returned_messages.rs, src/publisher_confirm.rs), channel errors
    and resets included.

    Publishes are numbered 1, 2, 3, ... and named by their number, as are their
    confirmation promises.  The broker's tags count from the last reset.
 */
module Confirms {
  import opened Bytes

  type Tag = nat
  type Message = nat

  datatype Confirmation = Confirmation(success: bool, message: Option<Message>) | Rejected

  /** The promise of a publish: not settled, settled and unread, or read. */
  datatype Slot = Unset | Ready(confirmation: Confirmation) | Gone

  datatype State = State(
    issued: nat,                  // the number of the last publish
    base: nat,                    // that of the last one before the tags restarted
    pending: set<Tag>,            // tags the broker has not settled
    slots: map<Tag, Slot>,        // the promises, by tag
    handles: set<Tag>,            // publisher confirms the user still holds
    dropped: seq<Tag>,            // confirms dropped before they were settled
    waiting: seq<Message>,        // returned, not yet attached to a confirm
    nonConfirm: seq<Message>,     // returned while confirms were off
    stored: seq<Message>,         // taken from dropped confirms
    user: seq<Message>)           // handed to the user

  const START := State(0, 0, {}, map[], {}, [], [], [], [], [])

  function Carried(slot: Slot): (ms: seq<Message>) {
    if slot.Ready? && slot.confirmation.Confirmation? && slot.confirmation.message.Some? then [slot.confirmation.message.value] else []
  }

  predicate Says(slot: Slot, success: bool) {
    slot.Ready? && slot.confirmation.Confirmation? && slot.confirmation.success == success
  }

  // ---- operations ----

  function Registered(s: State): (r: State) {
    var t := s.issued + 1;
    State(t, s.base, s.pending + {t}, s.slots[t := Unset], s.handles + {t}, s.dropped, s.waiting, s.nonConfirm, s.stored, s.user)
  }

  /** Settle one pending tag with the oldest waiting message, if any. */
  function Settled(s: State, tag: Tag, success: bool): (r: State) {
    var m := if s.waiting == [] then None else Some(s.waiting[0]);
    State(s.issued, s.base, s.pending - {tag}, s.slots[tag := Ready(Confirmation(success, m))], s.handles, s.dropped,
          if s.waiting == [] then [] else s.waiting[1..], s.nonConfirm, s.stored, s.user)
  }

  datatype Answer = Answer(state: State, ok: bool)

  /** A single ack or nack. */
  function SettledOne(s: State, tag: Tag, success: bool): (r: Answer) {
    if tag in s.pending then Answer(Settled(s, tag, success), true) else Answer(s, false)
  }

  /** Several, one after the other; the first failure, if any, is reported. */
  function SettledAll(s: State, tags: seq<Tag>, success: bool): (r: Answer)
    decreases |tags|
  {
    if tags == [] then Answer(s, true)
    else
      var a := SettledAll(s, tags[..|tags| - 1], success);
      var b := SettledOne(a.state, tags[|tags| - 1], success);
      Answer(b.state, a.ok && b.ok)
  }

  /** `tags` lists the pending tags up to `n`, all of them when `n` is 0, in the
      hash map's order. */
  ghost predicate Lists(tags: seq<Tag>, pending: set<Tag>, n: Tag) {
    && (forall t :: t in tags <==> t in pending && (n == 0 || t <= n))
    && Distinct(tags)
  }

  function Returned(s: State, m: Message, confirmMode: bool): (r: State) {
    if confirmMode
    then State(s.issued, s.base, s.pending, s.slots, s.handles, s.dropped, s.waiting + [m], s.nonConfirm, s.stored, s.user)
    else State(s.issued, s.base, s.pending, s.slots, s.handles, s.dropped, s.waiting, s.nonConfirm + [m], s.stored, s.user)
  }

  /** The user polls a confirm: ready means the message, if any, is theirs. */
  function Awaited(s: State, tag: Tag): (r: State)
    requires tag in s.handles && tag in s.slots
  {
    if s.slots[tag].Ready? then
      State(s.issued, s.base, s.pending, s.slots[tag := Gone], s.handles - {tag}, s.dropped, s.waiting, s.nonConfirm, s.stored,
            s.user + Carried(s.slots[tag]))
    else s
  }

  /** The user drops a confirm: a settled one gives up its message at once, an
      unsettled one is kept for later. */
  function Dropped(s: State, tag: Tag): (r: State)
    requires tag in s.handles && tag in s.slots
  {
    if s.slots[tag].Ready? then
      State(s.issued, s.base, s.pending, s.slots[tag := Gone], s.handles - {tag}, s.dropped, s.waiting, s.nonConfirm,
            s.stored + Carried(s.slots[tag]), s.user)
    else
      State(s.issued, s.base, s.pending, s.slots, s.handles - {tag}, s.dropped + [tag], s.waiting, s.nonConfirm, s.stored, s.user)
  }

  datatype Sweep = Sweep(slots: map<Tag, Slot>, kept: seq<Tag>, found: seq<Message>)

  /** Go through dropped confirms: settled ones give up their message, the rest
      are kept. */
  function Swept(slots: map<Tag, Slot>, tags: seq<Tag>): (r: Sweep)
    decreases |tags|
  {
    if tags == [] then Sweep(slots, [], [])
    else
      var t := tags[|tags| - 1];
      var r := Swept(slots, tags[..|tags| - 1]);
      if t in r.slots && r.slots[t].Ready?
      then Sweep(r.slots[t := Gone], r.kept, r.found + Carried(r.slots[t]))
      else Sweep(r.slots, r.kept + [t], r.found)
  }

  /** Everything there is for the user: returned without confirms, then from
      confirms dropped earlier, then from those settled since. */
  function Drained(s: State): (r: State) {
    var w := Swept(s.slots, s.dropped);
    State(s.issued, s.base, s.pending, w.slots, s.handles, w.kept, s.waiting, [], [], s.user + s.nonConfirm + s.stored + w.found)
  }

  /** The channel fails: pending promises are rejected, and the confirms dropped
      earlier are forgotten, settled or not. */
  function Errored(s: State): (r: State) {
    State(s.issued, s.base, {},
          map t | t in s.slots :: if t in s.dropped then Gone else if t in s.pending then Ready(Rejected) else s.slots[t],
          s.handles, [], s.waiting, s.nonConfirm, s.stored, s.user)
  }

  /** The channel is recovered: its tags start over. */
  function Restarted(s: State): (r: State) {
    var e := Errored(s);
    State(e.issued, e.issued, e.pending, e.slots, e.handles, e.dropped, e.waiting, e.nonConfirm, e.stored, e.user)
  }

  /** The publishes the broker's tag `n` reaches up to; 0 for all. */
  function UpTo(s: State, n: Tag): (m: Tag) {
    if n == 0 then 0 else s.base + n
  }

  // ---- runs ----

  datatype Op =
    | DoPublish
    | DoSettle(tag: Tag, success: bool)
    | DoSettleUpTo(n: Tag, success: bool, order: seq<Tag>)
    | DoReturn(message: Message, confirmMode: bool)
    | DoAwait(tag: Tag)
    | DoDrop(tag: Tag)
    | DoDrain
    | DoError
    | DoReset

  ghost predicate Enabled(s: State, op: Op) {
    match op
    case DoSettleUpTo(n, _, order) => Lists(order, s.pending, UpTo(s, n))
    case DoAwait(tag) => tag in s.handles && tag in s.slots
    case DoDrop(tag) => tag in s.handles && tag in s.slots
    case _ => true
  }

  ghost function Step(s: State, op: Op): (r: State)
    requires Enabled(s, op)
  {
    match op
    case DoPublish => Registered(s)
    case DoSettle(tag, success) => SettledOne(s, s.base + tag, success).state
    case DoSettleUpTo(_, success, order) => SettledAll(s, order, success).state
    case DoReturn(m, confirmMode) => Returned(s, m, confirmMode)
    case DoAwait(tag) => Awaited(s, tag)
    case DoDrop(tag) => Dropped(s, tag)
    case DoDrain => Drained(s)
    case DoError => Errored(s)
    case DoReset => Restarted(s)
  }

  ghost predicate Legal(s: State, ops: seq<Op>)
    decreases |ops|
  {
    ops == [] || (Enabled(s, ops[0]) && Legal(Step(s, ops[0]), ops[1..]))
  }

  ghost function Exec(s: State, ops: seq<Op>): (r: State)
    requires Legal(s, ops)
    decreases |ops|
  {
    if ops == [] then s else Exec(Step(s, ops[0]), ops[1..])
  }

  // ---- confirm bookkeeping ----

  /** Pending tags are those issued and not settled; a promise that has not been
      read is with the user or among the dropped ones, and never both. */
  ghost predicate Inv(s: State) {
    && s.base <= s.issued && (forall t :: t in s.slots <==> 1 <= t <= s.issued)
    && (forall t :: t in s.pending ==> s.base < t)
    && (forall t :: t in s.pending <==> t in s.slots && s.slots[t].Unset?)
    && (forall t :: t in s.handles ==> t in s.slots && !s.slots[t].Gone?)
    && (forall t :: t in s.dropped ==> t in s.slots && !s.slots[t].Gone? && t !in s.handles)
    && Distinct(s.dropped)
    && (forall t :: t in s.slots && !s.slots[t].Gone? ==> t in s.handles || t in s.dropped)
  }

  lemma InvSettled(s: State, tag: Tag, success: bool)
    requires Inv(s) && tag in s.pending
    ensures Inv(Settled(s, tag, success))
  {
  }

  ghost predicate AllPending(tags: seq<Tag>, pending: set<Tag>) {
    Distinct(tags) && forall t :: t in tags ==> t in pending
  }

  lemma InitPending(tags: seq<Tag>, pending: set<Tag>)
    requires tags != [] && AllPending(tags, pending)
    ensures
      var init, t := tags[..|tags| - 1], tags[|tags| - 1];
      AllPending(init, pending) && t !in init && t in pending && tags == init + [t]
  {
    assert tags[|tags| - 1] in tags;
  }

  /** Settling a list of pending tags settles exactly those, without error. */
  lemma {:induction false} SettledAllPending(s: State, tags: seq<Tag>, success: bool)
    requires Inv(s) && AllPending(tags, s.pending)
    ensures
      var r := SettledAll(s, tags, success);
      r.ok && Inv(r.state) && forall t :: t in r.state.pending <==> t in s.pending && t !in tags
    decreases |tags|
  {
    if tags != [] {
      InitPending(tags, s.pending);
      SettledAllPending(s, tags[..|tags| - 1], success);
      InvSettled(SettledAll(s, tags[..|tags| - 1], success).state, tags[|tags| - 1], success);
    }
  }

  /** Each gets the answer given, and no other promise changes. */
  lemma {:induction false} SettledAllSlots(s: State, tags: seq<Tag>, success: bool)
    requires Inv(s) && AllPending(tags, s.pending)
    ensures
      var r := SettledAll(s, tags, success).state;
      && r.slots.Keys == s.slots.Keys
      && (forall t :: t in tags ==> t in r.slots && r.slots[t].Ready? && Says(r.slots[t], success))
      && (forall t :: t in s.slots && t !in tags ==> r.slots[t] == s.slots[t])
    decreases |tags|
  {
    if tags != [] {
      InitPending(tags, s.pending);
      SettledAllPending(s, tags[..|tags| - 1], success);
      SettledAllSlots(s, tags[..|tags| - 1], success);
    }
  }

  /** They take the oldest waiting messages between them, whatever the order. */
  lemma {:induction false} SettledAllWaiting(s: State, tags: seq<Tag>, success: bool)
    requires Inv(s) && AllPending(tags, s.pending)
    ensures SettledAll(s, tags, success).state.waiting == s.waiting[Min(|tags|, |s.waiting|)..]
    decreases |tags|
  {
    if tags != [] {
      InitPending(tags, s.pending);
      SettledAllPending(s, tags[..|tags| - 1], success);
      SettledAllWaiting(s, tags[..|tags| - 1], success);
    }
  }

  /** A multiple ack or nack up to `n` never fails, settles exactly the pending
      tags up to `n` (all of them for 0) and leaves the other promises alone;
      any two orders agree on what is settled and on what still waits. */
  lemma SettleUpTo(s: State, n: Tag, success: bool, order: seq<Tag>, order': seq<Tag>)
    requires Inv(s) && Lists(order, s.pending, UpTo(s, n)) && Lists(order', s.pending, UpTo(s, n))
    ensures
      var r, r' := SettledAll(s, order, success), SettledAll(s, order', success);
      && r.ok
      && (forall t :: t in r.state.pending <==> t in s.pending && n != 0 && t > s.base + n)
      && r.state.slots.Keys == s.slots.Keys
      && (forall t :: t in s.slots ==>
            if t in s.pending && (n == 0 || t <= s.base + n)
            then r.state.slots[t].Ready? && Says(r.state.slots[t], success)
            else r.state.slots[t] == s.slots[t])
      && r'.state.pending == r.state.pending && r'.state.waiting == r.state.waiting
  {
    SettledAllPending(s, order, success);
    SettledAllSlots(s, order, success);
    SettledAllPending(s, order', success);
    SettledAllWaiting(s, order, success);
    SettledAllWaiting(s, order', success);
    SameLength(order, order');
  }

  function Elements(q: seq<Tag>): (r: set<Tag>) {
    set t | t in q
  }

  lemma {:induction false} DistinctSize(q: seq<Tag>)
    requires Distinct(q)
    ensures |Elements(q)| == |q|
    decreases |q|
  {
    if q != [] {
      var init, t := q[..|q| - 1], q[|q| - 1];
      DistinctSize(init);
      assert q == init + [t];
      assert Elements(q) == Elements(init) + {t} && t !in Elements(init);
    }
  }

  lemma SameLength(a: seq<Tag>, b: seq<Tag>)
    requires Distinct(a) && Distinct(b) && forall t :: t in a <==> t in b
    ensures |a| == |b|
  {
    DistinctSize(a);
    DistinctSize(b);
    assert Elements(a) == Elements(b);
  }

  lemma {:induction false} SweptSlots(slots: map<Tag, Slot>, tags: seq<Tag>)
    requires Distinct(tags) && forall t :: t in tags ==> t in slots
    ensures
      var w := Swept(slots, tags);
      && w.slots.Keys == slots.Keys
      && (forall t :: t in slots ==> w.slots[t] == if t in tags && slots[t].Ready? then Gone else slots[t])
      && (forall t :: t in w.kept <==> t in tags && !slots[t].Ready?)
      && Distinct(w.kept)
    decreases |tags|
  {
    if tags != [] {
      var init, t := tags[..|tags| - 1], tags[|tags| - 1];
      assert tags == init + [t];
      SweptSlots(slots, init);
    }
  }

  lemma InvStep(s: State, op: Op)
    requires Inv(s) && Enabled(s, op)
    ensures Inv(Step(s, op))
  {
    match op
    case DoPublish => InvPublish(s);
    case DoSettle(tag, success) => InvSettle(s, s.base + tag, success);
    case DoSettleUpTo(n, success, order) => SettledAllPending(s, order, success);
    case DoReturn(m, confirmMode) => InvReturn(s, m, confirmMode);
    case DoDrain => InvDrain(s);
    case DoAwait(tag) => InvRead(s, tag);
    case DoDrop(tag) => InvRead(s, tag);
    case DoError => InvError(s);
    case DoReset => InvError(s);
  }

  lemma InvPublish(s: State)
    requires Inv(s)
    ensures Inv(Registered(s))
  {
  }

  lemma InvSettle(s: State, tag: Tag, success: bool)
    requires Inv(s)
    ensures Inv(SettledOne(s, tag, success).state)
  {
    if tag in s.pending {
      InvSettled(s, tag, success);
    }
  }

  lemma InvReturn(s: State, m: Message, confirmMode: bool)
    requires Inv(s)
    ensures Inv(Returned(s, m, confirmMode))
  {
  }

  lemma InvDrain(s: State)
    requires Inv(s)
    ensures Inv(Drained(s))
  {
    SweptSlots(s.slots, s.dropped);
  }

  lemma InvError(s: State)
    requires Inv(s)
    ensures Inv(Errored(s)) && Inv(Restarted(s))
  {
  }

  lemma InvRead(s: State, tag: Tag)
    requires Inv(s) && tag in s.handles && tag in s.slots
    ensures Inv(Awaited(s, tag)) && Inv(Dropped(s, tag))
  {
  }

  lemma {:induction false} InvExec(s: State, ops: seq<Op>)
    requires Inv(s) && Legal(s, ops)
    ensures Inv(Exec(s, ops))
    decreases |ops|
  {
    if ops != [] {
      InvStep(s, ops[0]);
      InvExec(Step(s, ops[0]), ops[1..]);
    }
  }

  /** A promise once settled never changes its answer; it can only be read. */
  predicate Later(a: Slot, b: Slot) {
    match a
    case Unset => true
    case Ready(_) => b == a || b == Gone
    case Gone => b == Gone
  }

  lemma SlotsStep(s: State, op: Op)
    requires Inv(s) && Enabled(s, op)
    ensures
      var r := Step(s, op);
      s.issued <= r.issued && forall t :: t in s.slots ==> t in r.slots && Later(s.slots[t], r.slots[t])
  {
    match op
    case DoSettleUpTo(n, success, order) =>
      SettledAllSlots(s, order, success);
      SettledAllIssued(s, order, success);
    case DoDrain => SweptSlots(s.slots, s.dropped);
    case _ =>
  }

  lemma {:induction false} SettledAllIssued(s: State, tags: seq<Tag>, success: bool)
    ensures
      var r := SettledAll(s, tags, success).state;
      && r.issued == s.issued && r.base == s.base && r.nonConfirm == s.nonConfirm && r.stored == s.stored && r.user == s.user
    decreases |tags|
  {
    if tags != [] {
      SettledAllIssued(s, tags[..|tags| - 1], success);
    }
  }

  /** Each tag is settled at most once, over every run: pending tags are among
      those issued, and a settled one is never pending again nor its answer
      changed. */
  lemma {:induction false} SettledOnce(s: State, ops: seq<Op>, t: Tag)
    requires Inv(s) && Legal(s, ops) && t in s.slots
    ensures
      var r := Exec(s, ops);
      && t in r.slots && Later(s.slots[t], r.slots[t])
      && (t !in s.pending ==> t !in r.pending)
      && (forall u :: u in r.pending ==> 1 <= u <= r.issued)
    decreases |ops|
  {
    if ops != [] {
      SlotsStep(s, ops[0]);
      InvStep(s, ops[0]);
      SettledOnce(Step(s, ops[0]), ops[1..], t);
    }
    InvExec(s, ops);
  }

  // ---- what each promise is settled with ----

  /** A channel error or a reset rejects the pending promises that were not
      dropped, keeps the answers given, and takes no confirm from the user. */
  lemma ErrorRejects(s: State, op: Op)
    requires Inv(s) && (op.DoError? || op.DoReset?)
    ensures
      var r := Step(s, op);
      && r.pending == {} && r.dropped == [] && r.handles == s.handles && r.slots.Keys == s.slots.Keys
      && (forall t :: t in s.pending && t !in s.dropped ==> r.slots[t] == Ready(Rejected))
      && (forall t :: t in s.slots && t !in s.pending && t !in s.dropped ==> r.slots[t] == s.slots[t])
      && (forall t :: t in s.dropped ==> r.slots[t] == Gone)
  {
  }

  /** What can decide a promise: an ack or a nack, or a channel error. */
  datatype Decision = Answered(success: bool) | Failed

  /** What the step says about publish `t`: an ack or nack whose tag, counted from
      the last reset, is or reaches that of `t`, or a channel error. */
  function Decides(s: State, op: Op, t: Tag): (d: Option<Decision>) {
    match op
    case DoSettle(tag, success) => if s.base + tag == t then Some(Answered(success)) else None
    case DoSettleUpTo(n, success, _) => if n == 0 || t <= s.base + n then Some(Answered(success)) else None
    case DoError => Some(Failed)
    case DoReset => Some(Failed)
    case _ => None
  }

  /** The first thing the run says about `t` once it is published. */
  ghost function FirstDecision(s: State, ops: seq<Op>, t: Tag): (d: Option<Decision>)
    requires Legal(s, ops)
    decreases |ops|
  {
    if ops == [] then None
    else if t <= s.issued && Decides(s, ops[0], t).Some? then Decides(s, ops[0], t)
    else FirstDecision(Step(s, ops[0]), ops[1..], t)
  }

  predicate Matches(c: Confirmation, d: Decision) {
    match d
    case Answered(success) => c.Confirmation? && c.success == success
    case Failed => c == Rejected
  }

  /** The promise says what was decided, unless it was read or given up. */
  predicate Tells(slot: Slot, d: Option<Decision>) {
    match d
    case None => slot == Unset
    case Some(v) => slot == Gone || (slot.Ready? && Matches(slot.confirmation, v))
  }

  lemma TellsStep(s: State, op: Op, t: Tag)
    requires Inv(s) && Enabled(s, op) && t in s.pending
    ensures t in Step(s, op).slots && Tells(Step(s, op).slots[t], Decides(s, op, t))
    ensures Decides(s, op, t).None? ==> t in Step(s, op).pending
  {
    InvStep(s, op);
    match op
    case DoSettleUpTo(n, success, order) => SettledAllSlots(s, order, success);
    case DoDrain => SweptSlots(s.slots, s.dropped);
    case _ =>
  }

  /** A promise not yet published at `s` is pending right after its publish. */
  lemma NewStep(s: State, op: Op, t: Tag)
    requires Inv(s) && Enabled(s, op) && t !in s.slots
    ensures t in Step(s, op).slots ==> op.DoPublish? && t == s.issued + 1 && t in Step(s, op).pending
  {
    InvStep(s, op);
    match op
    case DoSettleUpTo(n, success, order) => SettledAllIssued(s, order, success);
    case _ =>
  }

  /** Over every run, a promise holds what the run first said about it: an ack or
      a nack only if one with that outcome reached its tag since the last reset,
      and a rejection only if it was pending when the channel failed or was reset;
      and as long as the user or the list of dropped ones has it, it holds just
      that. */
  lemma {:induction false} AnswersExact(s: State, ops: seq<Op>, t: Tag)
    requires Inv(s) && Legal(s, ops) && (t in s.slots ==> t in s.pending)
    ensures
      var r := Exec(s, ops);
      t in r.slots ==>
        && Tells(r.slots[t], FirstDecision(s, ops, t))
        && (t in r.handles || t in r.dropped ==> r.slots[t] != Gone)
    decreases |ops|
  {
    InvExec(s, ops);
    if ops == [] {
      return;
    }
    var op := ops[0];
    var s' := Step(s, op);
    InvStep(s, op);
    if t in s.slots {
      TellsStep(s, op, t);
      if Decides(s, op, t).Some? {
        SettledOnce(s', ops[1..], t);
        return;
      }
    } else if t > 0 {
      NewStep(s, op, t);
    }
    AnswersExact(s', ops[1..], t);
  }

  predicate Reads(op: Op, t: Tag) {
    (op.DoAwait? || op.DoDrop?) && op.tag == t
  }

  lemma HandleStep(s: State, op: Op, t: Tag)
    requires Inv(s) && Enabled(s, op) && t in s.handles && !Reads(op, t)
    ensures t in Step(s, op).handles
  {
    match op
    case DoSettleUpTo(n, success, order) => SettledAllHandles(s, order, success);
    case _ =>
  }

  lemma {:induction false} SettledAllHandles(s: State, tags: seq<Tag>, success: bool)
    ensures
      var r := SettledAll(s, tags, success).state;
      r.handles == s.handles && r.dropped == s.dropped
    decreases |tags|
  {
    if tags != [] {
      SettledAllHandles(s, tags[..|tags| - 1], success);
    }
  }

  /** A confirm the user neither awaits nor drops stays theirs. */
  lemma {:induction false} HandleKept(s: State, ops: seq<Op>, t: Tag)
    requires Inv(s) && Legal(s, ops) && t in s.handles && (forall op :: op in ops ==> !Reads(op, t))
    ensures t in Exec(s, ops).handles
    decreases |ops|
  {
    if ops != [] {
      assert ops[0] in ops;
      HandleStep(s, ops[0], t);
      InvStep(s, ops[0]);
      HandleKept(Step(s, ops[0]), ops[1..], t);
    }
  }

  /** So whoever publishes and then awaits, after whatever happens in between,
      reads what the broker first said of that publish, or the channel's error
      if that came first, or is told to wait if there was neither. */
  lemma PublishThenAwait(s: State, ops: seq<Op>)
    requires Inv(s) && Legal(Registered(s), ops) && (forall op :: op in ops ==> !Reads(op, s.issued + 1))
    ensures
      var t := s.issued + 1;
      var r := Exec(Registered(s), ops);
      && Enabled(r, DoAwait(t))
      && match FirstDecision(Registered(s), ops, t)
         case None => r.slots[t] == Unset && Step(r, DoAwait(t)) == r
         case Some(d) => r.slots[t].Ready? && Matches(r.slots[t].confirmation, d)
  {
    var t, s' := s.issued + 1, Registered(s);
    InvPublish(s);
    AnswersExact(s', ops, t);
    HandleKept(s', ops, t);
    InvExec(s', ops);
  }

  // ---- returned messages are conserved ----

  /** How often `x` occurs in `q`. */
  function Occ(q: seq<Message>, x: Message): (n: nat) {
    if q == [] then 0 else Occ(q[..|q| - 1], x) + if q[|q| - 1] == x then 1 else 0
  }

  lemma {:induction false} OccConcat(a: seq<Message>, b: seq<Message>, x: Message)
    ensures Occ(a + b, x) == Occ(a, x) + Occ(b, x)
    decreases |b|
  {
    if b == [] {
      assert a + b == a;
    } else {
      OccConcat(a, b[..|b| - 1], x);
      assert (a + b)[..|a + b| - 1] == a + b[..|b| - 1];
    }
  }

  /** How many of the promises of tags 1..n carry `x`. */
  function SlotOcc(slots: map<Tag, Slot>, n: nat, x: Message): (r: nat) {
    if n == 0 then 0
    else SlotOcc(slots, n - 1, x) + if n in slots then Occ(Carried(slots[n]), x) else 0
  }

  /** How many copies of `x` there are, wherever returned messages can be. */
  function Copies(s: State, x: Message): (n: nat) {
    Occ(s.waiting, x) + Occ(s.nonConfirm, x) + Occ(s.stored, x) + Occ(s.user, x) + SlotOcc(s.slots, s.issued, x)
  }

  lemma {:induction false} SlotOccSame(a: map<Tag, Slot>, b: map<Tag, Slot>, n: nat, x: Message)
    requires forall t :: 1 <= t <= n ==> (t in a <==> t in b) && (t in a ==> a[t] == b[t])
    ensures SlotOcc(a, n, x) == SlotOcc(b, n, x)
    decreases n
  {
    if n > 0 {
      SlotOccSame(a, b, n - 1, x);
    }
  }

  lemma {:induction false} SlotOccUpdate(slots: map<Tag, Slot>, n: nat, t: Tag, slot: Slot, x: Message)
    requires 1 <= t <= n && t in slots
    ensures SlotOcc(slots[t := slot], n, x) == SlotOcc(slots, n, x) - Occ(Carried(slots[t]), x) + Occ(Carried(slot), x)
    decreases n
  {
    if t == n {
      SlotOccSame(slots[t := slot], slots, n - 1, x);
    } else {
      SlotOccUpdate(slots, n - 1, t, slot, x);
    }
  }

  lemma SettledConserves(s: State, tag: Tag, success: bool, x: Message)
    requires Inv(s) && tag in s.pending
    ensures Copies(Settled(s, tag, success), x) == Copies(s, x)
  {
    var m := if s.waiting == [] then None else Some(s.waiting[0]);
    SlotOccUpdate(s.slots, s.issued, tag, Ready(Confirmation(success, m)), x);
    if s.waiting != [] {
      assert s.waiting == [s.waiting[0]] + s.waiting[1..];
      OccConcat([s.waiting[0]], s.waiting[1..], x);
    }
  }

  lemma {:induction false} SettledAllConserves(s: State, tags: seq<Tag>, success: bool, x: Message)
    requires Inv(s) && AllPending(tags, s.pending)
    ensures Copies(SettledAll(s, tags, success).state, x) == Copies(s, x)
    decreases |tags|
  {
    if tags != [] {
      InitPending(tags, s.pending);
      var init := tags[..|tags| - 1];
      SettledAllPending(s, init, success);
      SettledAllConserves(s, init, success, x);
      SettledConserves(SettledAll(s, init, success).state, tags[|tags| - 1], success, x);
    }
  }

  lemma {:induction false} SweptConserves(slots: map<Tag, Slot>, tags: seq<Tag>, n: nat, x: Message)
    requires forall t :: t in tags ==> t in slots && 1 <= t <= n
    ensures Swept(slots, tags).slots.Keys == slots.Keys
    ensures SlotOcc(Swept(slots, tags).slots, n, x) + Occ(Swept(slots, tags).found, x) == SlotOcc(slots, n, x)
    decreases |tags|
  {
    if tags != [] {
      var init, t := tags[..|tags| - 1], tags[|tags| - 1];
      assert t in tags && forall u :: u in init ==> u in tags;
      SweptConserves(slots, init, n, x);
      var r := Swept(slots, init);
      if r.slots[t].Ready? {
        SlotOccUpdate(r.slots, n, t, Gone, x);
        OccConcat(r.found, Carried(r.slots[t]), x);
      }
    }
  }

  function Arrives(op: Op, x: Message): (n: nat) {
    if op.DoReturn? && op.message == x then 1 else 0
  }

  lemma ConserveRead(s: State, tag: Tag, x: Message)
    requires Inv(s) && tag in s.handles && tag in s.slots
    ensures Copies(Awaited(s, tag), x) == Copies(s, x) == Copies(Dropped(s, tag), x)
  {
    if s.slots[tag].Ready? {
      SlotOccUpdate(s.slots, s.issued, tag, Gone, x);
      OccConcat(s.user, Carried(s.slots[tag]), x);
      OccConcat(s.stored, Carried(s.slots[tag]), x);
    }
  }

  lemma ConserveDrain(s: State, x: Message)
    requires Inv(s)
    ensures Copies(Drained(s), x) == Copies(s, x)
  {
    SweptConserves(s.slots, s.dropped, s.issued, x);
    OccConcat(s.user, s.nonConfirm, x);
    OccConcat(s.user + s.nonConfirm, s.stored, x);
    OccConcat(s.user + s.nonConfirm + s.stored, Swept(s.slots, s.dropped).found, x);
  }

  lemma {:induction false} SlotOccCarried(a: map<Tag, Slot>, b: map<Tag, Slot>, n: nat, x: Message)
    requires a.Keys == b.Keys && forall t :: t in a ==> Carried(a[t]) == Carried(b[t])
    ensures SlotOcc(a, n, x) == SlotOcc(b, n, x)
    decreases n
  {
    if n > 0 {
      SlotOccCarried(a, b, n - 1, x);
    }
  }

  /** What a channel error loses of `x`: what the next drain would have found in
      the dropped confirms. */
  function Loses(s: State, op: Op, x: Message): (n: nat) {
    if op.DoError? || op.DoReset? then Occ(Swept(s.slots, s.dropped).found, x) else 0
  }

  lemma ConserveError(s: State, x: Message)
    requires Inv(s)
    ensures Copies(Errored(s), x) + Loses(s, DoError, x) == Copies(s, x)
  {
    SweptConserves(s.slots, s.dropped, s.issued, x);
    SweptSlots(s.slots, s.dropped);
    SlotOccCarried(Errored(s).slots, Swept(s.slots, s.dropped).slots, s.issued, x);
  }

  lemma ConserveReset(s: State, x: Message)
    requires Inv(s)
    ensures Copies(Restarted(s), x) + Loses(s, DoReset, x) == Copies(s, x)
  {
    ConserveError(s, x);
  }

  /** A channel error or a reset loses `x` exactly when a confirm dropped before
      it was settled carries it. */
  lemma LosesIff(s: State, op: Op, x: Message)
    requires Inv(s) && (op.DoError? || op.DoReset?)
    ensures Loses(s, op, x) == 0 <==> forall t :: t in s.dropped ==> Carried(s.slots[t]) != [x]
  {
    FoundIff(s.slots, s.dropped, x);
  }

  lemma {:induction false} FoundIff(slots: map<Tag, Slot>, tags: seq<Tag>, x: Message)
    requires Distinct(tags) && forall t :: t in tags ==> t in slots
    ensures Occ(Swept(slots, tags).found, x) == 0 <==> forall t :: t in tags ==> Carried(slots[t]) != [x]
    decreases |tags|
  {
    if tags != [] {
      var init, t := tags[..|tags| - 1], tags[|tags| - 1];
      assert tags == init + [t];
      FoundIff(slots, init, x);
      SweptSlots(slots, init);
      OccConcat(Swept(slots, init).found, Carried(slots[t]), x);
    }
  }

  lemma ConservePublish(s: State, x: Message)
    requires Inv(s)
    ensures Copies(Registered(s), x) == Copies(s, x)
  {
    SlotOccSame(s.slots, Registered(s).slots, s.issued, x);
  }

  lemma ConserveSettle(s: State, tag: Tag, success: bool, x: Message)
    requires Inv(s)
    ensures Copies(SettledOne(s, tag, success).state, x) == Copies(s, x)
  {
    if tag in s.pending {
      SettledConserves(s, tag, success, x);
    }
  }

  lemma ConserveReturn(s: State, m: Message, confirmMode: bool, x: Message)
    ensures Copies(Returned(s, m, confirmMode), x) == Copies(s, x) + if m == x then 1 else 0
  {
    OccConcat(s.waiting, [m], x);
    OccConcat(s.nonConfirm, [m], x);
  }

  lemma ConserveBroker(s: State, op: Op, x: Message)
    requires Inv(s) && Enabled(s, op) && (op.DoPublish? || op.DoSettle? || op.DoSettleUpTo? || op.DoReturn?)
    ensures Copies(Step(s, op), x) == Copies(s, x) + Arrives(op, x)
  {
    if op.DoPublish? {
      ConservePublish(s, x);
    } else if op.DoSettle? {
      ConserveSettle(s, s.base + op.tag, op.success, x);
    } else if op.DoSettleUpTo? {
      SettledAllConserves(s, op.order, op.success, x);
    } else {
      ConserveReturn(s, op.message, op.confirmMode, x);
    }
  }

  lemma ConserveUser(s: State, op: Op, x: Message)
    requires Inv(s) && Enabled(s, op) && (op.DoAwait? || op.DoDrop? || op.DoDrain?)
    ensures Copies(Step(s, op), x) == Copies(s, x)
  {
    if op.DoDrain? {
      ConserveDrain(s, x);
    } else {
      ConserveRead(s, op.tag, x);
    }
  }

  lemma ConserveStep(s: State, op: Op, x: Message)
    requires Inv(s) && Enabled(s, op)
    ensures Copies(Step(s, op), x) + Loses(s, op, x) == Copies(s, x) + Arrives(op, x)
  {
    if op.DoError? {
      ConserveError(s, x);
    } else if op.DoReset? {
      ConserveReset(s, x);
    } else if op.DoAwait? || op.DoDrop? || op.DoDrain? {
      ConserveUser(s, op, x);
    } else {
      ConserveBroker(s, op, x);
    }
  }

  function AllArrivals(ops: seq<Op>, x: Message): (n: nat) {
    if ops == [] then 0 else Arrives(ops[0], x) + AllArrivals(ops[1..], x)
  }

  ghost function AllLost(s: State, ops: seq<Op>, x: Message): (n: nat)
    requires Legal(s, ops)
    decreases |ops|
  {
    if ops == [] then 0 else Loses(s, ops[0], x) + AllLost(Step(s, ops[0]), ops[1..], x)
  }

  /** Over every run, a returned message is neither copied nor lost except by a
      channel error: each is in exactly one place, waiting, inside one settled
      confirm, in one of the two lists or with the user; and a confirm that
      carries one is in the user's hands or will be gone through by the next
      drain. */
  lemma {:induction false} MessagesConserved(s: State, ops: seq<Op>, x: Message)
    requires Inv(s) && Legal(s, ops)
    ensures Copies(Exec(s, ops), x) + AllLost(s, ops, x) == Copies(s, x) + AllArrivals(ops, x)
    ensures forall t :: t in Exec(s, ops).slots && Exec(s, ops).slots[t].Ready? ==>
      t in Exec(s, ops).handles || t in Exec(s, ops).dropped
    decreases |ops|
  {
    if ops != [] {
      ConserveStep(s, ops[0], x);
      InvStep(s, ops[0]);
      MessagesConserved(Step(s, ops[0]), ops[1..], x);
    }
  }

  lemma {:induction false} ExecSnoc(s: State, ops: seq<Op>, op: Op)
    requires Legal(s, ops) && Enabled(Exec(s, ops), op)
    ensures Legal(s, ops + [op]) && Exec(s, ops + [op]) == Step(Exec(s, ops), op)
    decreases |ops|
  {
    if ops == [] {
      assert ops + [op] == [op] && [op][1..] == [];
    } else {
      ExecSnoc(Step(s, ops[0]), ops[1..], op);
      assert (ops + [op])[1..] == ops[1..] + [op];
    }
  }

  /** A confirm is dropped, then settled with a returned message. */
  lemma DroppedWithMessage(x: Message) returns (ops: seq<Op>)
    ensures ops == [DoPublish, DoDrop(1), DoReturn(x, true), DoSettle(1, true)] && Legal(START, ops)
    ensures Exec(START, ops) ==
            State(1, 0, {}, map[1 := Ready(Confirmation(true, Some(x)))], {}, [1], [], [], [], [])
  {
    ExecSnoc(START, [], DoPublish);
    ops := [] + [DoPublish];
    ExecSnoc(START, ops, DoDrop(1));
    ops := ops + [DoDrop(1)];
    ExecSnoc(START, ops, DoReturn(x, true));
    ops := ops + [DoReturn(x, true)];
    ExecSnoc(START, ops, DoSettle(1, true));
    ops := ops + [DoSettle(1, true)];
  }

  /** The channel fails before the user drains: the message is gone. */
  lemma ErrorLosesMessage(x: Message) returns (ops: seq<Op>)
    ensures ops == [DoPublish, DoDrop(1), DoReturn(x, true), DoSettle(1, true), DoError]
    ensures Legal(START, ops) && AllLost(START, ops, x) == AllArrivals(ops, x) && Copies(Exec(START, ops), x) == 0
  {
    ops := DroppedWithMessage(x);
    ExecSnoc(START, ops, DoError);
    ops := ops + [DoError];
    var r := Exec(START, ops);
    assert r.slots == map[1 := Gone];
    assert SlotOcc(r.slots, 1, x) == SlotOcc(r.slots, 0, x) + 0;
    MessagesConserved(START, ops, x);
  }

  // ---- what the user gets, and when ----

  /** What the step hands to the user. */
  function Handed(s: State, op: Op): (q: seq<Message>) {
    match op
    case DoAwait(tag) => if tag in s.slots then Carried(s.slots[tag]) else []
    case DoDrain => s.nonConfirm + s.stored + CarriedBy(s.slots, s.dropped)
    case _ => []
  }

  /** The messages inside some promises, in order. */
  function CarriedBy(slots: map<Tag, Slot>, tags: seq<Tag>): (q: seq<Message>) {
    if tags == [] then []
    else
      var t := tags[|tags| - 1];
      CarriedBy(slots, tags[..|tags| - 1]) + if t in slots then Carried(slots[t]) else []
  }

  lemma {:induction false} FoundIsCarried(slots: map<Tag, Slot>, tags: seq<Tag>)
    requires Distinct(tags) && forall t :: t in tags ==> t in slots
    ensures Swept(slots, tags).found == CarriedBy(slots, tags)
    decreases |tags|
  {
    if tags != [] {
      var init, t := tags[..|tags| - 1], tags[|tags| - 1];
      assert tags == init + [t];
      FoundIsCarried(slots, init);
      SweptSlots(slots, init);
    }
  }

  /** The user gets messages only by awaiting a confirm or by draining: the one
      its promise carries; or all returned without confirms, then all stored, then
      those inside dropped confirms, each list in its order. */
  lemma UserGets(s: State, op: Op)
    requires Inv(s) && Enabled(s, op)
    ensures
      var r := Step(s, op);
      && r.user == s.user + Handed(s, op)
      && (op.DoDrain? ==>
            && r.nonConfirm == [] && r.stored == []
            && forall t :: t in r.dropped ==> t in r.slots && r.slots[t] == Unset)
  {
    match op
    case DoSettleUpTo(n, success, order) => SettledAllIssued(s, order, success);
    case DoDrain =>
      FoundIsCarried(s.slots, s.dropped);
      SweptSlots(s.slots, s.dropped);
      DrainOrder(s.user, s.nonConfirm, s.stored, s.nonConfirm + s.stored, CarriedBy(s.slots, s.dropped));
    case _ =>
  }

  /** What was returned without confirms since the last drain. */
  function SinceDrain(q: seq<Message>, ops: seq<Op>): (r: seq<Message>)
    decreases |ops|
  {
    if ops == [] then q
    else
      var op := ops[0];
      SinceDrain(if op.DoDrain? then [] else if op.DoReturn? && !op.confirmMode then q + [op.message] else q, ops[1..])
  }

  /** Over every run, what waits outside confirms is what was returned outside
      them since the last drain, in order. */
  lemma {:induction false} NonConfirmInOrder(s: State, ops: seq<Op>)
    requires Legal(s, ops)
    ensures Exec(s, ops).nonConfirm == SinceDrain(s.nonConfirm, ops)
    decreases |ops|
  {
    if ops != [] {
      if ops[0].DoSettleUpTo? {
        SettledAllIssued(s, ops[0].order, ops[0].success);
      }
      NonConfirmInOrder(Step(s, ops[0]), ops[1..]);
    }
  }

  // ---- returned messages leave in arrival order ----

  function ConfirmArrival(op: Op): (q: seq<Message>) {
    if op.DoReturn? && op.confirmMode then [op.message] else []
  }

  function ConfirmArrivals(ops: seq<Op>): (q: seq<Message>) {
    if ops == [] then [] else ConfirmArrival(ops[0]) + ConfirmArrivals(ops[1..])
  }

  predicate IsSuffix(w: seq<Message>, all: seq<Message>) {
    |w| <= |all| && w == all[|all| - |w|..]
  }

  /** The waiting queue is always the latest part of what was there and what
      arrived: messages leave it oldest first. */
  lemma {:induction false} WaitingInOrder(s: State, ops: seq<Op>)
    requires Inv(s) && Legal(s, ops)
    ensures IsSuffix(Exec(s, ops).waiting, s.waiting + ConfirmArrivals(ops))
    decreases |ops|
  {
    if ops == [] {
      assert s.waiting + [] == s.waiting;
    } else {
      var op := ops[0];
      WaitingStep(s, op);
      InvStep(s, op);
      WaitingInOrder(Step(s, op), ops[1..]);
      SuffixOf(s.waiting, ConfirmArrival(op), Step(s, op).waiting, ConfirmArrivals(ops[1..]), Exec(s, ops).waiting);
    }
  }

  lemma WaitingStep(s: State, op: Op)
    requires Inv(s) && Enabled(s, op)
    ensures IsSuffix(Step(s, op).waiting, s.waiting + ConfirmArrival(op))
  {
    match op
    case DoSettleUpTo(n, success, order) => SettledAllWaiting(s, order, success);
    case DoReturn(m, confirmMode) =>
      if !confirmMode {
        assert s.waiting + [] == s.waiting;
      }
    case _ => assert s.waiting + [] == s.waiting;
  }

  lemma SuffixOf(a: seq<Message>, now: seq<Message>, b: seq<Message>, later: seq<Message>, w: seq<Message>)
    requires IsSuffix(b, a + now) && IsSuffix(w, b + later)
    ensures IsSuffix(w, a + (now + later))
  {
    var all := a + now;
    assert (all + later)[|all| - |b|..] == b + later;
    assert a + (now + later) == all + later;
  }

  // ---- the code ----

  class ChannelConfirms {
    var issued: nat
    var base: nat
    var pending: set<Tag>
    var slots: map<Tag, Slot>
    var handles: set<Tag>
    var dropped: seq<Tag>
    var waiting: seq<Message>
    var nonConfirm: seq<Message>
    var stored: seq<Message>
    ghost var user: seq<Message>

    ghost function View(): (s: State)
      reads this
    {
      State(issued, base, pending, slots, handles, dropped, waiting, nonConfirm, stored, user)
    }

    constructor ()
      ensures View() == START && Inv(View())
    {
      issued, base, pending, slots, handles, dropped := 0, 0, {}, map[], {}, [];
      waiting, nonConfirm, stored, user := [], [], [], [];
    }

    method RegisterPending() returns (tag: Tag)
      requires base <= issued
      modifies this
      ensures View() == Registered(old(View())) && tag == issued - base
    {
      issued := issued + 1;
      tag := issued - base;
      pending := pending + {issued};
      slots := slots[issued := Unset];
      handles := handles + {issued};
    }

    method CompletePending(success: bool, tag: Tag)
      modifies this`slots, this`waiting
      ensures slots == Settled(old(View()), tag, success).slots
      ensures waiting == Settled(old(View()), tag, success).waiting
    {
      var m := None;
      if waiting != [] {
        m := Some(waiting[0]);
        waiting := waiting[1..];
      }
      slots := slots[tag := Ready(Confirmation(success, m))];
    }

    method DropPending(tag: Tag, success: bool) returns (ok: bool)
      modifies this
      ensures Answer(View(), ok) == SettledOne(old(View()), tag, success)
    {
      if tag !in pending {
        return false;
      }
      pending := pending - {tag};
      CompletePending(success, tag);
      return true;
    }

    /** A multiple ack or nack of everything: the map is emptied first. */
    method DropAll(success: bool, order: seq<Tag>)
      requires Inv(View()) && Lists(order, pending, 0)
      modifies this
      ensures View() == SettledAll(old(View()), order, success).state
    {
      pending := {};
      for i := 0 to |order|
        invariant pending == {}
        invariant
          var r := SettledAll(old(View()), order[..i], success).state;
          View() == State(r.issued, r.base, {}, r.slots, r.handles, r.dropped, r.waiting, r.nonConfirm, r.stored, r.user)
      {
        assert order[..i + 1][..i] == order[..i];
        assert AllPending(order[..i], old(pending));
        SettledAllPending(old(View()), order[..i], success);
        CompletePending(success, order[i]);
      }
      assert order[..|order|] == order;
      SettledAllPending(old(View()), order, success);
      assert SettledAll(old(View()), order, success).state.pending == {};
    }

    method CompletePendingBefore(success: bool, ghost n: Tag, tags: seq<Tag>) returns (ok: bool)
      requires Inv(View()) && Lists(tags, pending, n)
      modifies this
      ensures Answer(View(), ok) == SettledAll(old(View()), tags, success)
    {
      ok := true;
      for i := 0 to |tags|
        invariant Answer(View(), ok) == SettledAll(old(View()), tags[..i], success)
      {
        assert tags[..i + 1][..i] == tags[..i];
        var settled := DropPending(tags[i], success);
        ok := ok && settled;
      }
      assert tags[..|tags|] == tags;
    }

    /** basic.ack and basic.nack from the broker.  `order` is the map's order of
        the tags concerned by a multiple one. */
    method OnBasicAck(confirmMode: bool, multiple: bool, tag: Tag, success: bool, order: seq<Tag>) returns (ok: bool)
      requires Inv(View()) && (multiple ==> Lists(order, pending, UpTo(View(), tag)))
      modifies this
      ensures !confirmMode ==> ok && View() == old(View())
      ensures confirmMode && multiple ==> ok && View() == SettledAll(old(View()), order, success).state
      ensures confirmMode && !multiple ==> Answer(View(), ok) == SettledOne(old(View()), old(base) + tag, success)
    {
      if !confirmMode {
        return true;
      }
      if multiple {
        SettledAllPending(View(), order, success);
        if tag > 0 {
          ok := CompletePendingBefore(success, base + tag, order);
        } else {
          DropAll(success, order);
          ok := true;
        }
      } else {
        ok := DropPending(base + tag, success);
      }
    }

    /** The channel fails: `order` is the order the map is drained in. */
    method OnChannelError(order: seq<Tag>)
      requires Inv(View()) && Lists(order, pending, 0)
      modifies this
      ensures View() == Errored(old(View()))
    {
      for i := 0 to |order|
        invariant View() == State(issued, base, old(pending), slots, old(handles), old(dropped), old(waiting),
                                  old(nonConfirm), old(stored), old(user)) && issued == old(issued) && base == old(base)
        invariant slots.Keys == old(slots).Keys
        invariant forall t :: t in slots ==> slots[t] == if t in order[..i] then Ready(Rejected) else old(slots)[t]
      {
        assert order[i] in order && order[..i + 1] == order[..i] + [order[i]];
        slots := slots[order[i] := Ready(Rejected)];
      }
      assert order[..|order|] == order;
      pending := {};
      slots := map t | t in slots :: if t in dropped then Gone else slots[t];
      dropped := [];
    }

    /** The channel is recovered. */
    method Reset(order: seq<Tag>)
      requires Inv(View()) && Lists(order, pending, 0)
      modifies this
      ensures View() == Restarted(old(View()))
    {
      OnChannelError(order);
      base := issued;
    }

    method ReturnComplete(m: Message, confirmMode: bool)
      modifies this
      ensures View() == Returned(old(View()), m, confirmMode)
    {
      if confirmMode {
        waiting := waiting + [m];
      } else {
        nonConfirm := nonConfirm + [m];
      }
    }

    /** Polling a publisher confirm. */
    method Await(tag: Tag) returns (c: Option<Confirmation>)
      requires tag in handles && tag in slots
      modifies this
      ensures View() == Awaited(old(View()), tag)
      ensures c == if old(slots)[tag].Ready? then Some(old(slots)[tag].confirmation) else None
    {
      c := None;
      if slots[tag].Ready? {
        c := Some(slots[tag].confirmation);
        user := user + Carried(slots[tag]);
        slots := slots[tag := Gone];
        handles := handles - {tag};
      }
    }

    /** Dropping a publisher confirm that was not awaited. */
    method RegisterDroppedConfirm(tag: Tag)
      requires tag in handles && tag in slots
      modifies this
      ensures View() == Dropped(old(View()), tag)
    {
      handles := handles - {tag};
      if slots[tag].Ready? {
        stored := stored + Carried(slots[tag]);
        slots := slots[tag := Gone];
      } else {
        dropped := dropped + [tag];
      }
    }

    /** Go through confirms dropped earlier. */
    method ProcessDropped(todo: seq<Tag>) returns (found: seq<Message>)
      requires dropped == []
      modifies this`slots, this`dropped
      ensures Sweep(slots, dropped, found) == Swept(old(slots), todo)
    {
      found := [];
      for i := 0 to |todo|
        invariant Sweep(slots, dropped, found) == Swept(old(slots), todo[..i])
      {
        assert todo[..i + 1][..i] == todo[..i];
        var t := todo[i];
        if t in slots && slots[t].Ready? {
          found := found + Carried(slots[t]);
          slots := slots[t := Gone];
        } else {
          dropped := dropped + [t];
        }
      }
      assert todo[..|todo|] == todo;
    }

    method Drain() returns (messages: seq<Message>)
      modifies this
      ensures View() == Drained(old(View()))
      ensures user == old(user) + messages
    {
      messages := stored;
      stored := [];
      if nonConfirm != [] {
        messages := nonConfirm + messages;
        nonConfirm := [];
      }
      var todo := dropped;
      dropped := [];
      var found := ProcessDropped(todo);
      DrainOrder(user, old(nonConfirm), old(stored), messages, found);
      messages := messages + found;
      user := user + messages;
    }
  }

  lemma DrainOrder(user: seq<Message>, a: seq<Message>, b: seq<Message>, both: seq<Message>, found: seq<Message>)
    requires both == a + b
    ensures user + (both + found) == user + a + b + found
  {
  }
}
