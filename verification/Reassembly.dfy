/** Turning method, header and body frames of a channel back into messages
    (src/channel_receiver_state.rs and its three sinks: consumers, basic.get,
    returned messages). */
module Reassembly {
  import opened Bytes
  import S = Scheduler
  import opened Publishing

  /** What a content was sent for; it selects the sink. */
  datatype Cause = Consume(consumer: nat) | Get | Return

  datatype ReceiverState =
    | WillReceive(classId: nat, cause: Cause)
    | Receiving(cause: Cause, remaining: nat)

  /** A message being put together: its method, its properties, its data. */
  datatype Message = Message(id: nat, properties: nat, data: seq<byte>)

  datatype Delivery = Delivery(cause: Cause, message: Message)

  /** A channel's receiving state; `consumers` holds the registered ones. */
  datatype Channel = Channel(
    states: seq<ReceiverState>,
    consumers: map<nat, Option<Message>>,
    get: Option<Message>,
    returned: Option<Message>,
    delivered: seq<Delivery>)

  datatype Event =
    | ContentMethod(classId: nat, cause: Cause, id: nat)
    | HeaderFrame(classId: nat, size: nat, properties: nat)
    | BodyFrame(payload: seq<byte>)

  datatype Error = InvalidClass | UnexpectedHeader | UnexpectedBody | BodyTooLarge

  datatype Handled = Handled(channel: Channel, error: Option<Error>)

  // ---- sinks ----

  /** The message under way in the sink for `cause`. */
  function Current(c: Channel, cause: Cause): (m: Option<Message>) {
    match cause
    case Consume(tag) => if tag in c.consumers then c.consumers[tag] else None
    case Get => c.get
    case Return => c.returned
  }

  /** Replace it.  A delivery for an unknown consumer goes nowhere. */
  function WithCurrent(c: Channel, cause: Cause, m: Option<Message>): (r: Channel)
    ensures r.states == c.states && r.delivered == c.delivered && r.consumers.Keys == c.consumers.Keys
    ensures Known(c, cause) ==> Current(r, cause) == m
  {
    match cause
    case Consume(tag) =>
      if tag in c.consumers then Channel(c.states, c.consumers[tag := m], c.get, c.returned, c.delivered) else c
    case Get => Channel(c.states, c.consumers, m, c.returned, c.delivered)
    case Return => Channel(c.states, c.consumers, c.get, m, c.delivered)
  }

  predicate Known(c: Channel, cause: Cause) {
    cause.Consume? ==> cause.consumer in c.consumers
  }

  /** Hand over the message under way, if there is one. */
  function Completed(c: Channel, cause: Cause): (r: Channel) {
    match Current(c, cause)
    case None => c
    case Some(m) =>
      var d := WithCurrent(c, cause, None);
      Channel(d.states, d.consumers, d.get, d.returned, d.delivered + [Delivery(cause, m)])
  }

  function SinkHeader(c: Channel, cause: Cause, size: nat, properties: nat): (r: Channel) {
    var d := match Current(c, cause)
      case None => c
      case Some(m) => WithCurrent(c, cause, Some(Message(m.id, properties, m.data)));
    if size == 0 then Completed(d, cause) else d
  }

  function SinkBody(c: Channel, cause: Cause, remaining: nat, payload: seq<byte>): (r: Channel) {
    var d := match Current(c, cause)
      case None => c
      case Some(m) => WithCurrent(c, cause, Some(Message(m.id, m.properties, m.data + payload)));
    if remaining == 0 then Completed(d, cause) else d
  }

  // ---- the receiver's queue of states ----

  function WithStates(c: Channel, states: seq<ReceiverState>): (r: Channel) {
    Channel(states, c.consumers, c.get, c.returned, c.delivered)
  }

  function HandleMethod(c: Channel, classId: nat, cause: Cause, id: nat): (r: Handled) {
    var d := WithStates(c, c.states + [WillReceive(classId, cause)]);
    Handled(WithCurrent(d, cause, Some(Message(id, 0, []))), None)
  }

  function HandleHeader(c: Channel, classId: nat, size: nat, properties: nat): (r: Handled) {
    if c.states == [] then Handled(c, Some(UnexpectedHeader))
    else
      var d := WithStates(c, c.states[1..]);
      match c.states[0]
      case Receiving(_, _) => Handled(d, Some(UnexpectedHeader))
      case WillReceive(expected, cause) =>
        if expected != classId then Handled(d, Some(InvalidClass))
        else
          var e := SinkHeader(d, cause, size, properties);
          Handled(if size > 0 then WithStates(e, [Receiving(cause, size)] + e.states) else e, None)
  }

  function HandleBody(c: Channel, payload: seq<byte>): (r: Handled) {
    if c.states == [] then Handled(c, Some(UnexpectedBody))
    else
      var d := WithStates(c, c.states[1..]);
      match c.states[0]
      case WillReceive(_, _) => Handled(d, Some(UnexpectedBody))
      case Receiving(cause, len) =>
        if |payload| > len then Handled(d, Some(BodyTooLarge))
        else
          var remaining := len - |payload|;
          var e := SinkBody(d, cause, remaining, payload);
          Handled(if remaining > 0 then WithStates(e, [Receiving(cause, remaining)] + e.states) else e, None)
  }

  /** One frame of the channel.  The front state is taken off even when the
      frame does not fit it. */
  function Handle(c: Channel, ev: Event): (r: Handled) {
    match ev
    case ContentMethod(classId, cause, id) => HandleMethod(c, classId, cause, id)
    case HeaderFrame(classId, size, properties) => HandleHeader(c, classId, size, properties)
    case BodyFrame(payload) => HandleBody(c, payload)
  }

  /** Only the front of the queue can be receiving, and then something is missing. */
  predicate WellQueued(states: seq<ReceiverState>) {
    && (forall i :: 1 <= i < |states| ==> states[i].WillReceive?)
    && (states != [] && states[0].Receiving? ==> states[0].remaining > 0)
  }

  lemma SinksKeepStates(c: Channel, cause: Cause, size: nat, properties: nat, payload: seq<byte>)
    ensures SinkHeader(c, cause, size, properties).states == c.states
    ensures SinkBody(c, cause, size, payload).states == c.states
  {
  }

  lemma HandleWellQueued(c: Channel, ev: Event)
    requires WellQueued(c.states)
    ensures WellQueued(Handle(c, ev).channel.states)
  {
    if c.states != [] && !ev.ContentMethod? {
      var d := WithStates(c, c.states[1..]);
      match ev {
        case HeaderFrame(_, size, properties) =>
          SinksKeepStates(d, c.states[0].cause, size, properties, []);
        case BodyFrame(payload) =>
          if c.states[0].Receiving? && |payload| <= c.states[0].remaining {
            SinksKeepStates(d, c.states[0].cause, c.states[0].remaining - |payload|, 0, payload);
          }
      }
    }
  }

  /** Every state reachable by any frames, well-formed or not. */
  ghost function Run(c: Channel, evs: seq<Event>): (r: Channel)
    decreases |evs|
  {
    if evs == [] then c else Run(Handle(c, evs[0]).channel, evs[1..])
  }

  lemma {:induction false} AlwaysWellQueued(c: Channel, evs: seq<Event>)
    requires WellQueued(c.states)
    ensures WellQueued(Run(c, evs).states)
    decreases |evs|
  {
    if evs != [] {
      HandleWellQueued(c, evs[0]);
      AlwaysWellQueued(Handle(c, evs[0]).channel, evs[1..]);
    }
  }

  /** Which frames are refused and why, in any state: a header must meet a channel
      that waits for one of its class, a body one that is still owed as many
      bytes; a method never is.  A refused frame takes the front state with it,
      reaches no sink and hands nothing over. */
  lemma RefusedExactly(c: Channel, ev: Event)
    ensures
      var h := Handle(c, ev);
      var awaits := c.states != [] && c.states[0].WillReceive?;
      var owed := if c.states != [] && c.states[0].Receiving? then Some(c.states[0].remaining) else None;
      && (h.error == Some(InvalidClass) <==> ev.HeaderFrame? && awaits && c.states[0].classId != ev.classId)
      && (h.error == Some(UnexpectedHeader) <==> ev.HeaderFrame? && !awaits)
      && (h.error == Some(UnexpectedBody) <==> ev.BodyFrame? && owed.None?)
      && (h.error == Some(BodyTooLarge) <==> ev.BodyFrame? && owed.Some? && |ev.payload| > owed.value)
      && (h.error.Some? ==> h.channel == WithStates(c, if c.states == [] then [] else c.states[1..]))
  {
  }

  // ---- whole contents ----

  /** A content as the broker sends it. */
  datatype Content = Content(classId: nat, cause: Cause, id: nat, properties: nat, bodies: seq<seq<byte>>)

  function BodyEvents(bodies: seq<seq<byte>>): (evs: seq<Event>) {
    if bodies == [] then [] else [BodyFrame(bodies[0])] + BodyEvents(bodies[1..])
  }

  function Events(x: Content): (evs: seq<Event>) {
    [ContentMethod(x.classId, x.cause, x.id), HeaderFrame(x.classId, |Concat(x.bodies)|, x.properties)]
    + BodyEvents(x.bodies)
  }

  /** Bodies end with the last byte announced. */
  predicate Proper(bodies: seq<seq<byte>>) {
    bodies == [] || bodies[|bodies| - 1] != []
  }

  datatype Outcome = Outcome(channel: Channel, ok: bool)

  /** Handle frames until one is refused. */
  function Play(c: Channel, evs: seq<Event>): (r: Outcome)
    decreases |evs|
  {
    if evs == [] then Outcome(c, true)
    else
      var h := Handle(c, evs[0]);
      if h.error.Some? then Outcome(h.channel, false) else Play(h.channel, evs[1..])
  }

  lemma {:induction false} PlayConcat(c: Channel, a: seq<Event>, b: seq<Event>)
    requires Play(c, a).ok
    ensures Play(c, a + b) == Play(Play(c, a).channel, b)
    decreases |a|
  {
    if a == [] {
      assert a + b == b;
    } else {
      PlayConcat(Handle(c, a[0]).channel, a[1..], b);
      assert (a + b)[1..] == a[1..] + b;
    }
  }

  /** What follows a refused frame is not looked at. */
  lemma {:induction false} PlayStops(c: Channel, a: seq<Event>, b: seq<Event>)
    requires !Play(c, a).ok
    ensures Play(c, a + b) == Play(c, a)
    decreases |a|
  {
    assert (a + b)[0] == a[0] && (a + b)[1..] == a[1..] + b;
    if Handle(c, a[0]).error.None? {
      PlayStops(Handle(c, a[0]).channel, a[1..], b);
    }
  }

  /** The channel once `m`, if its sink is known, has been handed over. */
  function Delivered(c: Channel, cause: Cause, m: Message): (r: Channel) {
    if Known(c, cause) then
      var d := WithCurrent(c, cause, None);
      Channel(d.states, d.consumers, d.get, d.returned, d.delivered + [Delivery(cause, m)])
    else c
  }

  lemma BodyAccepted(c: Channel, cause: Cause, m: Message, len: nat, b: seq<byte>)
    requires c.states == [Receiving(cause, len)] && |b| <= len
    requires Known(c, cause) ==> Current(c, cause) == Some(m)
    ensures
      var h, idle, m' := Handle(c, BodyFrame(b)), WithStates(c, []), Message(m.id, m.properties, m.data + b);
      && h.error.None?
      && if |b| == len then h.channel == Delivered(idle, cause, m')
         else
           && h.channel.states == [Receiving(cause, len - |b|)]
           && WithStates(h.channel, []) == WithCurrent(idle, cause, Some(m'))
  {
    assert c.states[1..] == [];
    assert [Receiving(cause, len - |b|)] + [] == [Receiving(cause, len - |b|)];
  }

  /** Bodies of the announced total complete the message, however they are cut;
      a body after the last byte announced is refused, even an empty one. */
  lemma {:induction false} BodiesComplete(c: Channel, cause: Cause, m: Message, bodies: seq<seq<byte>>)
    requires c.states == [Receiving(cause, |Concat(bodies)|)] && |Concat(bodies)| > 0
    requires Known(c, cause) ==> Current(c, cause) == Some(m)
    ensures Play(c, BodyEvents(bodies)) ==
            Outcome(Delivered(WithStates(c, []), cause, Message(m.id, m.properties, m.data + Concat(bodies))), Proper(bodies))
    decreases |bodies|
  {
    var rest := Concat(bodies[1..]);
    var m' := Message(m.id, m.properties, m.data + bodies[0]);
    var c' := Handle(c, BodyFrame(bodies[0])).channel;
    BodyAccepted(c, cause, m, |Concat(bodies)|, bodies[0]);
    assert BodyEvents(bodies)[1..] == BodyEvents(bodies[1..]);
    assert m'.data + rest == m.data + Concat(bodies);
    if rest == [] {
      assert m.data + Concat(bodies) == m.data + bodies[0];
      NoMoreBodies(c', bodies[1..]);
    } else {
      BodiesComplete(c', cause, m', bodies[1..]);
      DeliveredAnyway(WithStates(c, []), cause, m', Message(m.id, m.properties, m.data + Concat(bodies)));
    }
  }

  /** With nothing left to receive the first body there is is refused. */
  lemma NoMoreBodies(c: Channel, bodies: seq<seq<byte>>)
    requires c.states == [] && Concat(bodies) == []
    ensures Play(c, BodyEvents(bodies)) == Outcome(c, bodies == [])
    ensures Proper(bodies) <==> bodies == []
  {
    if bodies != [] && Proper(bodies) {
      LastNonEmpty(bodies);
    }
  }

  lemma {:induction false} LastNonEmpty(bodies: seq<seq<byte>>)
    requires bodies != [] && bodies[|bodies| - 1] != []
    ensures |Concat(bodies)| > 0
    decreases |bodies|
  {
    if |bodies| > 1 {
      LastNonEmpty(bodies[1..]);
    }
  }

  /** The channel once the header of `x` is in. */
  function AfterHeader(c: Channel, x: Content): (r: Channel) {
    Handle(Handle(c, ContentMethod(x.classId, x.cause, x.id)).channel,
           HeaderFrame(x.classId, |Concat(x.bodies)|, x.properties)).channel
  }

  lemma HeaderAccepted(c: Channel, x: Content)
    requires c.states == []
    ensures
      var c1 := Handle(c, ContentMethod(x.classId, x.cause, x.id)).channel;
      Handle(c1, HeaderFrame(x.classId, |Concat(x.bodies)|, x.properties)).error.None?
    ensures
      var c2, m := AfterHeader(c, x), Message(x.id, x.properties, []);
      if Concat(x.bodies) == [] then c2 == Delivered(c, x.cause, m)
      else
        && c2.states == [Receiving(x.cause, |Concat(x.bodies)|)]
        && WithStates(c2, []) == WithCurrent(c, x.cause, Some(m))
  {
    var c1 := Handle(c, ContentMethod(x.classId, x.cause, x.id)).channel;
    assert c1.states == [WillReceive(x.classId, x.cause)];
    assert c1.states[1..] == [];
  }

  /** Starting, filling and handing over leave nothing but the delivery. */
  lemma DeliveredAnyway(c: Channel, cause: Cause, m: Message, m': Message)
    ensures Delivered(WithCurrent(c, cause, Some(m)), cause, m') == Delivered(c, cause, m')
  {
  }

  /** One content on an idle channel: its message is handed over once, with its
      own properties and all of its bodies, and the channel is idle again; all
      its frames are accepted exactly when no empty body trails. */
  lemma ContentDelivers(c: Channel, x: Content)
    requires c.states == []
    ensures Play(c, Events(x)) ==
            Outcome(Delivered(c, x.cause, Message(x.id, x.properties, Concat(x.bodies))), Proper(x.bodies))
  {
    HeaderAccepted(c, x);
    var c2, m := AfterHeader(c, x), Message(x.id, x.properties, []);
    PlayTwo(c, x);
    assert m.data + Concat(x.bodies) == Concat(x.bodies);
    if Concat(x.bodies) == [] {
      NoMoreBodies(c2, x.bodies);
    } else {
      BodiesComplete(c2, x.cause, m, x.bodies);
      DeliveredAnyway(c, x.cause, m, Message(x.id, x.properties, Concat(x.bodies)));
    }
  }

  /** A byte, then an empty body: the message arrives, and then the channel
      reports an unexpected frame. */
  lemma TrailingEmptyBody(c: Channel)
    requires c.states == []
    ensures
      var r := Play(c, Events(Content(60, Get, 1, 0, [[7], []])));
      !r.ok && r.channel.delivered == c.delivered + [Delivery(Get, Message(1, 0, [7]))]
  {
    var bodies: seq<seq<byte>> := [[7], []];
    assert bodies[1..] == [[]] && Concat(bodies[1..]) == [];
    assert Concat(bodies) == [7];
    ContentDelivers(c, Content(60, Get, 1, 0, bodies));
  }

  lemma PlayTwo(c: Channel, x: Content)
    requires
      var c1 := Handle(c, ContentMethod(x.classId, x.cause, x.id)).channel;
      Handle(c1, HeaderFrame(x.classId, |Concat(x.bodies)|, x.properties)).error.None?
    ensures Play(c, Events(x)) == Play(AfterHeader(c, x), BodyEvents(x.bodies))
  {
    var evs := Events(x);
    assert evs[1..][1..] == BodyEvents(x.bodies);
    var c1 := Handle(c, evs[0]).channel;
    assert Play(c, evs) == Play(c1, evs[1..]);
  }

  function AllEvents(xs: seq<Content>): (evs: seq<Event>) {
    if xs == [] then [] else Events(xs[0]) + AllEvents(xs[1..])
  }

  /** The delivery of one content, if its sink is known. */
  function ExpectedOne(consumers: set<nat>, x: Content): (ds: seq<Delivery>) {
    if x.cause.Consume? && x.cause.consumer !in consumers then []
    else [Delivery(x.cause, Message(x.id, x.properties, Concat(x.bodies)))]
  }

  function Expected(consumers: set<nat>, xs: seq<Content>): (ds: seq<Delivery>) {
    if xs == [] then [] else ExpectedOne(consumers, xs[0]) + Expected(consumers, xs[1..])
  }

  lemma DeliveredOne(c: Channel, x: Content)
    ensures
      var d := Delivered(c, x.cause, Message(x.id, x.properties, Concat(x.bodies)));
      && d.states == c.states && d.consumers.Keys == c.consumers.Keys
      && d.delivered == c.delivered + ExpectedOne(c.consumers.Keys, x)
  {
  }

  predicate AllProper(xs: seq<Content>) {
    forall x :: x in xs ==> Proper(x.bodies)
  }

  /** The contents up to the first one whose last frame is refused. */
  function Reached(xs: seq<Content>): (r: seq<Content>)
    ensures AllProper(xs) ==> r == xs
  {
    if xs == [] then []
    else if Proper(xs[0].bodies) then [xs[0]] + Reached(xs[1..])
    else [xs[0]]
  }

  /** Over every stream where each content's method is followed by its header and
      bodies: the sinks hand over one message per content, in order, each with
      exactly its bodies, and every frame is accepted exactly when no content
      has an empty body trailing; otherwise all goes well up to that body. */
  lemma {:induction false} StreamDelivers(c: Channel, xs: seq<Content>)
    requires c.states == []
    ensures
      var r := Play(c, AllEvents(xs));
      && (r.ok <==> AllProper(xs)) && r.channel.states == []
      && r.channel.delivered == c.delivered + Expected(c.consumers.Keys, Reached(xs))
    decreases |xs|
  {
    if xs == [] {
      assert c.delivered + [] == c.delivered;
    } else {
      var x, tail := xs[0], xs[1..];
      assert x in xs && forall y :: y in tail ==> y in xs;
      ContentDelivers(c, x);
      DeliveredOne(c, x);
      if Proper(x.bodies) {
        PlayConcat(c, Events(x), AllEvents(tail));
        StreamDelivers(Play(c, Events(x)).channel, tail);
        assert Reached(xs)[1..] == Reached(tail);
        Assoc(c.delivered, ExpectedOne(c.consumers.Keys, x), Expected(c.consumers.Keys, Reached(tail)));
      } else {
        PlayStops(c, Events(x), AllEvents(tail));
        assert Reached(xs)[1..] == [] && ExpectedOne(c.consumers.Keys, x) + [] == ExpectedOne(c.consumers.Keys, x);
      }
    }
  }

  // ---- what a publish becomes at the other end ----

  /** What a frame of a publish is to a receiver. */
  function AsEvent(f: S.Frame, classId: nat, cause: Cause, id: nat, properties: nat): (ev: Event) {
    match f
    case Header(_, size, _) => HeaderFrame(classId, size, properties)
    case Body(_, payload, _) => BodyFrame(payload)
    case _ => ContentMethod(classId, cause, id)
  }

  function AsEvents(fs: seq<S.Frame>, classId: nat, cause: Cause, id: nat, properties: nat): (evs: seq<Event>) {
    seq(|fs|, i requires 0 <= i < |fs| => AsEvent(fs[i], classId, cause, id, properties))
  }

  lemma {:induction false} BodyEventsAre(bodies: seq<seq<byte>>)
    ensures |BodyEvents(bodies)| == |bodies|
    ensures forall i :: 0 <= i < |bodies| ==> BodyEvents(bodies)[i] == BodyFrame(bodies[i])
    decreases |bodies|
  {
    if bodies != [] {
      BodyEventsAre(bodies[1..]);
    }
  }

  /** Chunk and reassemble: for every payload and every frame size, the frames
      of a publish deliver exactly that payload, once. */
  lemma RoundTrip(c: Channel, ch: S.ChannelId, payload: seq<byte>, frameMax: nat, publish: nat,
                  classId: nat, cause: Cause, id: nat, properties: nat)
    requires c.states == []
    ensures Play(c, AsEvents(PublishFrames(ch, payload, frameMax, publish), classId, cause, id, properties)) ==
            Outcome(Delivered(c, cause, Message(id, properties, payload)), true)
  {
    var chunks := Chunks(payload, ChunkSize(frameMax));
    ChunksExact(payload, ChunkSize(frameMax));
    PublishAsEvents(ch, payload, frameMax, publish, classId, cause, id, properties);
    assert chunks != [] ==> chunks[|chunks| - 1] in chunks;
    ContentDelivers(c, Content(classId, cause, id, properties, chunks));
  }

  /** To a receiver a publish is a content whose bodies are the chunks. */
  lemma PublishAsEvents(ch: S.ChannelId, payload: seq<byte>, frameMax: nat, publish: nat,
                        classId: nat, cause: Cause, id: nat, properties: nat)
    ensures AsEvents(PublishFrames(ch, payload, frameMax, publish), classId, cause, id, properties) ==
            Events(Content(classId, cause, id, properties, Chunks(payload, ChunkSize(frameMax))))
  {
    ChunksExact(payload, ChunkSize(frameMax));
    BodyEventsAre(Chunks(payload, ChunkSize(frameMax)));
  }

  // ---- the code ----

  class ChannelInput {
    var states: seq<ReceiverState>
    var consumers: map<nat, Option<Message>>
    var get: Option<Message>
    var returned: Option<Message>
    var delivered: seq<Delivery>

    function State(): (c: Channel)
      reads this
    {
      Channel(states, consumers, get, returned, delivered)
    }

    constructor (tags: set<nat>)
      ensures states == [] && delivered == [] && consumers.Keys == tags
    {
      states, delivered := [], [];
      consumers := map t | t in tags :: None;
      get, returned := None, None;
    }

    method SetCurrent(cause: Cause, m: Option<Message>)
      modifies this`consumers, this`get, this`returned
      ensures State() == WithCurrent(old(State()), cause, m)
    {
      match cause
      case Consume(tag) =>
        if tag in consumers {
          consumers := consumers[tag := m];
        }
      case Get => get := m;
      case Return => returned := m;
    }

    method Complete(cause: Cause)
      modifies this
      ensures State() == Completed(old(State()), cause)
    {
      var m := Current(State(), cause);
      if m.Some? {
        SetCurrent(cause, None);
        delivered := delivered + [Delivery(cause, m.value)];
      }
    }

    method ReceiveMethod(classId: nat, cause: Cause, id: nat)
      modifies this
      ensures Handled(State(), None) == Handle(old(State()), ContentMethod(classId, cause, id))
    {
      states := states + [WillReceive(classId, cause)];
      SetCurrent(cause, Some(Message(id, 0, [])));
    }

    method ReceiveHeader(classId: nat, size: nat, properties: nat) returns (error: Option<Error>)
      modifies this
      ensures Handled(State(), error) == Handle(old(State()), HeaderFrame(classId, size, properties))
    {
      if states == [] {
        return Some(UnexpectedHeader);
      }
      var front := states[0];
      states := states[1..];
      if front.Receiving? {
        return Some(UnexpectedHeader);
      }
      if front.classId != classId {
        return Some(InvalidClass);
      }
      var m := Current(State(), front.cause);
      if m.Some? {
        SetCurrent(front.cause, Some(Message(m.value.id, properties, m.value.data)));
      }
      if size == 0 {
        Complete(front.cause);
      }
      if size > 0 {
        states := [Receiving(front.cause, size)] + states;
      }
      return None;
    }

    method ReceiveBody(payload: seq<byte>) returns (error: Option<Error>)
      modifies this
      ensures Handled(State(), error) == Handle(old(State()), BodyFrame(payload))
    {
      if states == [] {
        return Some(UnexpectedBody);
      }
      var front := states[0];
      states := states[1..];
      if front.WillReceive? {
        return Some(UnexpectedBody);
      }
      if |payload| > front.remaining {
        return Some(BodyTooLarge);
      }
      var remaining := front.remaining - |payload|;
      var m := Current(State(), front.cause);
      if m.Some? {
        SetCurrent(front.cause, Some(Message(m.value.id, m.value.properties, m.value.data + payload)));
      }
      if remaining == 0 {
        Complete(front.cause);
      }
      if remaining > 0 {
        states := [Receiving(front.cause, remaining)] + states;
      }
      return None;
    }
  }
}
