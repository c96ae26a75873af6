/** The wake-up protocol of promises, consumers and notifiers (src/promise.rs,
    src/listener.rs, src/notifier.rs, the consumer stream of src/consumer.rs),
    as interleaved atomic steps.

    Taken as given: `listen` registers a listener that has not been notified,
    and `notify(usize::MAX)` notifies every listener registered at that moment
    and wakes whichever polled it.  Each locked section is one step.
 */
module Wakeup {
  import opened Bytes

  /** A clone's own registration with the shared event. */
  datatype Registration = Unarmed | Armed(notified: bool)

  /** Where a task is inside `poll`. */
  datatype Poller =
    | Idle        // not polling: before the first poll, or after `Ready`
    | Arming      // about to call `arm`
    | Taking      // armed, about to look for a value
    | Polling     // found none, about to poll the listener
    | Sleeping    // `poll` returned `Pending`

  datatype Task = Task(at: Poller, listener: Registration, got: Option<nat>)

  /** Where a sender is inside `set` or `dispatch`. */
  datatype Sender = Ready | Stored   // stored a value, about to notify

  /** `single`: a promise, whose slot holds one value and is not overwritten;
      otherwise a consumer, whose channel queues. */
  datatype Sys = Sys(single: bool, values: seq<nat>, tasks: seq<Task>, senders: seq<Sender>)

  datatype Move =
    | StartPoll(task: nat)       // first poll, a woken task, or a spurious one
    | Arm(task: nat)
    | Take(task: nat)
    | PollListener(task: nat)
    | Store(sender: nat, value: nat)
    | Notify(sender: nat)
    | Discard                    // `drop_prefetched_messages`, `try_wait`
    | AddTask                    // a clone of the consumer
    | AddSender                  // a clone of the resolver

  predicate Can(s: Sys, m: Move) {
    match m
    case StartPoll(t) => t < |s.tasks| && (s.tasks[t].at.Idle? || s.tasks[t].at.Sleeping?)
    case Arm(t) => t < |s.tasks| && s.tasks[t].at.Arming?
    case Take(t) => t < |s.tasks| && s.tasks[t].at.Taking?
    case PollListener(t) => t < |s.tasks| && s.tasks[t].at.Polling?
    case Store(p, _) => p < |s.senders| && s.senders[p].Ready?
    case Notify(p) => p < |s.senders| && s.senders[p].Stored?
    case _ => true
  }

  function AllNotified(tasks: seq<Task>): (r: seq<Task>)
    ensures |r| == |tasks|
  {
    seq(|tasks|, i requires 0 <= i < |tasks| =>
      if tasks[i].listener.Armed? then Task(tasks[i].at, Armed(true), tasks[i].got) else tasks[i])
  }

  function Apply(s: Sys, m: Move): (r: Sys)
    requires Can(s, m)
  {
    match m
    case StartPoll(t) =>
      Sys(s.single, s.values, s.tasks[t := Task(Arming, s.tasks[t].listener, None)], s.senders)
    case Arm(t) =>
      var l := if s.tasks[t].listener.Unarmed? then Armed(false) else s.tasks[t].listener;
      Sys(s.single, s.values, s.tasks[t := Task(Taking, l, None)], s.senders)
    case Take(t) =>
      if s.values != [] then
        Sys(s.single, s.values[1..], s.tasks[t := Task(Idle, Unarmed, Some(s.values[0]))], s.senders)
      else Sys(s.single, s.values, s.tasks[t := Task(Polling, s.tasks[t].listener, None)], s.senders)
    case PollListener(t) =>
      if s.tasks[t].listener == Armed(true) then
        Sys(s.single, s.values, s.tasks[t := Task(Arming, Unarmed, None)], s.senders)
      else Sys(s.single, s.values, s.tasks[t := Task(Sleeping, s.tasks[t].listener, None)], s.senders)
    case Store(p, v) =>
      if s.single && s.values != [] then s
      else Sys(s.single, s.values + [v], s.tasks, s.senders[p := Stored])
    case Notify(p) =>
      Sys(s.single, s.values, AllNotified(s.tasks), s.senders[p := Ready])
    case Discard => Sys(s.single, [], s.tasks, s.senders)
    case AddTask => Sys(s.single, s.values, s.tasks + [Task(Idle, Unarmed, None)], s.senders)
    case AddSender => Sys(s.single, s.values, s.tasks, s.senders + [Ready])
  }

  ghost predicate Legal(s: Sys, ms: seq<Move>)
    decreases |ms|
  {
    ms == [] || (Can(s, ms[0]) && Legal(Apply(s, ms[0]), ms[1..]))
  }

  ghost function Exec(s: Sys, ms: seq<Move>): (r: Sys)
    requires Legal(s, ms)
    decreases |ms|
  {
    if ms == [] then s else Exec(Apply(s, ms[0]), ms[1..])
  }

  /** A promise or consumer as created, possibly already holding a value. */
  predicate Fresh(s: Sys) {
    && (forall i :: 0 <= i < |s.tasks| ==> s.tasks[i] == Task(Idle, Unarmed, None))
    && (forall i :: 0 <= i < |s.senders| ==> s.senders[i].Ready?)
    && (s.single ==> |s.values| <= 1)
  }

  ghost predicate SenderBusy(s: Sys) {
    exists p :: 0 <= p < |s.senders| && s.senders[p].Stored?
  }

  /** A task that found nothing is armed, and if there is something now, it has
      been notified or a sender is about to notify it. */
  ghost predicate Inv(s: Sys) {
    && (s.single ==> |s.values| <= 1)
    && forall i {:trigger s.tasks[i]} :: 0 <= i < |s.tasks| ==>
         var t := s.tasks[i];
         && (t.at.Taking? || t.at.Polling? || t.at.Sleeping? ==> t.listener.Armed?)
         && ((t.at.Polling? || t.at.Sleeping?) && s.values != [] && !t.listener.notified ==> SenderBusy(s))
  }

  lemma InvMove(s: Sys, m: Move)
    requires Inv(s) && Can(s, m)
    ensures Inv(Apply(s, m))
  {
    var r := Apply(s, m);
    if SenderBusy(s) && !m.Notify? {
      var p :| 0 <= p < |s.senders| && s.senders[p].Stored?;
      assert r.senders[p].Stored?;
    }
    match m
    case Store(p, v) =>
      if !(s.single && s.values != []) {
        assert r.senders[p].Stored?;
      }
    case _ =>
  }

  lemma {:induction false} InvExec(s: Sys, ms: seq<Move>)
    requires Inv(s) && Legal(s, ms)
    ensures Inv(Exec(s, ms))
    decreases |ms|
  {
    if ms != [] {
      InvMove(s, ms[0]);
      InvExec(Apply(s, ms[0]), ms[1..]);
    }
  }

  /** No lost wake-up: in every interleaving, a task whose poll returned
      `Pending` while a value is available, no sender being between storing and
      notifying, has been notified. */
  lemma NoLostWakeup(s: Sys, ms: seq<Move>, t: nat)
    requires Fresh(s) && Legal(s, ms) && t < |Exec(s, ms).tasks|
    ensures
      var r := Exec(s, ms);
      r.tasks[t].at.Sleeping? && r.values != [] && !SenderBusy(r) ==> r.tasks[t].listener == Armed(true)
  {
    InvExec(s, ms);
  }

  /** The moves of one `poll` of task `t`, uninterrupted. */
  function PollAlone(s: Sys, t: nat, fuel: nat): (r: Sys)
    requires t < |s.tasks|
    decreases fuel
  {
    if fuel == 0 then s
    else match s.tasks[t].at
      case Idle => s
      case Sleeping => s
      case Arming => PollAlone(Apply(s, Arm(t)), t, fuel - 1)
      case Taking => PollAlone(Apply(s, Take(t)), t, fuel - 1)
      case Polling => PollAlone(Apply(s, PollListener(t)), t, fuel - 1)
  }

  /** A poll left alone ends within six moves: with the oldest value if there is
      one, and otherwise asleep with a listener that is armed and not notified.
      The loop in `poll` does not spin. */
  lemma PollEnds(s: Sys, t: nat)
    requires Inv(s) && t < |s.tasks| && (s.tasks[t].at.Idle? || s.tasks[t].at.Sleeping?)
    ensures
      var r := PollAlone(Apply(s, StartPoll(t)), t, 6);
      if s.values != []
      then r.tasks[t] == Task(Idle, Unarmed, Some(s.values[0])) && r.values == s.values[1..]
      else r.tasks[t] == Task(Sleeping, Armed(false), None) && r.values == []
  {
    var a := Apply(s, StartPoll(t));
    var b := Apply(a, Arm(t));
    assert PollAlone(a, t, 6) == PollAlone(b, t, 5);
    var c := Apply(b, Take(t));
    assert PollAlone(b, t, 5) == PollAlone(c, t, 4);
    if s.values != [] {
      assert PollAlone(c, t, 4) == c;
    } else {
      var d := Apply(c, PollListener(t));
      assert PollAlone(c, t, 4) == PollAlone(d, t, 3);
      if d.tasks[t].at.Arming? {
        var e := Apply(d, Arm(t));
        assert PollAlone(d, t, 3) == PollAlone(e, t, 2);
        var f := Apply(e, Take(t));
        assert PollAlone(e, t, 2) == PollAlone(f, t, 1);
        assert PollAlone(f, t, 1) == PollAlone(Apply(f, PollListener(t)), t, 0);
      }
    }
  }

  /** The value a move stores, and the one it takes. */
  function StoredBy(s: Sys, m: Move): (vs: seq<nat>) {
    if m.Store? && !(s.single && s.values != []) then [m.value] else []
  }

  function TakenBy(s: Sys, m: Move): (vs: seq<nat>) {
    if m.Take? && s.values != [] then [s.values[0]] else []
  }

  ghost function AllStored(s: Sys, ms: seq<Move>): (vs: seq<nat>)
    requires Legal(s, ms)
    decreases |ms|
  {
    if ms == [] then [] else StoredBy(s, ms[0]) + AllStored(Apply(s, ms[0]), ms[1..])
  }

  ghost function AllTaken(s: Sys, ms: seq<Move>): (vs: seq<nat>)
    requires Legal(s, ms)
    decreases |ms|
  {
    if ms == [] then [] else TakenBy(s, ms[0]) + AllTaken(Apply(s, ms[0]), ms[1..])
  }

  lemma ValuesMove(s: Sys, m: Move)
    requires Can(s, m) && !m.Discard?
    ensures s.values + StoredBy(s, m) == TakenBy(s, m) + Apply(s, m).values
  {
  }

  lemma Splice(v: seq<nat>, a: seq<nat>, b: seq<nat>, v': seq<nat>, more: seq<nat>, gone: seq<nat>, w: seq<nat>)
    requires v + a == b + v' && v' + more == gone + w
    ensures v + (a + more) == (b + gone) + w
  {
    assert v + (a + more) == (b + v') + more == b + (v' + more);
  }

  /** Values are taken once each, in the order they were stored, however many
      clones poll. */
  lemma {:induction false} ValuesInOrder(s: Sys, ms: seq<Move>)
    requires Legal(s, ms) && Discard !in ms
    ensures s.values + AllStored(s, ms) == AllTaken(s, ms) + Exec(s, ms).values
    decreases |ms|
  {
    if ms == [] {
      assert s.values + [] == [] + s.values;
    } else {
      var m, rest := ms[0], ms[1..];
      var s' := Apply(s, m);
      ValuesMove(s, m);
      ValuesInOrder(s', rest);
      Splice(s.values, StoredBy(s, m), TakenBy(s, m), s'.values, AllStored(s', rest), AllTaken(s', rest), Exec(s, ms).values);
    }
  }

  // ---- the one-shot notifier ----

  datatype Waiter =
    | Outside | FirstCheck | Registering | SecondCheck | Listening
    | Waiting     // `poll` returned `Pending`
    | Resolved    // `poll` returned `Ready`

  datatype Client = Client(at: Waiter, listener: Registration)

  /** `setting` counts callers between setting the flag and notifying. */
  datatype Notifier = Notifier(done: bool, setting: nat, clients: seq<Client>)

  datatype NMove = Enter(c: nat) | Advance(c: nat) | SetDone | NotifyAll | Clone

  predicate NCan(n: Notifier, m: NMove) {
    match m
    case Enter(c) => c < |n.clients| && (n.clients[c].at.Outside? || n.clients[c].at.Waiting?)
    case Advance(c) =>
      c < |n.clients| && !n.clients[c].at.Outside? && !n.clients[c].at.Waiting? && !n.clients[c].at.Resolved?
    case NotifyAll => n.setting > 0
    case _ => true
  }

  function NextClient(done: bool, c: Client): (r: Client) {
    match c.at
    case FirstCheck => Client(if done then Resolved else Registering, c.listener)
    case Registering => Client(SecondCheck, if c.listener.Unarmed? then Armed(false) else c.listener)
    case SecondCheck => Client(if done then Resolved else Listening, c.listener)
    case Listening => if c.listener == Armed(true) then Client(Resolved, Unarmed) else Client(Waiting, c.listener)
    case _ => c
  }

  function Woken(clients: seq<Client>): (r: seq<Client>)
    ensures |r| == |clients|
  {
    seq(|clients|, i requires 0 <= i < |clients| =>
      if clients[i].listener.Armed? then Client(clients[i].at, Armed(true)) else clients[i])
  }

  function NApply(n: Notifier, m: NMove): (r: Notifier)
    requires NCan(n, m)
  {
    match m
    case Enter(c) => Notifier(n.done, n.setting, n.clients[c := Client(FirstCheck, n.clients[c].listener)])
    case Advance(c) => Notifier(n.done, n.setting, n.clients[c := NextClient(n.done, n.clients[c])])
    case SetDone => Notifier(true, n.setting + 1, n.clients)
    case NotifyAll => Notifier(n.done, n.setting - 1, Woken(n.clients))
    case Clone => Notifier(n.done, n.setting, n.clients + [Client(Outside, Unarmed)])
  }

  ghost predicate NLegal(n: Notifier, ms: seq<NMove>)
    decreases |ms|
  {
    ms == [] || (NCan(n, ms[0]) && NLegal(NApply(n, ms[0]), ms[1..]))
  }

  ghost function NExec(n: Notifier, ms: seq<NMove>): (r: Notifier)
    requires NLegal(n, ms)
    decreases |ms|
  {
    if ms == [] then n else NExec(NApply(n, ms[0]), ms[1..])
  }

  ghost predicate NInv(n: Notifier) {
    && (n.setting > 0 ==> n.done)
    && forall i {:trigger n.clients[i]} :: 0 <= i < |n.clients| ==>
         var c := n.clients[i];
         && (c.listener == Armed(true) ==> n.done)
         && (c.at.SecondCheck? || c.at.Listening? || c.at.Waiting? ==> c.listener.Armed?)
         && ((c.at.Listening? || c.at.Waiting?) && n.done && c.listener == Armed(false) ==> n.setting > 0)
         && (c.at.Resolved? ==> n.done)
  }

  lemma {:induction false} NInvExec(n: Notifier, ms: seq<NMove>)
    requires NInv(n) && NLegal(n, ms)
    ensures NInv(NExec(n, ms))
    decreases |ms|
  {
    if ms != [] {
      NInvExec(NApply(n, ms[0]), ms[1..]);
    }
  }

  /** In every interleaving, a clone resolves only after the notification, and
      once it has been given no clone stays asleep without being woken. */
  lemma NotifierExact(ms: seq<NMove>, i: nat)
    requires NLegal(Notifier(false, 0, []), ms) && i < |NExec(Notifier(false, 0, []), ms).clients|
    ensures
      var n := NExec(Notifier(false, 0, []), ms);
      var c := n.clients[i];
      && (c.at.Resolved? ==> n.done)
      && (c.at.Waiting? && n.done && n.setting == 0 ==> c.listener == Armed(true))
  {
    NInvExec(Notifier(false, 0, []), ms);
  }
}
