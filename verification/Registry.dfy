/** The topology a channel has declared, and its replay after a reconnection
    (src/registry.rs, src/topology.rs, `start_recovery` in src/channel.rs). */
module Registry {
  import opened Bytes

  type Name = nat

  datatype Binding = Binding(source: Name, routingKey: nat, arguments: nat)

  /** An exchange or a queue; queues have no kind. */
  datatype Definition = Definition(
    kind: Option<nat>,
    options: Option<nat>,
    arguments: Option<nat>,
    bindings: seq<Binding>,
    isDeclared: bool)

  type Table = map<Name, Definition>

  /** What a declaration says. */
  datatype Spec = Spec(kind: Option<nat>, options: nat, arguments: nat)

  datatype Op =
    | Declare(name: Name, spec: Spec)
    | Delete(name: Name)
    | Bind(name: Name, binding: Binding)
    | Unbind(name: Name, binding: Binding)

  const UNDECLARED := Definition(None, None, None, [], false)

  function Lookup(t: Table, n: Name): (d: Definition) {
    if n in t then t[n] else UNDECLARED
  }

  /** `retain` on the list of bindings. */
  function Without(bs: seq<Binding>, b: Binding): (r: seq<Binding>) {
    if bs == [] then []
    else Without(bs[..|bs| - 1], b) + if bs[|bs| - 1] == b then [] else [bs[|bs| - 1]]
  }

  function Apply(t: Table, op: Op): (r: Table) {
    match op
    case Declare(n, spec) =>
      t[n := Definition(spec.kind, Some(spec.options), Some(spec.arguments), Lookup(t, n).bindings, true)]
    case Delete(n) => t - {n}
    case Bind(n, b) =>
      var d := Lookup(t, n);
      t[n := Definition(d.kind, d.options, d.arguments, d.bindings + [b], d.isDeclared)]
    case Unbind(n, b) =>
      if n in t then
        t[n := Definition(t[n].kind, t[n].options, t[n].arguments, Without(t[n].bindings, b), t[n].isDeclared)]
      else t
  }

  function Exec(t: Table, ops: seq<Op>): (r: Table)
    decreases |ops|
  {
    if ops == [] then t else Exec(Apply(t, ops[0]), ops[1..])
  }

  // ---- the simple model: sets ----

  /** What is declared, and which bindings there are. */
  datatype Topology = Topology(declared: map<Name, Spec>, bindings: set<(Name, Binding)>)

  function ApplyModel(v: Topology, op: Op): (r: Topology) {
    match op
    case Declare(n, spec) => Topology(v.declared[n := spec], v.bindings)
    case Delete(n) => Topology(v.declared - {n}, set x | x in v.bindings && x.0 != n)
    case Bind(n, b) => Topology(v.declared, v.bindings + {(n, b)})
    case Unbind(n, b) => Topology(v.declared, v.bindings - {(n, b)})
  }

  function ExecModel(v: Topology, ops: seq<Op>): (r: Topology)
    decreases |ops|
  {
    if ops == [] then v else ExecModel(ApplyModel(v, ops[0]), ops[1..])
  }

  function SpecOf(d: Definition): (s: Spec)
    requires d.options.Some? && d.arguments.Some?
  {
    Spec(d.kind, d.options.value, d.arguments.value)
  }

  /** What is declared has its options and arguments stored. */
  ghost predicate Complete(t: Table) {
    forall n :: n in t && t[n].isDeclared ==> t[n].options.Some? && t[n].arguments.Some?
  }

  function View(t: Table): (v: Topology)
    requires Complete(t)
  {
    Topology(map n | n in t && t[n].isDeclared :: SpecOf(t[n]),
             set n, b | n in t && b in t[n].bindings :: (n, b))
  }

  lemma {:induction false} WithoutAll(bs: seq<Binding>, b: Binding)
    ensures forall x :: x in Without(bs, b) <==> x in bs && x != b
    decreases |bs|
  {
    if bs != [] {
      WithoutAll(bs[..|bs| - 1], b);
      assert bs == bs[..|bs| - 1] + [bs[|bs| - 1]];
    }
  }

  lemma RefinesDeclare(t: Table, op: Op)
    requires Complete(t) && (op.Declare? || op.Delete?)
    ensures Complete(Apply(t, op)) && View(Apply(t, op)) == ApplyModel(View(t), op)
  {
    var r := Apply(t, op);
    assert View(r).declared == ApplyModel(View(t), op).declared;
    assert View(r).bindings == ApplyModel(View(t), op).bindings;
  }

  /** A change to the bindings of one entry leaves the declarations alone. */
  lemma SameDeclared(t: Table, n: Name, bs: seq<Binding>)
    requires Complete(t)
    ensures
      var d := Lookup(t, n);
      var r := t[n := Definition(d.kind, d.options, d.arguments, bs, d.isDeclared)];
      && Complete(r) && View(r).declared == View(t).declared
      && forall x :: x in View(r).bindings <==> if x.0 == n then x.1 in bs else x in View(t).bindings
  {
    var d := Lookup(t, n);
    var r := t[n := Definition(d.kind, d.options, d.arguments, bs, d.isDeclared)];
    assert View(r).declared == View(t).declared;
  }

  lemma RefinesBind(t: Table, n: Name, b: Binding)
    requires Complete(t)
    ensures
      var op := Bind(n, b);
      Complete(Apply(t, op)) && View(Apply(t, op)) == ApplyModel(View(t), op)
  {
    SameDeclared(t, n, Lookup(t, n).bindings + [b]);
    assert View(Apply(t, Bind(n, b))).bindings == View(t).bindings + {(n, b)};
  }

  lemma RefinesUnbind(t: Table, n: Name, b: Binding)
    requires Complete(t)
    ensures
      var op := Unbind(n, b);
      Complete(Apply(t, op)) && View(Apply(t, op)) == ApplyModel(View(t), op)
  {
    if n in t {
      SameDeclared(t, n, Without(t[n].bindings, b));
      WithoutAll(t[n].bindings, b);
    }
    assert View(Apply(t, Unbind(n, b))).bindings == View(t).bindings - {(n, b)};
  }

  lemma RefinesStep(t: Table, op: Op)
    requires Complete(t)
    ensures Complete(Apply(t, op)) && View(Apply(t, op)) == ApplyModel(View(t), op)
  {
    match op
    case Bind(n, b) => RefinesBind(t, n, b);
    case Unbind(n, b) => RefinesUnbind(t, n, b);
    case _ => RefinesDeclare(t, op);
  }

  /** Over every run of replies from the broker, the registry is the set-based
      topology, and what it says is declared it can declare again. */
  lemma {:induction false} RefinesTopology(t: Table, ops: seq<Op>)
    requires Complete(t)
    ensures Complete(Exec(t, ops)) && View(Exec(t, ops)) == ExecModel(View(t), ops)
    decreases |ops|
  {
    if ops != [] {
      RefinesStep(t, ops[0]);
      RefinesTopology(Apply(t, ops[0]), ops[1..]);
    }
  }

  // ---- replay ----

  /** `order` lists the names of the table once each, in the map's order. */
  ghost predicate Lists(order: seq<Name>, t: Table) {
    (forall n :: n in t <==> n in order) && Distinct(order)
  }

  /** The declarations of a snapshot; a missing option would default to 0. */
  function DeclareOps(order: seq<Name>, t: Table): (ops: seq<Op>) {
    if order == [] then []
    else
      var n := order[|order| - 1];
      DeclareOps(order[..|order| - 1], t) +
      if n in t && t[n].isDeclared
      then [Declare(n, Spec(t[n].kind, OrDefault(t[n].options), OrDefault(t[n].arguments)))] else []
  }

  function OrDefault(o: Option<nat>): (n: nat) {
    if o.Some? then o.value else 0
  }

  function BindAll(n: Name, bs: seq<Binding>): (ops: seq<Op>) {
    if bs == [] then [] else BindAll(n, bs[..|bs| - 1]) + [Bind(n, bs[|bs| - 1])]
  }

  function BindOps(order: seq<Name>, t: Table): (ops: seq<Op>) {
    if order == [] then []
    else
      var n := order[|order| - 1];
      BindOps(order[..|order| - 1], t) + BindAll(n, Lookup(t, n).bindings)
  }

  /** The table with every list of bindings doubled. */
  function Doubled(t: Table): (r: Table) {
    map n | n in t ::
      Definition(t[n].kind, t[n].options, t[n].arguments, t[n].bindings + t[n].bindings, t[n].isDeclared)
  }

  lemma {:induction false} ExecConcat(t: Table, a: seq<Op>, b: seq<Op>)
    ensures Exec(t, a + b) == Exec(Exec(t, a), b)
    decreases |a|
  {
    if a == [] {
      assert a + b == b;
    } else {
      ExecConcat(Apply(t, a[0]), a[1..], b);
      assert (a + b)[1..] == a[1..] + b;
    }
  }

  /** Declaring again what is declared changes nothing. */
  lemma {:induction false} DeclaresChangeNothing(order: seq<Name>, t: Table)
    requires Complete(t)
    ensures Exec(t, DeclareOps(order, t)) == t
    decreases |order|
  {
    if order != [] {
      var init, n := order[..|order| - 1], order[|order| - 1];
      DeclaresChangeNothing(init, t);
      if n in t && t[n].isDeclared {
        var op := Declare(n, Spec(t[n].kind, OrDefault(t[n].options), OrDefault(t[n].arguments)));
        ExecConcat(t, DeclareOps(init, t), [op]);
        assert Apply(t, op) == t;
        assert Exec(t, [op]) == Exec(Apply(t, op), []);
      } else {
        assert DeclareOps(order, t) == DeclareOps(init, t);
      }
    }
  }

  lemma {:induction false} BindAllAppends(t: Table, n: Name, bs: seq<Binding>)
    requires n in t
    ensures Exec(t, BindAll(n, bs)) ==
            t[n := Definition(t[n].kind, t[n].options, t[n].arguments, t[n].bindings + bs, t[n].isDeclared)]
    decreases |bs|
  {
    if bs == [] {
      assert t[n].bindings + [] == t[n].bindings;
    } else {
      var init, b := bs[..|bs| - 1], bs[|bs| - 1];
      BindAllAppends(t, n, init);
      ExecConcat(t, BindAll(n, init), [Bind(n, b)]);
      var u := Exec(t, BindAll(n, init));
      assert Exec(u, [Bind(n, b)]) == Exec(Apply(u, Bind(n, b)), []);
      assert t[n].bindings + init + [b] == t[n].bindings + bs by {
        assert init + [b] == bs;
      }
    }
  }

  /** The table with the bindings of the names in `done` doubled. */
  function PartlyDoubled(t: Table, done: set<Name>): (r: Table) {
    map n | n in t :: if n in done then Doubled(t)[n] else t[n]
  }

  function Names(order: seq<Name>): (s: set<Name>) {
    if order == [] then {} else Names(order[..|order| - 1]) + {order[|order| - 1]}
  }

  lemma {:induction false} NamesAre(order: seq<Name>)
    ensures forall n :: n in Names(order) <==> n in order
    decreases |order|
  {
    if order != [] {
      NamesAre(order[..|order| - 1]);
      assert order == order[..|order| - 1] + [order[|order| - 1]];
    }
  }

  lemma {:induction false} BindsDouble(order: seq<Name>, t: Table)
    requires (forall n :: n in order ==> n in t) && Distinct(order)
    ensures Exec(t, BindOps(order, t)) == PartlyDoubled(t, Names(order))
    decreases |order|
  {
    if order == [] {
      assert PartlyDoubled(t, {}) == t;
    } else {
      var init, n := order[..|order| - 1], order[|order| - 1];
      assert n in order && n !in init;
      NamesAre(init);
      BindsDouble(init, t);
      ExecConcat(t, BindOps(init, t), BindAll(n, t[n].bindings));
      BindAllAppends(PartlyDoubled(t, Names(init)), n, t[n].bindings);
      DoubleOne(t, Names(init), n);
    }
  }

  lemma DoubleOne(t: Table, done: set<Name>, n: Name)
    requires n in t
    ensures PartlyDoubled(t, done + {n}) == PartlyDoubled(t, done)[n :=
      Definition(t[n].kind, t[n].options, t[n].arguments, t[n].bindings + t[n].bindings, t[n].isDeclared)]
  {
  }

  /** What recovery sends for one table. */
  function ReplayOps(order: seq<Name>, t: Table): (ops: seq<Op>) {
    DeclareOps(order, t) + BindOps(order, t)
  }

  /** Replaying a snapshot of the table, in whatever order the map gives: the
      topology is unchanged, and every binding is listed twice as often. */
  lemma ReplayIdempotent(order: seq<Name>, t: Table)
    requires Complete(t) && Lists(order, t)
    ensures Exec(t, ReplayOps(order, t)) == Doubled(t)
    ensures Complete(Doubled(t)) && View(Doubled(t)) == View(t)
  {
    ExecConcat(t, DeclareOps(order, t), BindOps(order, t));
    DeclaresChangeNothing(order, t);
    BindsDouble(order, t);
    NamesAre(order);
    assert PartlyDoubled(t, Names(order)) == Doubled(t);
    SameView(t);
  }

  lemma SameView(t: Table)
    requires Complete(t)
    ensures Complete(Doubled(t)) && View(Doubled(t)) == View(t)
  {
    var d := Doubled(t);
    assert forall n :: n in t ==> forall b :: b in d[n].bindings <==> b in t[n].bindings;
    assert View(d).declared == View(t).declared;
    assert View(d).bindings == View(t).bindings;
  }

  lemma {:induction false} ModelConcat(v: Topology, a: seq<Op>, b: seq<Op>)
    ensures ExecModel(v, a + b) == ExecModel(ExecModel(v, a), b)
    decreases |a|
  {
    if a == [] {
      assert a + b == b;
    } else {
      ModelConcat(ApplyModel(v, a[0]), a[1..], b);
      assert (a + b)[1..] == a[1..] + b;
    }
  }

  lemma ModelSnoc(v: Topology, a: seq<Op>, op: Op)
    ensures ExecModel(v, a + [op]) == ApplyModel(ExecModel(v, a), op)
  {
    ModelConcat(v, a, [op]);
    var u := ExecModel(v, a);
    assert ExecModel(u, [op]) == ExecModel(ApplyModel(u, op), []);
  }

  /** What the names of `order` are declared as. */
  function DeclaredAmong(order: seq<Name>, t: Table): (r: map<Name, Spec>)
    requires Complete(t)
  {
    map n | n in t && n in order && t[n].isDeclared :: SpecOf(t[n])
  }

  lemma {:induction false} DeclaresRebuild(order: seq<Name>, t: Table)
    requires Complete(t)
    ensures ExecModel(Topology(map[], {}), DeclareOps(order, t)) == Topology(DeclaredAmong(order, t), {})
    decreases |order|
  {
    if order == [] {
      assert DeclaredAmong(order, t) == map[];
    } else {
      var init, n := order[..|order| - 1], order[|order| - 1];
      assert order == init + [n];
      DeclaresRebuild(init, t);
      if n in t && t[n].isDeclared {
        var op := Declare(n, Spec(t[n].kind, OrDefault(t[n].options), OrDefault(t[n].arguments)));
        ModelSnoc(Topology(map[], {}), DeclareOps(init, t), op);
        assert DeclaredAmong(order, t) == DeclaredAmong(init, t)[n := op.spec];
      } else {
        assert DeclareOps(order, t) == DeclareOps(init, t);
        assert DeclaredAmong(order, t) == DeclaredAmong(init, t);
      }
    }
  }

  lemma {:induction false} BindAllRebuilds(v: Topology, n: Name, bs: seq<Binding>)
    ensures ExecModel(v, BindAll(n, bs)) == Topology(v.declared, v.bindings + set b | b in bs :: (n, b))
    decreases |bs|
  {
    if bs != [] {
      var init, b := bs[..|bs| - 1], bs[|bs| - 1];
      assert bs == init + [b];
      BindAllRebuilds(v, n, init);
      ModelSnoc(v, BindAll(n, init), Bind(n, b));
    }
  }

  /** The bindings of the names of `order`. */
  function BoundAmong(order: seq<Name>, t: Table): (r: set<(Name, Binding)>) {
    set n, b | n in t && n in order && b in t[n].bindings :: (n, b)
  }

  lemma {:induction false} BindsRebuild(v: Topology, order: seq<Name>, t: Table)
    ensures ExecModel(v, BindOps(order, t)) == Topology(v.declared, v.bindings + BoundAmong(order, t))
    decreases |order|
  {
    if order != [] {
      var init, n := order[..|order| - 1], order[|order| - 1];
      assert order == init + [n];
      BindsRebuild(v, init, t);
      var bs := Lookup(t, n).bindings;
      ModelConcat(v, BindOps(init, t), BindAll(n, bs));
      BindAllRebuilds(ExecModel(v, BindOps(init, t)), n, bs);
      assert BoundAmong(order, t) == BoundAmong(init, t) + set b | b in bs :: (n, b);
    }
  }

  /** What the replay is for: sent to a broker that has lost everything, it brings
      back exactly the topology the registry tells of. */
  lemma ReplayRebuilds(order: seq<Name>, t: Table)
    requires Complete(t) && Lists(order, t)
    ensures ExecModel(Topology(map[], {}), ReplayOps(order, t)) == View(t)
  {
    var v := Topology(DeclaredAmong(order, t), {});
    DeclaresRebuild(order, t);
    ModelConcat(Topology(map[], {}), DeclareOps(order, t), BindOps(order, t));
    BindsRebuild(v, order, t);
    assert DeclaredAmong(order, t) == View(t).declared;
    assert BoundAmong(order, t) == View(t).bindings;
  }

  /** One recovery after the other, each replaying the table it finds in an
      order of its own. */
  function Replayed(t: Table, orders: seq<seq<Name>>): (r: Table) {
    if orders == [] then t
    else
      var before := Replayed(t, orders[..|orders| - 1]);
      Exec(before, ReplayOps(orders[|orders| - 1], before))
  }

  function Pow2(n: nat): (p: nat) {
    if n == 0 then 1 else 2 * Pow2(n - 1)
  }

  /** However many recoveries there are, and in whatever orders they replay: the
      topology stays what it was, and each doubles the lists again. */
  lemma {:induction false} ListsGrow(t: Table, orders: seq<seq<Name>>)
    requires Complete(t) && forall order :: order in orders ==> Lists(order, t)
    ensures
      var r := Replayed(t, orders);
      && Complete(r) && r.Keys == t.Keys && View(r) == View(t)
      && forall n :: n in t ==> |r[n].bindings| == Pow2(|orders|) * |t[n].bindings|
    decreases |orders|
  {
    if orders != [] {
      var init, order := orders[..|orders| - 1], orders[|orders| - 1];
      assert order in orders;
      ListsGrow(t, init);
      ReplayIdempotent(order, Replayed(t, init));
      forall n | n in t ensures |Replayed(t, orders)[n].bindings| == Pow2(|orders|) * |t[n].bindings| {
        TwiceAsMany(Pow2(|init|), |t[n].bindings|);
      }
    }
  }

  lemma TwiceAsMany(a: nat, b: nat)
    ensures a * b + a * b == (2 * a) * b
  {
  }

  /** One unbind removes every copy, however many recoveries there were. */
  lemma UnbindRemovesAll(t: Table, n: Name, b: Binding)
    requires n in t
    ensures b !in Apply(t, Unbind(n, b))[n].bindings
    ensures forall x :: x != b ==> (x in Apply(t, Unbind(n, b))[n].bindings <==> x in t[n].bindings)
  {
    WithoutAll(t[n].bindings, b);
  }

  // ---- the order of a whole replay ----

  datatype Sent = Exchange(op: Op) | Queue(op: Op)

  function OnExchanges(ops: seq<Op>): (r: seq<Sent>)
    ensures |r| == |ops| && forall i :: 0 <= i < |r| ==> r[i] == Exchange(ops[i])
  {
    seq(|ops|, i requires 0 <= i < |ops| => Exchange(ops[i]))
  }

  function OnQueues(ops: seq<Op>): (r: seq<Sent>)
    ensures |r| == |ops| && forall i :: 0 <= i < |r| ==> r[i] == Queue(ops[i])
  {
    seq(|ops|, i requires 0 <= i < |ops| => Queue(ops[i]))
  }

  function Four(a: seq<Op>, b: seq<Op>, c: seq<Op>, d: seq<Op>): (r: seq<Sent>) {
    OnExchanges(a) + OnExchanges(b) + OnQueues(c) + OnQueues(d)
  }

  /** Exchanges, their bindings, queues, their bindings. */
  function Replay(exchangeOrder: seq<Name>, exchanges: Table, queueOrder: seq<Name>, queues: Table): (r: seq<Sent>) {
    Four(DeclareOps(exchangeOrder, exchanges), BindOps(exchangeOrder, exchanges),
         DeclareOps(queueOrder, queues), BindOps(queueOrder, queues))
  }

  lemma {:induction false} DeclareSent(order: seq<Name>, t: Table, n: Name)
    requires n in order && n in t && t[n].isDeclared
    ensures exists i :: 0 <= i < |DeclareOps(order, t)| && DeclareOps(order, t)[i].Declare? && DeclareOps(order, t)[i].name == n
    decreases |order|
  {
    var init, last := order[..|order| - 1], order[|order| - 1];
    var ops := DeclareOps(order, t);
    if last == n {
      assert ops[|ops| - 1].Declare? && ops[|ops| - 1].name == n;
    } else {
      assert n in init;
      DeclareSent(init, t, n);
      var i :| 0 <= i < |DeclareOps(init, t)| && DeclareOps(init, t)[i].Declare? && DeclareOps(init, t)[i].name == n;
      assert ops[i] == DeclareOps(init, t)[i];
    }
  }

  lemma {:induction false} OnlyDeclares(order: seq<Name>, t: Table)
    ensures forall i :: 0 <= i < |DeclareOps(order, t)| ==> DeclareOps(order, t)[i].Declare?
    decreases |order|
  {
    if order != [] {
      OnlyDeclares(order[..|order| - 1], t);
    }
  }

  /** Some declaration of `x` comes before position `i`. */
  ghost predicate DeclaredBefore(all: seq<Sent>, i: nat, exchange: bool, n: Name)
    requires i <= |all|
  {
    exists j :: 0 <= j < i && all[j].Exchange? == exchange && all[j].op.Declare? && all[j].op.name == n
  }

  /** Every binding is sent after the declarations of both its ends, as far as
      the snapshot declares them. */
  lemma BindsComeLast(exchangeOrder: seq<Name>, exchanges: Table, queueOrder: seq<Name>, queues: Table, i: nat)
    requires Lists(exchangeOrder, exchanges) && Lists(queueOrder, queues)
    requires i < |Replay(exchangeOrder, exchanges, queueOrder, queues)|
    requires Replay(exchangeOrder, exchanges, queueOrder, queues)[i].op.Bind?
    ensures
      var all := Replay(exchangeOrder, exchanges, queueOrder, queues);
      var bind := all[i].op;
      && (bind.binding.source in exchanges && exchanges[bind.binding.source].isDeclared ==>
            DeclaredBefore(all, i, true, bind.binding.source))
      && (all[i].Exchange? && bind.name in exchanges && exchanges[bind.name].isDeclared ==>
            DeclaredBefore(all, i, true, bind.name))
      && (all[i].Queue? && bind.name in queues && queues[bind.name].isDeclared ==>
            DeclaredBefore(all, i, false, bind.name))
  {
    var a, b := DeclareOps(exchangeOrder, exchanges), BindOps(exchangeOrder, exchanges);
    var c, d := DeclareOps(queueOrder, queues), BindOps(queueOrder, queues);
    OnlyDeclares(exchangeOrder, exchanges);
    OnlyDeclares(queueOrder, queues);
    BindPosition(a, b, c, d, i);
    forall n | n in exchanges && exchanges[n].isDeclared
      ensures DeclaredBefore(Four(a, b, c, d), i, true, n)
    {
      DeclareSent(exchangeOrder, exchanges, n);
      ExchangeFirst(a, b, c, d, i, n);
    }
    if Four(a, b, c, d)[i].Queue? {
      forall n | n in queues && queues[n].isDeclared
        ensures DeclaredBefore(Four(a, b, c, d), i, false, n)
      {
        DeclareSent(queueOrder, queues, n);
        QueueFirst(a, b, c, d, i, n);
      }
    }
  }

  /** A binding is past the declarations of its kind. */
  lemma BindPosition(a: seq<Op>, b: seq<Op>, c: seq<Op>, d: seq<Op>, i: nat)
    requires i < |Four(a, b, c, d)| && Four(a, b, c, d)[i].op.Bind?
    requires forall j :: 0 <= j < |a| ==> a[j].Declare?
    requires forall j :: 0 <= j < |c| ==> c[j].Declare?
    ensures |a| <= i && (Four(a, b, c, d)[i].Queue? ==> |a| + |b| + |c| <= i)
  {
    FourAt(a, b, c, d, i);
  }

  lemma FourAt(a: seq<Op>, b: seq<Op>, c: seq<Op>, d: seq<Op>, i: nat)
    requires i < |Four(a, b, c, d)|
    ensures Four(a, b, c, d)[i] ==
            if i < |a| then Exchange(a[i])
            else if i < |a| + |b| then Exchange(b[i - |a|])
            else if i < |a| + |b| + |c| then Queue(c[i - |a| - |b|])
            else Queue(d[i - |a| - |b| - |c|])
  {
  }

  lemma ExchangeFirst(a: seq<Op>, b: seq<Op>, c: seq<Op>, d: seq<Op>, i: nat, n: Name)
    requires |a| <= i <= |Four(a, b, c, d)|
    requires exists j :: 0 <= j < |a| && a[j].Declare? && a[j].name == n
    ensures DeclaredBefore(Four(a, b, c, d), i, true, n)
  {
    var j :| 0 <= j < |a| && a[j].Declare? && a[j].name == n;
    assert Four(a, b, c, d)[j] == Exchange(a[j]);
  }

  lemma QueueFirst(a: seq<Op>, b: seq<Op>, c: seq<Op>, d: seq<Op>, i: nat, n: Name)
    requires |a| + |b| + |c| <= i <= |Four(a, b, c, d)|
    requires exists j :: 0 <= j < |c| && c[j].Declare? && c[j].name == n
    ensures DeclaredBefore(Four(a, b, c, d), i, false, n)
  {
    var j :| 0 <= j < |c| && c[j].Declare? && c[j].name == n;
    assert Four(a, b, c, d)[|a| + |b| + j] == Queue(c[j]);
  }

  // ---- the code ----

  class ChannelRegistry {
    var exchanges: Table
    var queues: Table

    constructor ()
      ensures exchanges == map[] && queues == map[]
    {
      exchanges, queues := map[], map[];
    }

    method RegisterExchange(name: Name, kind: nat, options: nat, arguments: nat)
      modifies this`exchanges
      ensures exchanges == Apply(old(exchanges), Declare(name, Spec(Some(kind), options, arguments)))
    {
      if name in exchanges {
        exchanges := exchanges[name := Definition(Some(kind), Some(options), Some(arguments), exchanges[name].bindings, true)];
      } else {
        exchanges := exchanges[name := Definition(Some(kind), Some(options), Some(arguments), [], true)];
      }
    }

    method DeregisterExchange(name: Name)
      modifies this`exchanges
      ensures exchanges == Apply(old(exchanges), Delete(name))
    {
      exchanges := exchanges - {name};
    }

    method RegisterExchangeBinding(destination: Name, source: Name, routingKey: nat, arguments: nat)
      modifies this`exchanges
      ensures exchanges == Apply(old(exchanges), Bind(destination, Binding(source, routingKey, arguments)))
    {
      if destination !in exchanges {
        exchanges := exchanges[destination := UNDECLARED];
      }
      var d := exchanges[destination];
      exchanges := exchanges[destination :=
        Definition(d.kind, d.options, d.arguments, d.bindings + [Binding(source, routingKey, arguments)], d.isDeclared)];
    }

    method DeregisterExchangeBinding(destination: Name, source: Name, routingKey: nat, arguments: nat)
      modifies this`exchanges
      ensures exchanges == Apply(old(exchanges), Unbind(destination, Binding(source, routingKey, arguments)))
    {
      if destination in exchanges {
        var d := exchanges[destination];
        var kept := Retain(d.bindings, Binding(source, routingKey, arguments));
        exchanges := exchanges[destination := Definition(d.kind, d.options, d.arguments, kept, d.isDeclared)];
      }
    }

    method RegisterQueue(name: Name, options: nat, arguments: nat)
      modifies this`queues
      ensures queues == Apply(old(queues), Declare(name, Spec(None, options, arguments)))
    {
      if name in queues {
        queues := queues[name := Definition(None, Some(options), Some(arguments), queues[name].bindings, true)];
      } else {
        queues := queues[name := Definition(None, Some(options), Some(arguments), [], true)];
      }
    }

    method DeregisterQueue(name: Name)
      modifies this`queues
      ensures queues == Apply(old(queues), Delete(name))
    {
      queues := queues - {name};
    }

    method RegisterQueueBinding(destination: Name, source: Name, routingKey: nat, arguments: nat)
      modifies this`queues
      ensures queues == Apply(old(queues), Bind(destination, Binding(source, routingKey, arguments)))
    {
      if destination !in queues {
        queues := queues[destination := UNDECLARED];
      }
      var d := queues[destination];
      queues := queues[destination :=
        Definition(d.kind, d.options, d.arguments, d.bindings + [Binding(source, routingKey, arguments)], d.isDeclared)];
    }

    method DeregisterQueueBinding(destination: Name, source: Name, routingKey: nat, arguments: nat)
      modifies this`queues
      ensures queues == Apply(old(queues), Unbind(destination, Binding(source, routingKey, arguments)))
    {
      if destination in queues {
        var d := queues[destination];
        var kept := Retain(d.bindings, Binding(source, routingKey, arguments));
        queues := queues[destination := Definition(d.kind, d.options, d.arguments, kept, d.isDeclared)];
      }
    }
  }

  method Retain(bs: seq<Binding>, b: Binding) returns (kept: seq<Binding>)
    ensures kept == Without(bs, b)
    ensures forall x :: x in kept <==> x in bs && x != b
  {
    kept := [];
    for i := 0 to |bs|
      invariant kept == Without(bs[..i], b)
    {
      if bs[i] != b {
        kept := kept + [bs[i]];
      }
      assert bs[..i + 1][..i] == bs[..i];
    }
    assert bs[..|bs|] == bs;
    WithoutAll(bs, b);
  }
}
