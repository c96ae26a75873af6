/** Cyclic identifiers and the channel-id allocator built on them
    (src/id_sequence.rs, `create` in src/channels.rs). */
module ChannelIds {
  import opened Bytes

  /** The value of an id sequence: `id` is the next one to hand out, except
      that 0 stands for 1 when 0 is not allowed. */
  datatype Ids = Ids(allowZero: bool, max: Option<nat>, id: nat) {
    function First(): (n: nat) {
      if allowZero then 0 else 1
    }

    function Upcoming(): (n: nat)
      ensures n >= First()
    {
      if !allowZero && id == 0 then 1 else id
    }

    /** The last one handed out. */
    function Current(): (r: Option<nat>) {
      if id <= First() then max else Some(id - 1)
    }

    function WithMax(m: nat): (r: Ids) {
      Ids(allowZero, if m == 0 then None else Some(m), id)
    }

    function Advance(): (r: Ids) {
      Ids(allowZero, max, if max == Some(Upcoming()) then 0 else Upcoming() + 1)
    }

    /** Advancing stays within a type whose largest value is `top`. */
    predicate FitsIn(top: nat) {
      max == Some(Upcoming()) || Upcoming() < top
    }
  }

  class IdSequence {
    const allowZero: bool
    var max: Option<nat>
    var id: nat

    function State(): (s: Ids)
      reads this
    {
      Ids(allowZero, max, id)
    }

    constructor (allowZero: bool)
      ensures State() == Ids(allowZero, None, 0)
    {
      this.allowZero := allowZero;
      max := None;
      id := 0;
    }

    method SetMax(m: nat)
      modifies this`max
      ensures State() == old(State()).WithMax(m)
    {
      max := if m == 0 then None else Some(m);
    }

    method Next() returns (r: nat)
      modifies this`id
      ensures r == old(State()).Upcoming() && State() == old(State()).Advance()
    {
      if !allowZero && id == 0 {
        id := id + 1;
      }
      r := id;
      if max == Some(r) {
        id := 0;
      } else {
        id := id + 1;
      }
    }
  }

  function Advanced(s: Ids, k: nat): (r: Ids) {
    if k == 0 then s else Advanced(s, k - 1).Advance()
  }

  /** Quotient and remainder determine each other. */
  lemma ModIs(x: nat, q: nat, r: nat, n: nat)
    requires r < n && x == q * n + r
    ensures x % n == r
  {
    var q', r' := x / n, x % n;
    assert x == q' * n + r';
    if q < q' {
      Separate(q, r, q', r', n);
    } else if q' < q {
      Separate(q', r', q, r, n);
    }
  }

  lemma Separate(q: nat, r: nat, q': nat, r': nat, n: nat)
    requires q < q' && r < n
    ensures q * n + r < q' * n + r'
  {
    var d := q' - q - 1;
    assert d * n >= 0;
    assert q' * n == q * n + n + d * n;
  }

  lemma ModNext(x: nat, n: nat)
    requires n > 0
    ensures (x + 1) % n == if x % n == n - 1 then 0 else x % n + 1
  {
    var q, r := x / n, x % n;
    assert x == q * n + r;
    if r == n - 1 {
      assert (q + 1) * n == q * n + n;
      ModIs(x + 1, q + 1, 0, n);
    } else {
      ModIs(x + 1, q, r + 1, n);
    }
  }

  /** With a maximum `m`, the sequence cycles through first..m: the k-th call
      from any state within range hands out the k-th next of that cycle, and no
      call leaves a type that can hold `m`, not even one whose largest value is
      `m`. */
  lemma {:induction false} CyclicIds(s: Ids, m: nat, k: nat, top: nat)
    requires s.max == Some(m) && s.First() <= m <= top && s.Upcoming() <= m
    ensures
      var n := m + 1 - s.First();
      var t := Advanced(s, k);
      && t.max == Some(m) && t.allowZero == s.allowZero
      && t.Upcoming() == s.First() + (s.Upcoming() - s.First() + k) % n
      && t.FitsIn(top)
    decreases k
  {
    var n := m + 1 - s.First();
    if k == 0 {
      ModIs(s.Upcoming() - s.First(), 0, s.Upcoming() - s.First(), n);
    } else {
      CyclicIds(s, m, k - 1, top);
      ModNext(s.Upcoming() - s.First() + k - 1, n);
    }
  }

  /** A fresh sequence without zero, as channels and delivery tags use it. */
  lemma FreshIds(m: nat, k: nat, top: nat)
    requires 1 <= m <= top && 1 <= k
    ensures
      var t := Advanced(Ids(false, Some(m), 0), k - 1);
      t.Upcoming() == (k - 1) % m + 1 && t.FitsIn(top)
  {
    CyclicIds(Ids(false, Some(m), 0), m, k - 1, top);
  }

  /** `current` is the id just handed out, in every state. */
  lemma CurrentIsLast(s: Ids)
    ensures s.Advance().Current() == Some(s.Upcoming())
  {
  }

  /** Setting a maximum keeps every later id within it exactly when the next id
      to be handed out is. */
  lemma RangeIff(s: Ids, m: nat)
    requires s.First() <= m && m > 0
    ensures (forall k: nat :: Advanced(s.WithMax(m), k).Upcoming() <= m) <==> s.Upcoming() <= m
  {
    if s.Upcoming() <= m {
      forall k: nat
        ensures Advanced(s.WithMax(m), k).Upcoming() <= m
      {
        CyclicIds(s.WithMax(m), m, k, m);
      }
    } else {
      assert Advanced(s.WithMax(m), 0).Upcoming() > m;
    }
  }

  // ---- allocating a channel id ----

  function NextId(id: nat, m: nat): (n: nat) {
    if id == m then 1 else id + 1
  }

  /** The first id not in `open` among `steps` ids from `id` on, cyclically. */
  function Scan(open: set<nat>, id: nat, m: nat, steps: nat): (r: Option<nat>)
    decreases steps
  {
    if steps == 0 then None
    else if id !in open then Some(id)
    else Scan(open, NextId(id, m), m, steps - 1)
  }

  function UpTo(m: nat): (s: set<nat>)
    ensures forall i :: i in s <==> 1 <= i <= m
    ensures |s| == m
  {
    if m == 0 then {} else UpTo(m - 1) + {m}
  }

  lemma {:induction false} SubsetSize(a: set<nat>, b: set<nat>)
    requires a <= b
    ensures |a| <= |b|
    decreases a
  {
    if a != {} {
      var x :| x in a;
      SubsetSize(a - {x}, b - {x});
    }
  }

  /** A scan that comes up empty has gone over ids that are all open. */
  lemma {:induction false} ScanMisses(open: set<nat>, id: nat, m: nat, steps: nat)
    requires 1 <= id <= m && steps <= m && Scan(open, id, m, steps).None?
    ensures forall i :: id <= i <= m && i < id + steps ==> i in open
    ensures forall i :: 1 <= i < id && m + i < id + steps ==> i in open
    decreases steps
  {
    if steps > 0 {
      ScanMisses(open, NextId(id, m), m, steps - 1);
      if id == m {
        forall i | 1 <= i < id && m + i < id + steps
          ensures i in open
        {
        }
      }
    }
  }

  lemma {:induction false} ScanHits(open: set<nat>, id: nat, m: nat, steps: nat)
    requires 1 <= id <= m && Scan(open, id, m, steps).Some?
    ensures 1 <= Scan(open, id, m, steps).value <= m && Scan(open, id, m, steps).value !in open
    decreases steps
  {
    if id in open {
      ScanHits(open, NextId(id, m), m, steps - 1);
    }
  }

  /** Pigeonhole: with fewer than `m` channels open, one cycle finds an unused
      id in range, wherever it starts and whatever ids are open. */
  lemma OneCycleSuffices(open: set<nat>, id: nat, m: nat)
    requires 1 <= id <= m && |open| < m
    ensures
      var r := Scan(open, id, m, m);
      r.Some? && 1 <= r.value <= m && r.value !in open
  {
    if Scan(open, id, m, m).None? {
      ScanMisses(open, id, m, m);
      assert UpTo(m) <= open;
      SubsetSize(UpTo(m), open);
      assert false;
    }
    ScanHits(open, id, m, m);
  }

  datatype Created = Created(id: nat) | ChannelsLimitReached

  class Channels {
    var open: set<nat>
    const ids: IdSequence
    var channelMax: nat

    constructor (channelMax: nat)
      ensures Valid() && open == {} && this.channelMax == channelMax && fresh(ids)
    {
      ids := new IdSequence(false);
      open := {};
      this.channelMax := channelMax;
    }

    /** The next id has not run past the maximum. */
    predicate Valid()
      reads this, ids
    {
      !ids.allowZero && (channelMax > 0 ==> ids.State().Upcoming() <= channelMax)
    }

    /** Open a channel under the first unused id in cyclic order.  The error
        after the loop is never reached. */
    method Create() returns (r: Created)
      requires Valid()
      modifies this`open, ids
      ensures Valid()
      ensures r.Created? <==> |old(open)| < channelMax
      ensures r.Created? ==>
        && Some(r.id) == Scan(old(open), old(ids.State().Upcoming()), channelMax, channelMax)
        && 1 <= r.id <= channelMax && r.id !in old(open)
        && open == old(open) + {r.id}
        && ids.State().Upcoming() == NextId(r.id, channelMax)
      ensures r.ChannelsLimitReached? ==> open == old(open)
    {
      ids.SetMax(channelMax);
      if |open| >= channelMax {
        return ChannelsLimitReached;
      }
      ghost var m := channelMax;
      var firstId := ids.Next();
      OneCycleSuffices(open, firstId, m);
      var id := firstId;
      var metFirstId := false;
      ghost var left := m;
      while true
        invariant ids.max == Some(m) && 1 <= id <= m && ids.State().Upcoming() == NextId(id, m)
        invariant open == old(open) && left <= m
        invariant Scan(open, firstId, m, m) == Scan(open, id, m, left)
        invariant !metFirstId <==> left == m
        invariant id == firstId || left < m
        invariant id == (if firstId + (m - left) <= m then firstId + (m - left) else firstId - left)
        decreases left
      {
        if id == firstId {
          if metFirstId {
            assert false;
            break;
          }
          metFirstId := true;
        }
        if id !in open {
          open := open + {id};
          return Created(id);
        }
        id := ids.Next();
        left := left - 1;
      }
      return ChannelsLimitReached;
    }

    /** Channel 0 is always there and stays. */
    method Remove(id: nat) returns (found: bool)
      modifies this`open
      ensures found == (id == 0 || id in old(open))
      ensures open == if id == 0 then old(open) else old(open) - {id}
    {
      if id == 0 {
        return true;
      }
      found := id in open;
      open := open - {id};
    }
  }
}
