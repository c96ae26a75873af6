/** The ring buffer of src/buffer.rs.

    `Buffer` is the class over an array.  Its simple form is `Linear`: all the
    cells of the ring read in ring order from `position`, of which the first
    `available` are the queued bytes.  Wrap-around is invisible in `Linear`,
    and every method is proved to act on it.
 */
module RingBuffer {
  import opened Bytes
  import opened Parsing

  /** The ring unrolled: the queue's bytes first, then the free cells. */
  datatype Linear = Linear(cells: seq<byte>, available: nat) {
    predicate Valid() {
      0 < |cells| && available <= |cells|
    }

    function Space(): (n: nat)
      requires Valid()
    {
      |cells| - available
    }

    function Contents(): (s: seq<byte>)
      requires Valid()
    {
      cells[..available]
    }

    /** The effect of writing `data` into the free cells. */
    function Append(data: seq<byte>): (r: Linear)
      requires Valid() && |data| <= Space()
      ensures r.Valid() && |r.cells| == |cells|
    {
      Linear(Overwrite(cells, available, data), available + |data|)
    }

    /** Claim `n` free cells, whatever they hold. */
    function Reserve(n: nat): (r: Linear)
      requires Valid() && n <= Space()
      ensures r.Valid()
    {
      Linear(cells, available + n)
    }

    /** Drop `n` bytes from the front; their cells become the last free ones. */
    function Drop(n: nat): (r: Linear)
      requires Valid() && n <= available
      ensures r.Valid() && |r.cells| == |cells|
      ensures r.Contents() == Contents()[n..]
    {
      Linear(cells[n..] + cells[..n], available - n)
    }

    /** Rolling back to a mark that lies `available - mark` bytes before the
        end.  A full turn of the ring is indistinguishable from no move. */
    function RollBack(mark: nat): (r: Linear)
      requires Valid() && mark <= available
      ensures r.Valid() && |r.cells| == |cells|
    {
      if available - mark == |cells| then this else Linear(cells, mark)
    }

    /** Rolling forward again to a mark that lies after the end. */
    function RollForward(mark: nat): (r: Linear)
      requires Valid() && available <= mark <= |cells|
      ensures r.Valid() && |r.cells| == |cells|
    {
      if mark - available == |cells| then this else Linear(cells, mark)
    }
  }

  /** A checkpoint remembers an index into the ring and a direction. */
  datatype Checkpoint = Checkpoint(end: nat, backwards: bool)

  /** How far `to` lies after `from` on a ring of `capacity` cells. */
  function Distance(from: nat, to: nat, capacity: nat): (d: nat)
    requires from < capacity && to < capacity
    ensures d < capacity
  {
    if from == to then 0
    else if to > from then to - from
    else to + (capacity - from)
  }

  /** An index advanced past the capacity wraps once. */
  function Wrapped(x: nat, capacity: nat): (r: nat)
    requires 0 < capacity && x < 2 * capacity
    ensures r == if x < capacity then x else x - capacity
  {
    WrapOnce(x, capacity);
    x % capacity
  }

  lemma WrapOnce(x: nat, capacity: nat)
    requires 0 < capacity && x < 2 * capacity
    ensures x % capacity == if x < capacity then x else x - capacity
  {
    if x >= capacity {
      assert x % capacity == (x - capacity) % capacity;
    }
  }

  /** The index on the ring of the `i`-th cell counted from `position`. */
  function At(position: nat, i: nat, capacity: nat): (k: nat)
    requires position < capacity && i < capacity
    ensures k < capacity
  {
    if position + i < capacity then position + i else position + i - capacity
  }

  /** All cells of a ring, read from `position` around. */
  function Unroll(memory: seq<byte>, position: nat): (s: seq<byte>)
    requires position < |memory|
    ensures |s| == |memory|
    ensures forall i :: 0 <= i < |s| ==> s[i] == memory[At(position, i, |memory|)]
  {
    memory[position..] + memory[..position]
  }

  /** Advancing `position` by `n` rotates the cells by `n`. */
  lemma UnrollAdvance(memory: seq<byte>, position: nat, n: nat)
    requires position < |memory| && n <= |memory|
    ensures Unroll(memory, Wrapped(position + n, |memory|)) ==
            Unroll(memory, position)[n..] + Unroll(memory, position)[..n]
  {
  }

  /** Writing `data` at ring indices after `available` overwrites the unrolled
      cells from `available` on, and no others. */
  lemma UnrollOverwrite(before: seq<byte>, after: seq<byte>, position: nat, available: nat, data: seq<byte>)
    requires |before| == |after| && position < |before| && available + |data| <= |before|
    requires forall i {:trigger At(position, i, |after|)} :: 0 <= i < |after| ==>
      after[At(position, i, |after|)] ==
      if available <= i < available + |data| then data[i - available]
      else before[At(position, i, |after|)]
    ensures Unroll(after, position) == Overwrite(Unroll(before, position), available, data)
  {
    var u, v := Unroll(after, position), Overwrite(Unroll(before, position), available, data);
    forall i | 0 <= i < |u|
      ensures u[i] == v[i]
    {
      assert after[At(position, i, |after|)] == u[i];
    }
  }

  /** The parser input over a ring: one slice, or the tail then the front. */
  function RingView(memory: seq<byte>, position: nat, end: nat, available: nat): (v: ParsingContext)
    requires position < |memory| && end < |memory|
  {
    if available == 0 then OfSlice(Slice(end, []))
    else if end > position then OfSlice(Slice(position, memory[position..end]))
    else ParsingContext(Slice(position, memory[position..]), Slice(0, memory[..end]))
  }

  /** How far into the queue the input `v` starts, from pointers alone. */
  function RingOffset(capacity: nat, position: nat, v: ParsingContext): (n: nat)
    requires position < capacity
  {
    if position < v.first.ptr then v.first.ptr - position
    else v.first.ptr + capacity - position
  }

  function EndOf(position: nat, available: nat, capacity: nat): (end: nat)
    requires position < capacity && available <= capacity
    ensures end < capacity
  {
    if position + available < capacity then position + available else position + available - capacity
  }

  /** `v` is what is left of the ring's input after `k` bytes: still in the
      first slice, or in what was the second one. */
  ghost predicate IsRest(capacity: nat, position: nat, available: nat, v: ParsingContext, k: nat)
    requires position < capacity && available <= capacity
  {
    var straight := position + available < capacity;
    var head := if straight then available else capacity - position;
    var next := if straight then position + available else 0;
    && k <= available
    && |v.Flat()| == available - k
    && (if k < head then
          && v.first.ptr == position + k && |v.first.data| == head - k
          && v.second.ptr == next
        else
          && v.first.ptr == next + (k - head) && |v.first.data| == available - k
          && v.second.ptr == next + (available - head))
  }

  lemma {:induction false} ChainRest(capacity: nat, position: nat, available: nat,
                                     v: ParsingContext, k: nat, steps: seq<Step>)
    requires position < capacity && available <= capacity
    requires IsRest(capacity, position, available, v, k)
    requires OnlyAdvances(steps) && Chain(v, steps).Some?
    ensures IsRest(capacity, position, available, Chain(v, steps).value, k + Advanced(steps))
    decreases |steps|
  {
    if steps != [] {
      var w := Apply(v, steps[0]).value;
      assert steps[0] in steps;
      RestStep(capacity, position, available, v, k, steps[0]);
      ChainRest(capacity, position, available, w, k + steps[0].index, steps[1..]);
    }
  }

  lemma RestStep(capacity: nat, position: nat, available: nat, v: ParsingContext, k: nat, step: Step)
    requires position < capacity && available <= capacity
    requires IsRest(capacity, position, available, v, k)
    requires (step.Skip? || step.SplitRest?) && Apply(v, step).Some?
    ensures IsRest(capacity, position, available, Apply(v, step).value, k + step.index)
  {
    assert Apply(v, step) == v.TakeFrom(step.index);
  }

  /** The offset computed from pointers is the number of bytes parsed, for
      every layout of the ring and every chain of parser steps, exactly when
      something was parsed.  (With nothing parsed it is the whole capacity.) */
  lemma OffsetExact(memory: seq<byte>, position: nat, available: nat, steps: seq<Step>)
    requires position < |memory| && available <= |memory| && OnlyAdvances(steps)
    requires Chain(RingView(memory, position, EndOf(position, available, |memory|), available), steps).Some?
    ensures
      var v := RingView(memory, position, EndOf(position, available, |memory|), available);
      var k := Advanced(steps);
      && k <= available
      && v.Flat() == Unroll(memory, position)[..available]
      && (RingOffset(|memory|, position, Chain(v, steps).value) == k <==> k > 0)
  {
    var v := RingView(memory, position, EndOf(position, available, |memory|), available);
    assert v.Flat() == Unroll(memory, position)[..available];
    ChainRest(|memory|, position, available, v, 0, steps);
  }

  /** The memory after a wrapped tail of `end` bytes moved into `growth` new cells. */
  function TailMoved(memory: seq<byte>, end: nat, growth: nat): (s: seq<byte>)
    requires growth <= end <= |memory|
    ensures |s| == |memory| + growth
  {
    memory[growth..end] + memory[end - growth..] + memory[..growth]
  }

  lemma TailMovedIs(m: seq<byte>, end: nat, growth: nat)
    requires growth <= end && end + growth <= |m|
    ensures
      var base := |m| - growth;
      var filled := Overwrite(m, base, m[..growth]);
      Overwrite(filled, 0, filled[growth..end]) == TailMoved(m[..base], end, growth)
  {
    var base := |m| - growth;
    var filled := Overwrite(m, base, m[..growth]);
    assert filled == m[..base] + m[..growth];
    assert filled[growth..end] == m[growth..end];
    assert filled[end - growth..] == m[..base][end - growth..] + m[..growth];
  }

  lemma TailMovedContents(memory: seq<byte>, position: nat, available: nat, growth: nat)
    requires position < |memory| && 0 < available <= |memory|
    requires growth <= EndOf(position, available, |memory|) <= position
    ensures
      var m := TailMoved(memory, EndOf(position, available, |memory|), growth);
      Unroll(m, position)[..available] == Unroll(memory, position)[..available]
  {
    var end := EndOf(position, available, |memory|);
    var m := TailMoved(memory, end, growth);
    assert Unroll(memory, position)[..available] == memory[position..] + memory[..end];
    assert m[position..] == memory[position..] + memory[..growth];
    assert m[..end - growth] == memory[growth..end];
    assert Unroll(m, position)[..available] == m[position..] + m[..end - growth];
  }

  lemma UnrollLonger(memory: seq<byte>, longer: seq<byte>, position: nat, available: nat)
    requires position < |memory| && available <= |memory| && memory <= longer
    requires available == 0 || position + available < |memory|
    ensures Unroll(longer, position)[..available] == Unroll(memory, position)[..available]
  {
  }

  /** What `Grow` did. */
  datatype Growth = Unneeded | Grown | Panicked

  class Buffer {
    var memory: array<byte>
    var capacity: nat
    var position: nat
    var end: nat
    var available: nat

    ghost predicate Valid()
      reads this
    {
      && 0 < capacity == memory.Length
      && position < capacity
      && available <= capacity
      && end == EndOf(position, available, capacity)
    }

    ghost function Cells(): (s: seq<byte>)
      requires Valid()
      reads this, memory
      ensures |s| == capacity
    {
      Unroll(memory[..], position)
    }

    ghost function View(): (l: Linear)
      requires Valid()
      reads this, memory
      ensures l.Valid()
    {
      Linear(Cells(), available)
    }

    ghost function Contents(): (s: seq<byte>)
      requires Valid()
      reads this, memory
    {
      View().Contents()
    }

    ghost function Queue(): (q: Fifo)
      requires Valid()
      reads this, memory
      ensures q.Valid()
    {
      Fifo(Contents(), capacity, position)
    }

    constructor (capacity: nat)
      ensures fresh(memory) && this.capacity == capacity && position == end == 0
      ensures capacity > 0 ==> Valid() && Contents() == []
    {
      this.memory := new byte[capacity](_ => 0);
      this.capacity := capacity;
      this.position := 0;
      this.end := 0;
      this.available := 0;
    }

    method Reset()
      requires Valid()
      modifies this`position, this`end, this`available
      ensures Valid() && Contents() == [] && position == 0
    {
      position := 0;
      end := 0;
      available := 0;
    }

    function AvailableSpace(): (n: nat)
      requires Valid()
      reads this
    {
      capacity - available
    }

    method MakeCheckpoint() returns (c: Checkpoint)
      requires Valid()
      ensures c == Checkpoint(end, true)
    {
      c := Checkpoint(end, true);
    }

    /** Move the end to a checkpoint.  The precondition is that the counter
        neither underflows nor exceeds the capacity. */
    method Rollback(c: Checkpoint)
      requires Valid() && c.end < capacity
      requires c.backwards ==> Distance(c.end, end, capacity) <= available
      requires !c.backwards ==> available + Distance(end, c.end, capacity) <= capacity
      modifies this`available, this`end
      ensures Valid() && end == c.end
      ensures available == if c.backwards then old(available) - Distance(c.end, old(end), capacity)
                           else old(available) + Distance(old(end), c.end, capacity)
    {
      if c.end == end {
        return;
      }
      if c.backwards {
        if end > c.end {
          available := available - (end - c.end);
        } else {
          available := available - (end + (capacity - c.end));
        }
      } else if end > c.end {
        available := available + (capacity - end) + c.end;
      } else {
        available := available + (c.end - end);
      }
      end := c.end;
    }

    /** Drop up to `count` bytes from the front. */
    method Consume(count: nat) returns (cnt: nat)
      requires Valid()
      modifies this`position, this`available
      ensures Valid() && cnt == Min(count, old(available))
      ensures View() == old(View()).Drop(cnt)
      ensures Contents() == old(Contents())[cnt..]
      ensures position == Wrapped(old(position) + cnt, capacity)
    {
      cnt := Min(count, available);
      UnrollAdvance(memory[..], position, cnt);
      position := Wrapped(position + cnt, capacity);
      available := available - cnt;
      assert View() == old(View()).Drop(cnt);
    }

    /** Claim up to `count` free cells, whatever they hold. */
    method Fill(count: nat) returns (cnt: nat)
      requires Valid()
      modifies this`end, this`available
      ensures Valid() && cnt == Min(count, old(AvailableSpace()))
      ensures View() == old(View()).Reserve(cnt)
    {
      cnt := Min(count, AvailableSpace());
      end := Wrapped(end + cnt, capacity);
      available := available + cnt;
    }

    /** Copy as much of `data` as fits into `memory[start..limit]`. */
    method CopyInto(start: nat, limit: nat, data: seq<byte>) returns (n: nat)
      requires start <= limit <= memory.Length
      modifies memory
      ensures n == Min(|data|, limit - start)
      ensures forall i :: 0 <= i < memory.Length ==>
        memory[i] == if start <= i < start + n then data[i - start] else old(memory[i])
    {
      n := Min(|data|, limit - start);
      forall i | 0 <= i < n {
        memory[start + i] := data[i];
      }
    }

    /** What a reader of `data` leaves in the free cells: it fills the slices it
        is handed in order.  The end does not move until `Fill` is called. */
    method ReadFrom(data: seq<byte>) returns (amt: nat)
      requires Valid()
      modifies memory
      ensures Valid() && amt == Min(|data|, AvailableSpace())
      ensures Cells() == Overwrite(old(Cells()), available, data[..amt])
    {
      ghost var before := memory[..];
      if AvailableSpace() == 0 {
        amt := 0;
      } else if end >= position {
        amt := CopyInto(end, capacity, data);
        if amt == capacity - end {
          var more := CopyInto(0, position, data[amt..]);
          amt := amt + more;
        }
      } else {
        amt := CopyInto(end, position, data);
      }
      UnrollOverwrite(before, memory[..], position, available, data[..amt]);
    }

    /** Append as much of `data` as fits: the copying is the same as above. */
    method Write(data: seq<byte>) returns (amt: nat)
      requires Valid()
      modifies this`end, this`available, memory
      ensures Valid() && amt == Min(|data|, old(AvailableSpace()))
      ensures View() == old(View()).Append(data[..amt])
      ensures Queue() == FifoStep(old(Queue()), Writes(data))
    {
      amt := ReadFrom(data);
      var _ := Fill(amt);
      AppendContents(old(View()), data[..amt]);
    }

    /** The slices offered to the socket: together they are the queue. */
    method WriteSlices() returns (first: seq<byte>, second: seq<byte>)
      requires Valid()
      ensures first + second == Contents()
    {
      if available == 0 {
        first, second := [], [];
      } else if end > position {
        first, second := memory[position..end], [];
      } else {
        first, second := memory[position..], memory[..end];
      }
    }

    function Context(): (v: ParsingContext)
      requires Valid()
      reads this, memory
    {
      RingView(memory[..], position, end, available)
    }

    function Offset(v: ParsingContext): (n: nat)
      requires Valid()
      reads this
    {
      RingOffset(capacity, position, v)
    }

    /** Drop what the parser went through: the input handed to it was the
        queue, and the offset of what it left is what is dropped. */
    method ConsumeParsed(steps: seq<Step>)
      requires Valid() && OnlyAdvances(steps) && 0 < Advanced(steps)
      requires Chain(Context(), steps).Some?
      modifies this`position, this`available
      ensures Valid() && Advanced(steps) <= old(available)
      ensures Contents() == old(Contents())[Advanced(steps)..]
    {
      OffsetExact(memory[..], position, available, steps);
      var consumed := Offset(Chain(Context(), steps).value);
      var _ := Consume(consumed);
    }

    /** `Vec::resize`: a longer memory, zero-filled. */
    method Resize(newSize: nat)
      requires Valid() && capacity < newSize
      modifies this`memory, this`capacity
      ensures fresh(memory) && memory.Length == capacity == newSize
      ensures memory[..old(capacity)] == old(memory[..])
    {
      var larger := new byte[newSize](_ => 0);
      forall i | 0 <= i < memory.Length {
        larger[i] := memory[i];
      }
      memory := larger;
      capacity := newSize;
    }

    /** Copy all of `data` to `memory[start..]`. */
    method CopyAll(start: nat, data: seq<byte>)
      requires start + |data| <= memory.Length
      modifies memory
      ensures memory[..] == Overwrite(old(memory[..]), start, data)
    {
      var _ := CopyInto(start, memory.Length, data);
    }

    /** Move a wrapped tail of `end` bytes into the `growth` new cells, and
        what does not fit there to the front. */
    method MoveTail(growth: nat)
      requires growth <= end && end + growth <= memory.Length == capacity
      modifies this`end, memory
      ensures end == old(end) - growth
      ensures memory[..] == TailMoved(old(memory[..capacity - growth]), old(end), growth)
    {
      var base := capacity - growth;
      ghost var before := memory[..];
      // The head of the tail fills the new cells, the rest moves to the front.
      var head := memory[..growth];
      assert head == before[..growth];
      CopyAll(base, head);
      ghost var filled := memory[..];
      var rest := memory[growth..end];
      assert rest == filled[growth..end];
      CopyAll(0, rest);
      assert memory[..] == Overwrite(filled, 0, filled[growth..end]);
      TailMovedIs(before, end, growth);
      end := end - growth;
    }

    /** Enlarge the buffer.  The branch meant for a short wrapped tail copies
        `end` bytes onto a slice of another length, which panics: the call
        returns exactly when the layout is unwrapped or its tail is no shorter
        than the growth, and then the queue is unchanged. */
    method Grow(newSize: nat) returns (r: Growth)
      requires Valid()
      modifies this
      ensures fresh(memory) || memory == old(memory)
      ensures r.Unneeded? <==> newSize <= old(capacity)
      ensures r.Unneeded? ==> Valid() && View() == old(View()) && memory == old(memory) && position == old(position)
      ensures r.Panicked? <==>
        && newSize > old(capacity)
        && old(available) > 0 && old(end <= position)
        && old(end) < newSize - old(capacity)
      ensures r.Grown? ==>
        && Valid() && fresh(memory) && capacity == newSize
        && Contents() == old(Contents()) && position == old(position)
    {
      if capacity >= newSize {
        return Unneeded;
      }
      var growth := newSize - capacity;
      ghost var before := memory[..];
      Resize(newSize);
      if end <= position && available > 0 {
        if end < growth {
          return Panicked;
        }
        TailMovedContents(before, position, available, growth);
        assert memory[..capacity - growth] == before;
        MoveTail(growth);
      } else {
        UnrollLonger(before, memory[..], position, available);
      }
      return Grown;
    }
  }

  // ---- the buffer as a byte queue ----

  /** The simple form: a sequence of bytes with a limit, and the cell its first
      byte is in. */
  datatype Fifo = Fifo(bytes: seq<byte>, limit: nat, head: nat) {
    predicate Valid() {
      |bytes| <= limit && head < limit
    }
  }

  datatype QueueOp =
    | Writes(data: seq<byte>)
    | Reads(data: seq<byte>)   // a socket read, then `fill` with its result
    | Consumes(count: nat)
    | Resets
    | Grows(size: nat)

  /** Growing panics when the bytes reach the end of the memory, and would not
      reach the end of the enlarged one. */
  predicate Panics(q: Fifo, op: QueueOp) {
    op.Grows? && q.bytes != [] && q.limit <= q.head + |q.bytes| < op.size
  }

  function FifoStep(q: Fifo, op: QueueOp): (r: Fifo)
    requires q.Valid()
    ensures r.Valid()
  {
    match op
    case Writes(data) => Fifo(q.bytes + data[..Min(|data|, q.limit - |q.bytes|)], q.limit, q.head)
    case Reads(data) => Fifo(q.bytes + data[..Min(|data|, q.limit - |q.bytes|)], q.limit, q.head)
    case Consumes(n) =>
      var cnt := Min(n, |q.bytes|);
      Fifo(q.bytes[cnt..], q.limit, Wrapped(q.head + cnt, q.limit))
    case Resets => Fifo([], q.limit, 0)
    case Grows(size) => Fifo(q.bytes, Max(size, q.limit), q.head)
  }

  /** All the operations in turn, or nothing once one of them panics. */
  function FifoRun(q: Fifo, ops: seq<QueueOp>): (r: Option<Fifo>)
    requires q.Valid()
    ensures r.Some? ==> r.value.Valid()
  {
    if ops == [] then Some(q)
    else
      var r := FifoRun(q, ops[..|ops| - 1]);
      var op := ops[|ops| - 1];
      if r.None? || Panics(r.value, op) then None else Some(FifoStep(r.value, op))
  }

  /** A socket read into the free cells, then `fill` with its result. */
  method ReadThenFill(b: Buffer, data: seq<byte>) returns (n: nat)
    requires b.Valid()
    modifies b`end, b`available, b.memory
    ensures b.Valid() && n == Min(|data|, old(b.AvailableSpace()))
    ensures b.Queue() == FifoStep(old(b.Queue()), Reads(data))
  {
    n := b.ReadFrom(data);
    var _ := b.Fill(n);
    AppendContents(old(b.View()), data[..n]);
  }

  method GrowQueue(b: Buffer, size: nat) returns (panicked: bool)
    requires b.Valid()
    modifies b
    ensures fresh(b.memory) || b.memory == old(b.memory)
    ensures panicked <==> Panics(old(b.Queue()), Grows(size))
    ensures !panicked ==> b.Valid() && b.Queue() == FifoStep(old(b.Queue()), Grows(size))
  {
    var r := b.Grow(size);
    panicked := r.Panicked?;
  }

  method Perform(b: Buffer, op: QueueOp) returns (panicked: bool)
    requires b.Valid()
    modifies b, b.memory
    ensures fresh(b.memory) || b.memory == old(b.memory)
    ensures panicked <==> Panics(old(b.Queue()), op)
    ensures !panicked ==> b.Valid() && b.Queue() == FifoStep(old(b.Queue()), op)
  {
    panicked := false;
    match op
    case Writes(data) =>
      var _ := b.Write(data);
    case Reads(data) =>
      var _ := ReadThenFill(b, data);
    case Consumes(count) => var _ := b.Consume(count);
    case Resets => b.Reset();
    case Grows(size) =>
      panicked := GrowQueue(b, size);
  }

  lemma AppendContents(l: Linear, data: seq<byte>)
    requires l.Valid() && |data| <= l.Space()
    ensures l.Append(data).Contents() == l.Contents() + data
  {
  }

  /** The ring refines the queue over every sequence of operations, and panics
      exactly where the queue says. */
  method Replay(b: Buffer, ops: seq<QueueOp>) returns (panicked: bool)
    requires b.Valid()
    modifies b, b.memory
    ensures panicked <==> FifoRun(old(b.Queue()), ops).None?
    ensures !panicked ==> b.Valid() && Some(b.Queue()) == FifoRun(old(b.Queue()), ops)
  {
    for i := 0 to |ops|
      invariant b.Valid() && (fresh(b.memory) || b.memory == old(b.memory))
      invariant Some(b.Queue()) == FifoRun(old(b.Queue()), ops[..i])
    {
      assert ops[..i + 1][..i] == ops[..i];
      panicked := Perform(b, ops[i]);
      if panicked {
        PanicStays(old(b.Queue()), ops, i + 1);
        return;
      }
    }
    assert ops[..|ops|] == ops;
    return false;
  }

  lemma {:induction false} PanicStays(q: Fifo, ops: seq<QueueOp>, i: nat)
    requires q.Valid() && i <= |ops| && FifoRun(q, ops[..i]).None?
    ensures FifoRun(q, ops).None?
    decreases |ops|
  {
    if i == |ops| {
      assert ops[..i] == ops;
    } else {
      assert ops[..|ops| - 1][..i] == ops[..i];
      PanicStays(q, ops[..|ops| - 1], i);
    }
  }

  /** Growing a buffer whose queue touches its end: one byte left in the last
      cell of four, then a resize to eight. */
  method ShortTailPanics() returns (r: Growth)
    ensures r.Panicked?
  {
    var b := new Buffer(4);
    var n := b.Write([1, 2, 3, 4]);
    n := b.Consume(3);
    r := b.Grow(8);
  }
}
