/** The two-slice parser input of src/parsing.rs.

    A slice is a pointer together with the bytes it covers.  Pointers are
    indices into the memory of one buffer.  A slice expression that is out of
    range panics in the source; here the operation yields `None`.
 */
module Parsing {
  import opened Bytes

  datatype Slice = Slice(ptr: nat, data: seq<byte>) {
    function From(i: nat): (s: Slice)
      requires i <= |data|
    {
      Slice(ptr + i, data[i..])
    }

    function To(i: nat): (s: Slice)
      requires i <= |data|
    {
      Slice(ptr, data[..i])
    }
  }

  datatype CompareResult = Ok | Incomplete | Error

  /** A single slice as parser input; the second half is its empty end. */
  function OfSlice(s: Slice): (v: ParsingContext)
    ensures v.Flat() == s.data
  {
    ParsingContext(s, s.From(|s.data|))
  }

  datatype ParsingContext = ParsingContext(first: Slice, second: Slice) {
    /** What the parser sees. */
    function Flat(): (s: seq<byte>) {
      first.data + second.data
    }

    function InputLen(): (n: nat)
      ensures n == |Flat()|
    {
      |first.data| + |second.data|
    }

    function Take(count: nat): (r: Option<ParsingContext>)
      ensures r.Some? <==> count <= |Flat()|
      ensures r.Some? ==> r.value.Flat() == Flat()[..count]
    {
      if |first.data| > count then Some(OfSlice(first.To(count)))
      else
        var needed := count - |first.data|;
        if needed <= |second.data| then Some(ParsingContext(first, second.To(needed))) else None
    }

    function TakeFrom(index: nat): (r: Option<ParsingContext>)
      ensures r.Some? <==> index <= |Flat()|
      ensures r.Some? ==> r.value.Flat() == Flat()[index..]
    {
      if |first.data| > index then Some(ParsingContext(first.From(index), second))
      else
        var needed := index - |first.data|;
        if needed <= |second.data| then Some(OfSlice(second.From(needed))) else None
    }

    /** The rest after `index` bytes, then those bytes. */
    function TakeSplit(index: nat): (r: Option<(ParsingContext, ParsingContext)>)
      ensures r.Some? <==> index <= |Flat()|
      ensures r.Some? ==> r.value.0.Flat() == Flat()[index..] && r.value.1.Flat() == Flat()[..index]
    {
      if |first.data| > index then
        Some((ParsingContext(first.From(index), second), OfSlice(first.To(index))))
      else
        var needed := index - |first.data|;
        if needed <= |second.data| then
          Some((OfSlice(second.From(needed)), ParsingContext(first, second.To(needed))))
        else None
    }

    /** Index of the first byte that satisfies `p`. */
    function Position(p: byte -> bool): (r: Option<nat>)
      ensures r.Some? ==> r.value < |Flat()| && p(Flat()[r.value])
      ensures forall i :: 0 <= i < |Flat()| && (r.None? || i < r.value) ==> !p(Flat()[i])
    {
      FirstIndex(Flat(), p)
    }

    /** `Err` carries how many bytes are missing. */
    function SliceIndex(count: nat): (missing: nat)
      ensures missing == 0 <==> Take(count).Some?
      ensures missing > 0 ==> |Flat()| + missing == count
    {
      if InputLen() >= count then 0 else count - InputLen()
    }

    function CompareWith(buf: seq<byte>, same: (byte, byte) -> bool): (r: CompareResult)
      ensures r.Ok? <==> |buf| <= |Flat()| && forall i :: 0 <= i < |buf| ==> same(Flat()[i], buf[i])
      ensures r.Incomplete? <==> |Flat()| < |buf| && forall i :: 0 <= i < |Flat()| ==> same(Flat()[i], buf[i])
    {
      if exists i :: 0 <= i < |Flat()| && i < |buf| && !same(Flat()[i], buf[i]) then Error
      else if InputLen() >= |buf| then Ok
      else Incomplete
    }

    function Compare(buf: seq<byte>): (r: CompareResult)
      ensures r.Ok? <==> buf <= Flat()
      ensures r.Incomplete? <==> Flat() < buf
    {
      CompareWith(buf, (a: byte, b: byte) => a == b)
    }

    function CompareNoCase(buf: seq<byte>): (r: CompareResult) {
      CompareWith(buf, (a: byte, b: byte) => Lower(a) == Lower(b))
    }
  }

  function FirstIndex(s: seq<byte>, p: byte -> bool): (r: Option<nat>)
    ensures r.Some? ==> r.value < |s| && p(s[r.value])
    ensures forall i :: 0 <= i < |s| && (r.None? || i < r.value) ==> !p(s[i])
  {
    if s == [] then None
    else if p(s[0]) then Some(0)
    else match FirstIndex(s[1..], p)
      case None => None
      case Some(i) => Some(i + 1)
  }

  /** ASCII upper case letters to lower case, everything else unchanged. */
  function Lower(b: byte): (r: byte) {
    if 0x41 <= b <= 0x5A then b + 0x20 else b
  }

  /** One parser step on its input. */
  datatype Step =
    | Keep(count: nat)        // `take`
    | Skip(index: nat)        // `take_from`
    | SplitRest(index: nat)   // the rest of `take_split`
    | SplitHead(index: nat)   // the head of `take_split`

  function Apply(v: ParsingContext, step: Step): (r: Option<ParsingContext>) {
    match step
    case Keep(n) => v.Take(n)
    case Skip(n) => v.TakeFrom(n)
    case SplitRest(n) => var r := v.TakeSplit(n); if r.Some? then Some(r.value.0) else None
    case SplitHead(n) => var r := v.TakeSplit(n); if r.Some? then Some(r.value.1) else None
  }

  /** A chain of parser steps; `None` when one of them panics. */
  function Chain(v: ParsingContext, steps: seq<Step>): (r: Option<ParsingContext>)
    decreases |steps|
  {
    if steps == [] then Some(v)
    else match Apply(v, steps[0])
      case None => None
      case Some(w) => Chain(w, steps[1..])
  }

  /** Steps that only ever leave the rest of the input behind. */
  predicate OnlyAdvances(steps: seq<Step>) {
    forall s :: s in steps ==> s.Skip? || s.SplitRest?
  }

  /** How many bytes a chain of advancing steps consumes. */
  function Advanced(steps: seq<Step>): (n: nat)
    requires OnlyAdvances(steps)
  {
    if steps == [] then 0 else steps[0].index + Advanced(steps[1..])
  }

  /** Where the ring wraps is invisible to the parser: two inputs with the same
      bytes stay alike under every chain of steps and answer every query
      alike, panics included. */
  lemma {:induction false} ViewIndependence(v: ParsingContext, w: ParsingContext, steps: seq<Step>)
    requires v.Flat() == w.Flat()
    ensures Chain(v, steps).Some? <==> Chain(w, steps).Some?
    ensures Chain(v, steps).Some? ==>
      var a, b := Chain(v, steps).value, Chain(w, steps).value;
      && a.Flat() == b.Flat()
      && (forall p: byte -> bool :: a.Position(p) == b.Position(p))
      && (forall n: nat :: a.SliceIndex(n) == b.SliceIndex(n))
      && (forall buf: seq<byte> :: a.Compare(buf) == b.Compare(buf))
      && (forall buf: seq<byte> :: a.CompareNoCase(buf) == b.CompareNoCase(buf))
    decreases |steps|
  {
    if steps != [] {
      var a, b := Apply(v, steps[0]), Apply(w, steps[0]);
      if a.Some? {
        ViewIndependence(a.value, b.value, steps[1..]);
      }
    }
  }
}
