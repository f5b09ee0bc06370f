/**
 * The `add_empty_descriptor_bindings!(builder, previous, next)` procedural
 * macro: it checks that `previous < next` are two binding numbers and emits
 * one `add_empty()` call for every binding number strictly between them.
 */
module EmptyBindings {
  import opened Wrappers

  const I32_MIN: int := -0x8000_0000
  const I32_MAX: int := 0x7FFF_FFFF
  const U32_MAX: int := 0xFFFF_FFFF

  /** The macro's arguments after tokenising: the builder's name and the two integer literals. */
  datatype MacroInput = MacroInput(builder: string, previousLiteral: int, nextLiteral: int)

  /** The validated arguments. */
  datatype Bindings = Bindings(builder: string, previous: int, next: int)

  datatype ParseError =
    | NotAnI32(literal: int)               // `base10_parse::<i32>` fails
    | IllegalBindingId(previous: int)      // previous < -1
    | NotAU32(literal: int)                // `base10_parse::<u32>` fails
    | NotIncreasing(previous: int, next: int)

  /** One emitted statement: `let builder = builder.add_empty()...?;` for binding `index`. */
  datatype EmptyBinding = EmptyBinding(builder: string, index: nat)

  /** Rust's `x as i32` for a `u32` value: the bit pattern read as two's complement. */
  function AsI32(x: int): (r: int)
    requires 0 <= x <= U32_MAX
    ensures I32_MIN <= r <= I32_MAX
    ensures r == x || r == x - 0x1_0000_0000
    ensures x <= I32_MAX <==> r == x
  {
    if x <= I32_MAX then x else x - 0x1_0000_0000
  }

  /** `AddEmptyDescriptorBindings::parse`: the checks, in the order they are made. */
  function Parse(input: MacroInput): (r: Result<Bindings, ParseError>)
    ensures r.Ok? <==> -1 <= input.previousLiteral < input.nextLiteral <= I32_MAX
    ensures r.Ok? ==> r.value == Bindings(input.builder, input.previousLiteral, input.nextLiteral)
    ensures !(I32_MIN <= input.previousLiteral <= I32_MAX) ==> r == Err(NotAnI32(input.previousLiteral))
    ensures I32_MIN <= input.previousLiteral < -1 ==> r == Err(IllegalBindingId(input.previousLiteral))
  {
    var previous := input.previousLiteral;
    var next := input.nextLiteral;
    if !(I32_MIN <= previous <= I32_MAX) then Err(NotAnI32(previous))
    else if previous < -1 then Err(IllegalBindingId(previous))
    else if !(0 <= next <= U32_MAX) then Err(NotAU32(next))
    else if AsI32(next) <= previous then Err(NotIncreasing(previous, next))
    else Ok(Bindings(input.builder, previous, next))
  }

  /**
   * A `next` of 2^31 or more is a valid `u32` but wraps to a negative `i32`,
   * so the ordering check rejects it whatever `previous` is.
   */
  lemma LargeNextRejected(input: MacroInput)
    requires -1 <= input.previousLiteral <= I32_MAX && I32_MAX < input.nextLiteral <= U32_MAX
    ensures Parse(input) == Err(NotIncreasing(input.previousLiteral, input.nextLiteral))
  {
  }

  /** The binding numbers from `lo` up to, but not including, `hi`. */
  function Range(lo: nat, hi: nat): (r: seq<nat>)
    ensures |r| == if lo <= hi then hi - lo else 0
    ensures forall k | 0 <= k < |r| :: r[k] == lo + k
    decreases hi - lo
  {
    if lo >= hi then [] else [lo] + Range(lo + 1, hi)
  }

  /**
   * `add_empty_descriptor_bindings`: one statement per binding number of
   * `(previous + 1) as u32 .. next`, in increasing order.
   */
  function Expand(b: Bindings): (r: seq<EmptyBinding>)
    requires -1 <= b.previous < b.next
    ensures |r| == b.next - b.previous - 1
    ensures forall k | 0 <= k < |r| :: r[k] == EmptyBinding(b.builder, b.previous + 1 + k)
  {
    var indices := Range(b.previous + 1, b.next);
    seq(|indices|, k requires 0 <= k < |indices| => EmptyBinding(b.builder, indices[k]))
  }

  /** Some statement of `e` adds an empty binding at `i`. */
  predicate Emitted(e: seq<EmptyBinding>, i: int) {
    exists k | 0 <= k < |e| :: e[k].index == i
  }

  /**
   * Every binding number strictly between `previous` and `next` is emitted
   * exactly once, and nothing else is.
   */
  lemma ExpandCoversGap(b: Bindings)
    requires -1 <= b.previous < b.next
    ensures forall i: int :: Emitted(Expand(b), i) <==> b.previous < i < b.next
    ensures forall k, l | 0 <= k < l < |Expand(b)| :: Expand(b)[k].index < Expand(b)[l].index
  {
    var e := Expand(b);
    forall i: int | b.previous < i < b.next
      ensures Emitted(e, i)
    {
      assert e[i - b.previous - 1].index == i;
    }
  }

  /** A parsed invocation emits nothing when the two bindings are adjacent, and starts at 0 after -1. */
  lemma ExpandEdges(input: MacroInput)
    requires Parse(input).Ok?
    ensures Parse(input).value.next == Parse(input).value.previous + 1 ==> Expand(Parse(input).value) == []
    ensures Parse(input).value.previous == -1 && Parse(input).value.next > 0 ==>
              Expand(Parse(input).value)[0].index == 0
  {
  }
}
