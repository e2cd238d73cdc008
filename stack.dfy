/**
 * The TxVM stack substrate: the stack codes, the general stack of tagged
 * values and the stack specialised to tuples.
 *
 * The Go code panics where an index or a type assertion fails; the virtual
 * machine turns such a panic into a failed run. Here each operation that can
 * panic returns the panic as a result, and the stack is left as Go leaves it
 * at the point of the panic.
 */
module Txvm {
  import opened MachineInts
  import opened Values
  import opened Reorder

  // ---------------------------------------------------------------------
  // Stack codes

  /** The stacks a TxVM instruction can address; the last eight belong to
      the legacy protocol version (VM1). */
  datatype StackId =
    | StackData | StackAlt | StackInput | StackValue | StackOutput
    | StackCond | StackNonce | StackAnchor | StackRetirement | StackTxHeader
    | StackVM1Input | StackVM1Value | StackVM1Mux | StackVM1Result
    | StackVM1Cond | StackVM1Nonce | StackVM1Anchor | StackVM1TxHeader
  {
    predicate IsVM1() {
      StackVM1Input? || StackVM1Value? || StackVM1Mux? || StackVM1Result? ||
      StackVM1Cond? || StackVM1Nonce? || StackVM1Anchor? || StackVM1TxHeader?
    }
  }

  /** The numeric code of a stack: 0 to 9 for the current stacks, 10 to 17
      for the VM1 ones. */
  function Code(id: StackId): (c: int64)
    ensures 0 <= c < 18
    ensures c >= 10 <==> id.IsVM1()
  {
    match id
    case StackData => 0
    case StackAlt => 1
    case StackInput => 2
    case StackValue => 3
    case StackOutput => 4
    case StackCond => 5
    case StackNonce => 6
    case StackAnchor => 7
    case StackRetirement => 8
    case StackTxHeader => 9
    case StackVM1Input => 10
    case StackVM1Value => 11
    case StackVM1Mux => 12
    case StackVM1Result => 13
    case StackVM1Cond => 14
    case StackVM1Nonce => 15
    case StackVM1Anchor => 16
    case StackVM1TxHeader => 17
  }

  datatype Option<T> = None | Some(value: T)

  /** The stack a code read by an instruction selects, if any. */
  function StackOfCode(c: int64): (r: Option<StackId>)
    ensures r.Some? <==> 0 <= c < 18
  {
    if c == 0 then Some(StackData)
    else if c == 1 then Some(StackAlt)
    else if c == 2 then Some(StackInput)
    else if c == 3 then Some(StackValue)
    else if c == 4 then Some(StackOutput)
    else if c == 5 then Some(StackCond)
    else if c == 6 then Some(StackNonce)
    else if c == 7 then Some(StackAnchor)
    else if c == 8 then Some(StackRetirement)
    else if c == 9 then Some(StackTxHeader)
    else if c == 10 then Some(StackVM1Input)
    else if c == 11 then Some(StackVM1Value)
    else if c == 12 then Some(StackVM1Mux)
    else if c == 13 then Some(StackVM1Result)
    else if c == 14 then Some(StackVM1Cond)
    else if c == 15 then Some(StackVM1Nonce)
    else if c == 16 then Some(StackVM1Anchor)
    else if c == 17 then Some(StackVM1TxHeader)
    else None
  }

  /** Every stack has its own code, and a code identifies exactly one stack. */
  lemma {:induction false} CodesIdentifyStacks(id: StackId, c: int64)
    ensures StackOfCode(Code(id)) == Some(id)
    ensures StackOfCode(c) == Some(id) ==> Code(id) == c
  {
    match id
    case StackData =>
    case StackAlt =>
    case StackInput =>
    case StackValue =>
    case StackOutput =>
    case StackCond =>
    case StackNonce =>
    case StackAnchor =>
    case StackRetirement =>
    case StackTxHeader =>
    case StackVM1Input =>
    case StackVM1Value =>
    case StackVM1Mux =>
    case StackVM1Result =>
    case StackVM1Cond =>
    case StackVM1Nonce =>
    case StackVM1Anchor =>
    case StackVM1TxHeader =>
  }

  // ---------------------------------------------------------------------
  // Panics

  /** The Go runtime errors the stack operations can raise. */
  datatype Panic =
    | IndexOutOfRange        // s.a[i] with i outside [0, len)
    | SliceBoundsOutOfRange  // s.a[:i] or s.a[i:] with i outside [0, len]
    | InterfaceConversion    // s.Pop().(Bytes) on a value of another variant

  datatype Result<T> = Ok(value: T) | Panicked(cause: Panic)

  datatype Outcome = Done | Failed(cause: Panic)

  // ---------------------------------------------------------------------
  // The general stack

  /** A stack of tagged values; `elems` is the Go slice, bottom first. */
  class Stack {
    var elems: seq<Value>

    constructor ()
      ensures elems == []
    {
      elems := [];
    }

    /** The number of elements. */
    method Len() returns (n: nat)
      ensures n == |elems|
    {
      n := |elems|;
    }

    /** Appends `v` as the new top. */
    method Push(v: Value)
      modifies this
      ensures elems == old(elems) + [v]
      ensures |elems| == |old(elems)| + 1 && elems[|elems| - 1] == v
    {
      elems := elems + [v];
    }

    method PushBytes(b: seq<byte>)
      modifies this
      ensures elems == old(elems) + [Bytes(b)]
    {
      Push(Bytes(b));
    }

    method PushInt64(n: int64)
      modifies this
      ensures elems == old(elems) + [Int64(n)]
    {
      Push(Int64(n));
    }

    method PushTuple(t: seq<Value>)
      modifies this
      ensures elems == old(elems) + [VMTuple(t)]
    {
      Push(VMTuple(t));
    }

    /** Removes and returns the top; on an empty stack, indexing at -1 panics
        and nothing changes. */
    method Pop() returns (r: Result<Value>)
      modifies this
      ensures |old(elems)| == 0 ==> r == Panicked(IndexOutOfRange) && elems == old(elems)
      ensures |old(elems)| > 0 ==>
        && r == Ok(old(elems)[|old(elems)| - 1])
        && elems == old(elems)[..|old(elems)| - 1]
        && old(elems) == elems + [r.value]
    {
      if |elems| == 0 {
        return Panicked(IndexOutOfRange);
      }
      var v := elems[|elems| - 1];
      elems := elems[..|elems| - 1];
      r := Ok(v);
    }

    /** Pops the top and asserts it is a byte string. The element is removed
        before the type assertion, so a mismatch leaves the stack popped. */
    method PopBytes() returns (r: Result<seq<byte>>)
      modifies this
      ensures |old(elems)| == 0 ==> r == Panicked(IndexOutOfRange) && elems == old(elems)
      ensures |old(elems)| > 0 ==>
        && elems == old(elems)[..|old(elems)| - 1]
        && (r.Ok? <==> old(elems)[|old(elems)| - 1].Bytes?)
        && (r.Ok? ==> old(elems)[|old(elems)| - 1] == Bytes(r.value))
        && (!r.Ok? ==> r == Panicked(InterfaceConversion))
    {
      var v := Pop();
      match v
      case Panicked(p) => r := Panicked(p);
      case Ok(Bytes(b)) => r := Ok(b);
      case Ok(_) => r := Panicked(InterfaceConversion);
    }

    /** Pops the top and asserts it is an integer. */
    method PopInt64() returns (r: Result<int64>)
      modifies this
      ensures |old(elems)| == 0 ==> r == Panicked(IndexOutOfRange) && elems == old(elems)
      ensures |old(elems)| > 0 ==>
        && elems == old(elems)[..|old(elems)| - 1]
        && (r.Ok? <==> old(elems)[|old(elems)| - 1].Int64?)
        && (r.Ok? ==> old(elems)[|old(elems)| - 1] == Int64(r.value))
        && (!r.Ok? ==> r == Panicked(InterfaceConversion))
    {
      var v := Pop();
      match v
      case Panicked(p) => r := Panicked(p);
      case Ok(Int64(n)) => r := Ok(n);
      case Ok(_) => r := Panicked(InterfaceConversion);
    }

    /** Pops the top and asserts it is a tuple. */
    method PopTuple() returns (r: Result<seq<Value>>)
      modifies this
      ensures |old(elems)| == 0 ==> r == Panicked(IndexOutOfRange) && elems == old(elems)
      ensures |old(elems)| > 0 ==>
        && elems == old(elems)[..|old(elems)| - 1]
        && (r.Ok? <==> old(elems)[|old(elems)| - 1].VMTuple?)
        && (r.Ok? ==> old(elems)[|old(elems)| - 1] == VMTuple(r.value))
        && (!r.Ok? ==> r == Panicked(InterfaceConversion))
    {
      var v := Pop();
      match v
      case Panicked(p) => r := Panicked(p);
      case Ok(VMTuple(t)) => r := Ok(t);
      case Ok(_) => r := Panicked(InterfaceConversion);
    }

    /** The top, which Pop would return, without removing it. */
    method Peek() returns (r: Result<Value>)
      ensures r.Ok? <==> |elems| > 0
      ensures r.Ok? ==> r.value == elems[|elems| - 1]
      ensures !r.Ok? ==> r.cause == IndexOutOfRange
    {
      if |elems| == 0 {
        return Panicked(IndexOutOfRange);
      }
      r := Ok(elems[|elems| - 1]);
    }

    /** Moves the element at depth n (1 = the top) to the top. A depth
        outside [1, Len] makes the index fall outside the slice: Go panics
        before anything is changed. */
    method Roll(n: int64) returns (r: Outcome)
      modifies this
      ensures 1 <= n as int <= |old(elems)| ==> r == Done && elems == Rolled(old(elems), n as int)
      ensures !(1 <= n as int <= |old(elems)|) ==>
        r == Failed(IndexOutOfRange) && elems == old(elems)
    {
      var i := |elems| - n as int;
      if !(0 <= i < |elems|) {
        return Failed(IndexOutOfRange);
      }
      var x := elems[i];
      elems := elems[..i] + elems[i + 1..];
      Push(x);
      r := Done;
    }

    /** Pops the top and reinserts it at depth n (0 = back on top) of the
        rest. The pop happens first, so a depth outside [0, Len - 1] panics
        with the top already removed. */
    method Bury(n: int64) returns (r: Outcome)
      modifies this
      ensures |old(elems)| == 0 ==> r == Failed(IndexOutOfRange) && elems == old(elems)
      ensures |old(elems)| > 0 && 0 <= n as int <= |old(elems)| - 1 ==>
        r == Done && elems == Buried(old(elems), n as int)
      ensures |old(elems)| > 0 && !(0 <= n as int <= |old(elems)| - 1) ==>
        r == Failed(SliceBoundsOutOfRange) && elems == old(elems)[..|old(elems)| - 1]
    {
      var top := Pop();
      if top.Panicked? {
        return Failed(top.cause);
      }
      var x := top.value;
      var i := |elems| - n as int;
      if !(0 <= i <= |elems|) {
        return Failed(SliceBoundsOutOfRange);
      }
      elems := elems[..i] + [x] + elems[i..];
      r := Done;
    }
  }

  // ---------------------------------------------------------------------
  // The tuple stack

  /** A stack whose every element is a tuple; same operations and the same
      index arithmetic as Stack, without the typed helpers. */
  class TupleStack {
    var elems: seq<Tuple>

    constructor ()
      ensures elems == []
    {
      elems := [];
    }

    method Len() returns (n: nat)
      ensures n == |elems|
    {
      n := |elems|;
    }

    method Pop() returns (r: Result<Tuple>)
      modifies this
      ensures |old(elems)| == 0 ==> r == Panicked(IndexOutOfRange) && elems == old(elems)
      ensures |old(elems)| > 0 ==>
        && r == Ok(old(elems)[|old(elems)| - 1])
        && elems == old(elems)[..|old(elems)| - 1]
        && old(elems) == elems + [r.value]
    {
      if |elems| == 0 {
        return Panicked(IndexOutOfRange);
      }
      var v := elems[|elems| - 1];
      elems := elems[..|elems| - 1];
      r := Ok(v);
    }

    method Push(v: Tuple)
      modifies this
      ensures elems == old(elems) + [v]
      ensures |elems| == |old(elems)| + 1 && elems[|elems| - 1] == v
    {
      elems := elems + [v];
    }

    method Peek() returns (r: Result<Tuple>)
      ensures r.Ok? <==> |elems| > 0
      ensures r.Ok? ==> r.value == elems[|elems| - 1]
      ensures !r.Ok? ==> r.cause == IndexOutOfRange
    {
      if |elems| == 0 {
        return Panicked(IndexOutOfRange);
      }
      r := Ok(elems[|elems| - 1]);
    }

    method Roll(n: int64) returns (r: Outcome)
      modifies this
      ensures 1 <= n as int <= |old(elems)| ==> r == Done && elems == Rolled(old(elems), n as int)
      ensures !(1 <= n as int <= |old(elems)|) ==>
        r == Failed(IndexOutOfRange) && elems == old(elems)
    {
      var i := |elems| - n as int;
      if !(0 <= i < |elems|) {
        return Failed(IndexOutOfRange);
      }
      var x := elems[i];
      elems := elems[..i] + elems[i + 1..];
      Push(x);
      r := Done;
    }

    method Bury(n: int64) returns (r: Outcome)
      modifies this
      ensures |old(elems)| == 0 ==> r == Failed(IndexOutOfRange) && elems == old(elems)
      ensures |old(elems)| > 0 && 0 <= n as int <= |old(elems)| - 1 ==>
        r == Done && elems == Buried(old(elems), n as int)
      ensures |old(elems)| > 0 && !(0 <= n as int <= |old(elems)| - 1) ==>
        r == Failed(SliceBoundsOutOfRange) && elems == old(elems)[..|old(elems)| - 1]
    {
      var top := Pop();
      if top.Panicked? {
        return Failed(top.cause);
      }
      var x := top.value;
      var i := |elems| - n as int;
      if !(0 <= i <= |elems|) {
        return Failed(SliceBoundsOutOfRange);
      }
      elems := elems[..i] + [x] + elems[i..];
      r := Done;
    }
  }

  // ---------------------------------------------------------------------
  // What callers can rely on

  /** A typed push followed by the matching typed pop gives back what was
      pushed and leaves the stack as it was. */
  method TypedRoundTrips(s: Stack, b: seq<byte>, k: int64, t: seq<Value>)
    returns (rb: Result<seq<byte>>, rk: Result<int64>, rt: Result<seq<Value>>)
    modifies s
    ensures rb == Ok(b) && rk == Ok(k) && rt == Ok(t)
    ensures s.elems == old(s.elems)
  {
    s.PushBytes(b);
    rb := s.PopBytes();
    s.PushInt64(k);
    rk := s.PopInt64();
    s.PushTuple(t);
    rt := s.PopTuple();
  }

  /** Roll(n) then Bury(n - 1) leaves a stack as it was, for every depth
      Roll accepts. */
  method RollThenBuryRoundTrip(s: Stack, n: int64) returns (r1: Outcome, r2: Outcome)
    requires 1 <= n as int <= |s.elems|
    modifies s
    ensures r1 == Done && r2 == Done
    ensures s.elems == old(s.elems)
  {
    ghost var start := s.elems;
    r1 := s.Roll(n);
    r2 := s.Bury(n - 1);
    RollThenBuryRestores(start, n as int);
  }

  /** Bury(m) then Roll(m + 1) leaves a stack as it was, for every depth
      Bury accepts. */
  method BuryThenRollRoundTrip(s: Stack, m: int64) returns (r1: Outcome, r2: Outcome)
    requires 0 <= m as int < |s.elems|
    requires m < 0x7fff_ffff_ffff_ffff
    modifies s
    ensures r1 == Done && r2 == Done
    ensures s.elems == old(s.elems)
  {
    ghost var start := s.elems;
    r1 := s.Bury(m);
    r2 := s.Roll(m + 1);
    BuryThenRollRestores(start, m as int);
  }
}
