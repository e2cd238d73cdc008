/**
 * The datum the TxVM stacks hold: a signed 64-bit integer, a byte string, or
 * a tuple of data. Equality is structural.
 */
module Values {
  import opened MachineInts

  datatype Value =
    | Int64(n: int64)
    | Bytes(b: seq<byte>)
    | VMTuple(t: seq<Value>)

  /** The element type of a tuple stack: a tuple's fields, without the tag. */
  type Tuple = seq<Value>
}
