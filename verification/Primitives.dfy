/**
 Value types shared by every component: optional values, results, bytes,
 32-bit block heights and transaction outpoints.
 */
module Primitives {

  datatype Option<+T> = None | Some(value: T)

  datatype Result<+T, +E> = Ok(value: T) | Err(error: E)

  newtype byte = b: int | 0 <= b < 256

  type Bytes = seq<byte>

  /** A 32-byte transaction or block hash. */
  type Hash = h: Bytes | |h| == 32 witness seq(32, _ => 0 as byte)

  const TWO_32: int := 0x1_0000_0000

  type uint32 = n: int | 0 <= n < 0x1_0000_0000

  /** Addition of two `uint32` values, wrapping around as in Go. */
  function Add32(x: uint32, y: uint32): uint32 {
    (x + y) % TWO_32
  }

  /** Identifies one output of one transaction. */
  datatype OutPoint = OutPoint(hash: Hash, index: uint32)

  /** A transaction, of which only the identity matters. */
  datatype Tx = Tx(txid: Hash)
}
