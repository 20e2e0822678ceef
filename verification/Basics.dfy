/** Identifiers and small datatypes shared by every layer. */
module Basics {

  datatype Option<+T> = None | Some(value: T)

  /** Node ids, terms, log indexes and ticks are fixed-width unsigned integers in
      the program; only the tick counters, which saturate, need their width. */
  type NodeId = nat
  type Term = nat
  type Index = nat
  type Ticks = nat
  type RequestId = nat
  type ClientId = nat

  const MAX_TICKS: Ticks := 255

  function Min(a: int, b: int): (m: int)
    ensures m <= a && m <= b && (m == a || m == b)
  {
    if a <= b then a else b
  }

  function Max(a: int, b: int): (m: int)
    ensures m >= a && m >= b && (m == a || m == b)
  {
    if a <= b then b else a
  }
}
