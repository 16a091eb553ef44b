/** Widths, buffer sizes and small datatypes shared by every module of the proxy model. */
module Base {
  type Byte = b: int | 0 <= b < 256
  type Bytes = seq<Byte>
  type UInt32 = n: int | 0 <= n < UINT32_MODULUS

  /** A Bluetooth connection object, known only by its identity. */
  type Conn = nat

  const UINT32_MODULUS := 0x1_0000_0000

  const MAX_BLE_CONNECTIONS: nat := 6
  const FROMRADIO_QUEUE_DEPTH: nat := 8
  const FROMRADIO_MAX_PKT_SIZE: nat := 512
  const CC_FRAME_SIZE: nat := 16
  const MAX_PAYLOAD: nat := 512

  const PROXY_ID_SIZE: nat := 4
  const ZERO_ID: Bytes := [0, 0, 0, 0]

  datatype Option<+T> = None | Some(value: T)

  /** Return codes of the queueing operations. */
  datatype Rc = Ok | ENoEnt | ENoMem | EMsgSize

  function Increment(n: UInt32): UInt32 {
    (n + 1) % UINT32_MODULUS
  }

  predicate NoDuplicates<T(==)>(s: seq<T>) {
    forall i, j :: 0 <= i < j < |s| ==> s[i] != s[j]
  }

  function Last<T>(s: seq<T>): T
    requires s != []
  {
    s[|s| - 1]
  }

  function Front<T>(s: seq<T>): seq<T>
    requires s != []
  {
    s[..|s| - 1]
  }

  lemma FrontAndLast<T>(s: seq<T>)
    requires s != []
    ensures Front(s) + [Last(s)] == s
  {
  }

  /** The non-empty byte strings of a sequence, in order. */
  function NonEmpty(ps: seq<Bytes>): seq<Bytes> {
    if ps == [] then [] else NonEmpty(Front(ps)) + (if Last(ps) == [] then [] else [Last(ps)])
  }

  lemma {:induction false} OneMoreNonEmpty(ps: seq<Bytes>, p: Bytes)
    ensures NonEmpty(ps + [p]) == NonEmpty(ps) + if p == [] then [] else [p]
  {
    assert Front(ps + [p]) == ps;
  }

  function Min(a: nat, b: nat): nat {
    if a < b then a else b
  }
}
