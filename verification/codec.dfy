/**
 The contract of the protobuf codec.  Decoding is a total classification of byte strings and encoding
 always succeeds within the buffers the callers provide; nothing else about it is used.
 */
module Codec {
  import opened Base

  datatype Variant = Packet | NodeInfo | ConfigComplete | QueueStatus | OtherVariant(tag: int)

  /** What the decoder reports about one FromRadio; the last three fields matter for packets only. */
  datatype FromRadioInfo = FromRadioInfo(variant: Variant, isDecoded: bool, portnum: UInt32, payload: Bytes)

  datatype ToRadioInfo = WantConfig(nonce: UInt32) | Heartbeat | OtherToRadio

  datatype RawCodec = RawCodec(
    decodeFromRadio: Bytes -> Option<FromRadioInfo>,
    decodeConfigComplete: Bytes -> Option<UInt32>,
    decodeToRadio: Bytes -> Option<ToRadioInfo>,
    encodeConfigComplete: UInt32 -> Bytes,
    encodeWantConfig: UInt32 -> Bytes,
    encodeHeartbeat: UInt32 -> Bytes,
    queueStatus: Bytes)
  {
    ghost predicate Valid() {
      // Only a frame that decodes as a terminator has a terminator nonce, and what is encoded decodes.
      && (forall b: Bytes ::
            (decodeFromRadio(b).Some? && decodeFromRadio(b).value.variant == ConfigComplete)
            <== decodeConfigComplete(b).Some?)
      && (forall n: UInt32 :: decodeConfigComplete(encodeConfigComplete(n)) == Some(n))
      && (forall n: UInt32 :: decodeToRadio(encodeWantConfig(n)) == Some(WantConfig(n)))
      && (forall n: UInt32 :: decodeToRadio(encodeHeartbeat(n)) == Some(Heartbeat))
      // Sizes.
      && (forall n: UInt32 :: 1 <= |encodeConfigComplete(n)| <= CC_FRAME_SIZE)
      && (forall n: UInt32 :: 1 <= |encodeWantConfig(n)| <= MAX_PAYLOAD)
      && (forall n: UInt32 :: 1 <= |encodeHeartbeat(n)| <= CC_FRAME_SIZE)
      && 1 <= |queueStatus| <= CC_FRAME_SIZE
    }
  }

  function TwoBytes(n: nat): (b: Bytes)
    requires n < 0x1_0000
    ensures |b| == 2 && Pair(b[0], b[1]) == n
  {
    [n / 0x100, n % 0x100]
  }

  function Pair(hi: int, lo: int): int {
    hi * 0x100 + lo
  }

  /** A codec of five-byte messages, a tag and a number, shows that the contract can be met. */
  function Tagged(tag: Byte, n: UInt32): (b: Bytes)
    ensures |b| == 5 && b[0] == tag && NumberOf(b) == n
  {
    [tag] + TwoBytes(n / 0x1_0000) + TwoBytes(n % 0x1_0000)
  }

  function NumberOf(b: Bytes): UInt32
    requires |b| == 5
  {
    Pair(b[1], b[2]) * 0x1_0000 + Pair(b[3], b[4])
  }

  predicate HasTag(b: Bytes, tag: Byte) {
    |b| == 5 && b[0] == tag
  }

  const WITNESS: RawCodec :=
    RawCodec((b: Bytes) => if HasTag(b, 0) then Some(FromRadioInfo(ConfigComplete, false, 0, [])) else None,
             (b: Bytes) => if HasTag(b, 0) then Some(NumberOf(b)) else None,
             (b: Bytes) => if HasTag(b, 1) then Some(WantConfig(NumberOf(b)))
                           else if HasTag(b, 2) then Some(Heartbeat) else None,
             (n: UInt32) => Tagged(0, n), (n: UInt32) => Tagged(1, n), (n: UInt32) => Tagged(2, n), [0])

  type Codec = c: RawCodec | c.Valid() witness WITNESS
}
