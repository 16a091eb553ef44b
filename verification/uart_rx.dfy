/** The receive state machine of the UART driver, one byte at a time into a fixed payload buffer. */
module UartReceiver {
  import opened Base
  import opened Framing

  datatype RxState = RxWaitMagic1 | RxWaitMagic2 | RxWaitLenHi | RxWaitLenLo | RxWaitPayload

  class UartRx {
    var state: RxState
    var expectedLen: nat
    var receivedLen: nat
    const payload: array<Byte>

    ghost predicate Valid()
      reads this
    {
      && payload.Length == MAX_PAYLOAD
      && (state == RxWaitLenLo ==> expectedLen % 256 == 0 && expectedLen < 0x1_0000)
      && (state == RxWaitPayload ==> 1 <= expectedLen <= MAX_PAYLOAD && receivedLen < expectedLen)
    }

    /** The parser state without the stale lengths and bytes the fields keep between frames. */
    ghost function Model(): (r: Rx)
      requires Valid()
      reads this, payload
      ensures RxInv(r)
    {
      match state
      case RxWaitMagic1 => WaitMagic1
      case RxWaitMagic2 => WaitMagic2
      case RxWaitLenHi => WaitLenHi
      case RxWaitLenLo => WaitLenLo(expectedLen / 256)
      case RxWaitPayload => WaitPayload(expectedLen, payload[..receivedLen])
    }

    ghost function Footprint(): set<object> {
      {this, payload}
    }

    constructor ()
      ensures Valid() && fresh(Footprint())
      ensures Model() == WaitMagic1
    {
      state := RxWaitMagic1;
      expectedLen, receivedLen := 0, 0;
      payload := new Byte[MAX_PAYLOAD];
    }

    /** Processes one byte; the result is the payload handed to the callback, if a frame just ended. */
    method ProcessByte(byte: Byte) returns (frame: Option<Bytes>)
      requires Valid()
      modifies this, payload
      ensures Valid()
      ensures (Model(), frame) == RxStep(old(Model()), byte)
    {
      frame := None;
      match state {
        case RxWaitMagic1 =>
          if byte == MAGIC1 {
            state := RxWaitMagic2;
          }
        case RxWaitMagic2 =>
          if byte == MAGIC2 {
            state := RxWaitLenHi;
          } else {
            state := if byte == MAGIC1 then RxWaitMagic2 else RxWaitMagic1;
          }
        case RxWaitLenHi =>
          expectedLen := byte * 256;
          state := RxWaitLenLo;
        case RxWaitLenLo =>
          expectedLen := expectedLen + byte;
          if expectedLen == 0 || expectedLen > MAX_PAYLOAD {
            state := RxWaitMagic1;
          } else {
            receivedLen := 0;
            state := RxWaitPayload;
          }
        case RxWaitPayload =>
          ghost var got := payload[..receivedLen];
          payload[receivedLen] := byte;
          receivedLen := receivedLen + 1;
          assert payload[..receivedLen] == got + [byte];
          if receivedLen == expectedLen {
            frame := Some(payload[..receivedLen]);
            state := RxWaitMagic1;
          }
      }
    }
  }
}
