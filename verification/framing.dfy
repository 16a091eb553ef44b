/**
 The serial framing of the node link: [0x94][0xC3][len_hi][len_lo][payload], and the byte-at-a-time
 parser that resynchronises on it, as a function from bytes to delivered payloads.
 */
module Framing {
  import opened Base

  const MAGIC1: Byte := 0x94
  const MAGIC2: Byte := 0xC3

  datatype Rx =
    | WaitMagic1
    | WaitMagic2
    | WaitLenHi
    | WaitLenLo(hi: Byte)
    | WaitPayload(expected: nat, got: Bytes)

  predicate RxInv(r: Rx) {
    r.WaitPayload? ==> 1 <= r.expected <= MAX_PAYLOAD && |r.got| < r.expected
  }

  /** One byte: the next parser state, and the payload handed to the callback if a frame just ended. */
  function RxStep(r: Rx, b: Byte): (res: (Rx, Option<Bytes>))
    ensures RxInv(r) ==> RxInv(res.0)
    ensures RxInv(r) && res.1.Some? ==> 1 <= |res.1.value| <= MAX_PAYLOAD
  {
    match r
    case WaitMagic1 => (if b == MAGIC1 then WaitMagic2 else WaitMagic1, None)
    case WaitMagic2 =>
      (if b == MAGIC2 then WaitLenHi else if b == MAGIC1 then WaitMagic2 else WaitMagic1, None)
    case WaitLenHi => (WaitLenLo(b), None)
    case WaitLenLo(hi) =>
      var len := hi * 256 + b;
      (if len == 0 || len > MAX_PAYLOAD then WaitMagic1 else WaitPayload(len, []), None)
    case WaitPayload(expected, got) =>
      var got' := got + [b];
      if |got'| == expected then (WaitMagic1, Some(got')) else (WaitPayload(expected, got'), None)
  }

  function Delivered(o: Option<Bytes>): seq<Bytes> {
    if o.Some? then [o.value] else []
  }

  /** A whole byte stream: the final parser state and every payload delivered, in order. */
  function Feed(r: Rx, bs: Bytes): (Rx, seq<Bytes>) {
    if bs == [] then (r, [])
    else
      var (r', out) := Feed(r, Front(bs));
      var (r'', o) := RxStep(r', Last(bs));
      (r'', out + Delivered(o))
  }

  function Header(len: nat): Bytes
    requires len <= MAX_PAYLOAD
  {
    [MAGIC1, MAGIC2, len / 256, len % 256]
  }

  /** The frame sent for a payload. */
  function Frame(p: Bytes): Bytes
    requires |p| <= MAX_PAYLOAD
  {
    Header(|p|) + p
  }

  predicate Framable(p: Bytes) {
    1 <= |p| <= MAX_PAYLOAD
  }

  predicate AllFramable(ps: seq<Bytes>) {
    forall i :: 0 <= i < |ps| ==> Framable(ps[i])
  }

  /** The bytes on the wire for a sequence of payloads. */
  function Wire(ps: seq<Bytes>): Bytes
    requires forall i :: 0 <= i < |ps| ==> |ps[i]| <= MAX_PAYLOAD
  {
    if ps == [] then [] else Wire(Front(ps)) + Frame(Last(ps))
  }

  /** However the stream is cut into chunks, the parser ends up in the same place with the same payloads. */
  lemma {:induction false} FeedInChunks(r: Rx, a: Bytes, b: Bytes)
    ensures var first := Feed(r, a); var second := Feed(first.0, b);
            Feed(r, a + b).0 == second.0 && Feed(r, a + b).1 == first.1 + second.1
  {
    hide RxStep, Delivered;
    if b == [] {
      assert a + b == a;
    } else {
      assert Front(a + b) == a + Front(b) && Last(a + b) == Last(b);
      FeedInChunks(r, a, Front(b));
    }
  }

  lemma {:induction false} FeedKeepsInv(r: Rx, bs: Bytes)
    requires RxInv(r)
    ensures RxInv(Feed(r, bs).0) && AllFramable(Feed(r, bs).1)
  {
    if bs != [] {
      FeedKeepsInv(r, Front(bs));
    }
  }

  lemma {:induction false} FeedPayload(expected: nat, got: Bytes, bs: Bytes)
    requires 1 <= expected <= MAX_PAYLOAD && |got| < expected && |got| + |bs| <= expected
    ensures var (r, out) := Feed(WaitPayload(expected, got), bs);
            if |got| + |bs| < expected then r == WaitPayload(expected, got + bs) && out == []
            else r == WaitMagic1 && out == [got + bs]
  {
    if bs == [] {
      assert got + bs == got;
    } else {
      FeedPayload(expected, got, Front(bs));
      assert got + Front(bs) + [Last(bs)] == got + bs;
    }
  }

  lemma {:induction false} FeedOneMore(r: Rx, bs: Bytes, b: Byte)
    ensures Feed(r, bs + [b]).0 == RxStep(Feed(r, bs).0, b).0
    ensures Feed(r, bs + [b]).1 == Feed(r, bs).1 + Delivered(RxStep(Feed(r, bs).0, b).1)
  {
    assert Front(bs + [b]) == bs;
  }

  lemma {:induction false} HeaderFed(r: Rx, len: nat)
    requires r == WaitMagic1 || r == WaitMagic2
    requires len <= MAX_PAYLOAD
    ensures Feed(r, Header(len)).0 == if len == 0 then WaitMagic1 else WaitPayload(len, [])
    ensures Feed(r, Header(len)).1 == []
  {
    var hi, lo := len / 256, len % 256;
    assert hi * 256 + lo == len;
    FeedOneMore(r, [], MAGIC1);
    assert [] + [MAGIC1] == [MAGIC1];
    FeedOneMore(r, [MAGIC1], MAGIC2);
    assert [MAGIC1] + [MAGIC2] == [MAGIC1, MAGIC2];
    FeedOneMore(r, [MAGIC1, MAGIC2], hi);
    assert [MAGIC1, MAGIC2] + [hi] == [MAGIC1, MAGIC2, hi];
    FeedOneMore(r, [MAGIC1, MAGIC2, hi], lo);
    assert [MAGIC1, MAGIC2, hi] + [lo] == [MAGIC1, MAGIC2, hi, lo];
  }

  /**
   One frame fed to an idle parser (or one that has just seen a stray first magic byte): it is delivered
   exactly when its payload is not empty, and the parser is idle again either way.
   */
  lemma {:induction false} OneFrame(r: Rx, p: Bytes)
    requires r == WaitMagic1 || r == WaitMagic2
    requires |p| <= MAX_PAYLOAD
    ensures Feed(r, Frame(p)).0 == WaitMagic1
    ensures Feed(r, Frame(p)).1 == if p == [] then [] else [p]
  {
    var header := Header(|p|);
    HeaderFed(r, |p|);
    FeedInChunks(r, header, p);
    if p != [] {
      FeedPayload(|p|, [], p);
      assert [] + p == p;
    }
  }

  lemma {:induction false} WireRoundTrip(ps: seq<Bytes>)
    requires forall i :: 0 <= i < |ps| ==> |ps[i]| <= MAX_PAYLOAD
    ensures Feed(WaitMagic1, Wire(ps)).0 == WaitMagic1
    ensures Feed(WaitMagic1, Wire(ps)).1 == NonEmpty(ps)
  {
    if ps != [] {
      WireRoundTrip(Front(ps));
      FeedInChunks(WaitMagic1, Wire(Front(ps)), Frame(Last(ps)));
      OneFrame(WaitMagic1, Last(ps));
    }
  }

  /** The framing round trip: payloads of 1..512 bytes come back exactly and in order. */
  lemma {:induction false} FramingRoundTrip(ps: seq<Bytes>)
    requires AllFramable(ps)
    ensures Feed(WaitMagic1, Wire(ps)).0 == WaitMagic1
    ensures Feed(WaitMagic1, Wire(ps)).1 == ps
  {
    if ps != [] {
      assert Framable(Last(ps));
      FramingRoundTrip(Front(ps));
      FeedInChunks(WaitMagic1, Wire(Front(ps)), Frame(Last(ps)));
      OneFrame(WaitMagic1, Last(ps));
      FrontAndLast(ps);
    }
  }

  /** The wire format, byte for byte. */
  lemma {:induction false} WireFormat(b: Byte)
    ensures Frame([b]) == [0x94, 0xC3, 0, 1, b]
    ensures Feed(WaitMagic1, [0x94, 0xC3, 0, 1, b]) == (WaitMagic1, [[b]])
  {
    OneFrame(WaitMagic1, [b]);
    assert Frame([b]) == [0x94, 0xC3, 0, 1, b];
  }

  /** A header that announces nothing, or more than 512 bytes, delivers nothing and leaves the parser idle. */
  lemma {:induction false} BadLengthIsSkipped(r: Rx, hi: Byte, lo: Byte)
    requires r == WaitMagic1 || r == WaitMagic2
    ensures Feed(r, [0x94, 0xC3, hi, lo]).1 == []
    ensures Feed(r, [0x94, 0xC3, hi, lo]).0 == WaitMagic1 <==> hi * 256 + lo == 0 || hi * 256 + lo > 512
  {
    FeedOneMore(r, [], 0x94);
    assert [] + [0x94 as Byte] == [0x94];
    FeedOneMore(r, [0x94], 0xC3);
    assert [0x94 as Byte] + [0xC3] == [0x94, 0xC3];
    FeedOneMore(r, [0x94, 0xC3], hi);
    assert [0x94 as Byte, 0xC3] + [hi] == [0x94, 0xC3, hi];
    FeedOneMore(r, [0x94, 0xC3, hi], lo);
    assert [0x94 as Byte, 0xC3, hi] + [lo] == [0x94, 0xC3, hi, lo];
  }

  // ---------------------------------------------------------- resynchronising

  /** Noise that contains no frame start. */
  predicate NoFrameStart(noise: Bytes) {
    forall i :: 0 <= i < |noise| - 1 ==> !(noise[i] == MAGIC1 && noise[i + 1] == MAGIC2)
  }

  lemma {:induction false} NoiseIsSkipped(noise: Bytes)
    requires NoFrameStart(noise)
    ensures Feed(WaitMagic1, noise).0 == if noise != [] && Last(noise) == MAGIC1 then WaitMagic2 else WaitMagic1
    ensures Feed(WaitMagic1, noise).1 == []
  {
    if noise != [] {
      forall i | 0 <= i < |Front(noise)| - 1
        ensures !(Front(noise)[i] == MAGIC1 && Front(noise)[i + 1] == MAGIC2)
      {
        assert Front(noise)[i] == noise[i] && Front(noise)[i + 1] == noise[i + 1];
      }
      NoiseIsSkipped(Front(noise));
      if |noise| > 1 && Last(Front(noise)) == MAGIC1 {
        assert noise[|noise| - 2] == MAGIC1;
      }
    }
  }

  datatype Burst = Burst(noise: Bytes, payload: Bytes)

  predicate GoodBursts(bursts: seq<Burst>) {
    forall i :: 0 <= i < |bursts| ==> NoFrameStart(bursts[i].noise) && Framable(bursts[i].payload)
  }

  function NoisyWire(bursts: seq<Burst>): Bytes
    requires GoodBursts(bursts)
  {
    if bursts == [] then []
    else NoisyWire(Front(bursts)) + (Last(bursts).noise + Frame(Last(bursts).payload))
  }

  function Payloads(bursts: seq<Burst>): seq<Bytes> {
    if bursts == [] then [] else Payloads(Front(bursts)) + [Last(bursts).payload]
  }

  function Noiseless(ps: seq<Bytes>): seq<Burst> {
    if ps == [] then [] else Noiseless(Front(ps)) + [Burst([], Last(ps))]
  }

  /** Frames sent back to back are the special case of no noise at all. */
  lemma {:induction false} BackToBack(ps: seq<Bytes>)
    requires AllFramable(ps)
    ensures GoodBursts(Noiseless(ps)) && NoisyWire(Noiseless(ps)) == Wire(ps) && Payloads(Noiseless(ps)) == ps
  {
    if ps != [] {
      assert Framable(Last(ps));
      BackToBack(Front(ps));
      var bursts := Noiseless(ps);
      assert Front(bursts) == Noiseless(Front(ps));
      assert [] + Frame(Last(ps)) == Frame(Last(ps));
      FrontAndLast(ps);
    }
  }

  /**
   The last byte of a noisy stream is the last byte of its last frame: it delivers that frame's payload to
   a parser that has delivered all the others.
   */
  lemma {:induction false} LastByteDelivers(bursts: seq<Burst>)
    requires bursts != [] && GoodBursts(bursts)
    ensures NoisyWire(bursts) != []
    ensures var front := Feed(WaitMagic1, Front(NoisyWire(bursts)));
            && front.1 == Front(Payloads(bursts))
            && RxStep(front.0, Last(NoisyWire(bursts))) == (WaitMagic1, Some(Last(Payloads(bursts))))
  {
    hide Feed, RxStep, Frame, Delivered;
    var before, noise, p := NoisyWire(Front(bursts)), Last(bursts).noise, Last(bursts).payload;
    assert NoFrameStart(noise) && Framable(p);
    ResynchronisesAfterNoise(Front(bursts));
    NoiseIsSkipped(noise);
    AllButTheLastByte(Feed(WaitMagic1, noise).0, p);
    var body := Front(Frame(p));
    FrontOfAppended(before, noise, Frame(p));
    FeedInChunks(WaitMagic1, noise, body);
    FeedInChunks(WaitMagic1, before, noise + body);
  }

  lemma FrontOfAppended(a: Bytes, b: Bytes, c: Bytes)
    requires c != []
    ensures Front(a + (b + c)) == a + (b + Front(c)) && Last(a + (b + c)) == Last(c)
  {
  }

  lemma {:induction false} AllButTheLastByte(r: Rx, p: Bytes)
    requires r == WaitMagic1 || r == WaitMagic2
    requires Framable(p)
    ensures Frame(p) != [] && Last(Frame(p)) == Last(p)
    ensures Feed(r, Front(Frame(p))) == (WaitPayload(|p|, Front(p)), [])
    ensures RxStep(WaitPayload(|p|, Front(p)), Last(p)) == (WaitMagic1, Some(p))
  {
    HeaderFed(r, |p|);
    FeedPayload(|p|, [], Front(p));
    assert [] + Front(p) == Front(p);
    FeedInChunks(r, Header(|p|), Front(p));
    assert Front(Frame(p)) == Header(|p|) + Front(p);
    FrontAndLast(p);
  }

  /**
   Noise before every frame, even noise ending in a stray first magic byte, loses no frame and invents
   none, as long as no noise contains a frame start.
   */
  lemma {:induction false} ResynchronisesAfterNoise(bursts: seq<Burst>)
    requires GoodBursts(bursts)
    ensures Feed(WaitMagic1, NoisyWire(bursts)).0 == WaitMagic1
    ensures Feed(WaitMagic1, NoisyWire(bursts)).1 == Payloads(bursts)
  {
    hide RxStep, Delivered, Frame;
    if bursts != [] {
      ResynchronisesAfterNoise(Front(bursts));
      var last := Last(bursts);
      assert NoFrameStart(last.noise) && Framable(last.payload);
      NoiseIsSkipped(last.noise);
      var after := Feed(WaitMagic1, last.noise).0;
      OneFrame(after, last.payload);
      FeedInChunks(WaitMagic1, last.noise, Frame(last.payload));
      FeedInChunks(WaitMagic1, NoisyWire(Front(bursts)), last.noise + Frame(last.payload));
    }
  }

  /** How many bytes without a first magic byte may pass before the parser is idle. */
  function Distance(r: Rx): nat
    requires RxInv(r)
  {
    match r
    case WaitMagic1 => 0
    case WaitMagic2 => 3 + MAX_PAYLOAD
    case WaitLenHi => 2 + MAX_PAYLOAD
    case WaitLenLo(_) => 1 + MAX_PAYLOAD
    case WaitPayload(expected, got) => expected - |got|
  }

  lemma {:induction false} QuietBytesBringItHome(r: Rx, bs: Bytes)
    requires RxInv(r) && MAGIC1 !in bs
    ensures RxInv(Feed(r, bs).0)
    ensures Distance(Feed(r, bs).0) <= if |bs| < Distance(r) then Distance(r) - |bs| else 0
  {
    FeedKeepsInv(r, bs);
    if bs != [] {
      FeedKeepsInv(r, Front(bs));
      QuietBytesBringItHome(r, Front(bs));
      assert Last(bs) in bs;
    }
  }

  /** From any reachable state, 515 bytes without 0x94 leave the parser idle. */
  lemma {:induction false} IdleAfter515QuietBytes(r: Rx, bs: Bytes)
    requires RxInv(r) && MAGIC1 !in bs && |bs| >= 515
    ensures Feed(r, bs).0 == WaitMagic1
  {
    QuietBytesBringItHome(r, bs);
  }

  /** And 514 are not enough: after a stray 0x94 the rest may look like a frame one byte too long. */
  lemma FiveHundredFourteenAreNotEnough(p: Bytes)
    requires |p| == MAX_PAYLOAD - 1 && MAGIC1 !in p
    ensures var bs: Bytes := [MAGIC2, 2, 0] + p;
            |bs| == 514 && MAGIC1 !in bs && Feed(WaitMagic2, bs).0 != WaitMagic1
  {
    var header: Bytes := [MAGIC2, 2, 0];
    assert Front(header) == [MAGIC2, 2] && Front([MAGIC2, 2]) == [MAGIC2] && Front([MAGIC2]) == [];
    assert Feed(WaitMagic2, [MAGIC2]).0 == WaitLenHi;
    assert Feed(WaitMagic2, [MAGIC2, 2]).0 == WaitLenLo(2);
    assert Feed(WaitMagic2, header).0 == WaitPayload(512, []);
    FeedInChunks(WaitMagic2, header, p);
    FeedPayload(512, [], p);
  }
}
