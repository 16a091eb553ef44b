/** Whose terminators the phones see. */
module Terminators {
  import opened Base
  import opened Codec
  import opened CacheModel
  import opened Framing
  import opened LinkModel
  import opened PhoneClient
  import opened BleModel
  import opened ProxyModel
  import opened Routing
  import opened Invariants
  import opened Independence
  import opened EndToEnd

  /** Cached frames decode as what they are stored as, and the terminator of our own fetch is not among them. */
  predicate Classified(pb: Codec, s: Proxy) {
    forall i :: 0 <= i < |s.cache.frames| ==>
      && pb.decodeFromRadio(s.cache.frames[i].bytes).Some?
      && pb.decodeFromRadio(s.cache.frames[i].bytes).value.variant == s.cache.frames[i].variant
      && pb.decodeConfigComplete(s.cache.frames[i].bytes) != Some(s.up.nonce)
  }

  lemma StepKeepsClassified(pb: Codec, s: Proxy, e: Event)
    requires SessionInv(s) && Classified(pb, s) && Enabled(s, e)
    ensures Classified(pb, Step(pb, s, e))
  {
    hide RxStep;
    if e.RxByte? && RxStep(s.rx, e.b).1.Some? {
      SingleFate(pb, s, RxStep(s.rx, e.b).1.value);
    }
  }

  /** In every run our own terminator is never cached. */
  lemma {:induction false} RunKeepsClassified(pb: Codec, es: seq<Event>)
    requires Legal(pb, INITIAL, es)
    ensures Classified(pb, Run(pb, INITIAL, es))
  {
    if es != [] {
      RunKeepsClassified(pb, Front(es));
      InitialInv(pb);
      RunKeepsInv(pb, INITIAL, Front(es));
      StepKeepsClassified(pb, Run(pb, INITIAL, Front(es)), Last(es));
    }
  }

  /** Of all packets of a replay exactly the last one decodes as a terminator, and it carries the phone's nonce. */
  lemma {:induction false} OneTerminatorPerReplay(pb: Codec, s: Proxy, n: UInt32)
    requires Classified(pb, s)
    ensures var replay := ReplayList(pb, s.cache.frames, n);
            && (forall i :: 0 <= i < |replay| - 1 ==> pb.decodeConfigComplete(replay[i]) == None)
            && pb.decodeConfigComplete(Last(replay)) == Some(n)
  {
    var segment := Segment(s.cache.frames, n);
    SegmentServesNoTerminator(s.cache.frames, 0, n);
    forall i | 0 <= i < |segment| ensures pb.decodeConfigComplete(segment[i]) == None {
      assert segment[i] in segment;
    }
  }

  /**
   A phone that asks a live proxy, in any run from power-on, gets exactly one terminator before its empty
   packet, as the last thing before it, and that one carries the nonce it is answered with.
   */
  lemma {:induction false} PhoneSeesItsOwnTerminator(pb: Codec, es: seq<Event>, c: Conn, data: Bytes, nonce: UInt32,
                                                     drain: seq<Event>)
    requires Legal(pb, INITIAL, es)
    requires var s := Run(pb, INITIAL, es);
             && s.up.state == Live && Tracked(s.ble, c) && pb.decodeToRadio(data) == Some(WantConfig(nonce))
             && var asked := Step(pb, s, WriteToRadio(c, data, 0));
                Legal(pb, asked, drain) && Stays(pb, drain, c) && Orderly(Readings(pb, asked, drain, c))
    ensures var s := Run(pb, INITIAL, es);
            var n := EffectiveNonce(LinkOf(s.ble, c), nonce);
            var done := Collect(Readings(pb, Step(pb, s, WriteToRadio(c, data, 0)), drain, c)).done;
            var last := |Segment(s.cache.frames, n)|;
            forall i :: 0 <= i < |done| && i <= last ==>
              pb.decodeConfigComplete(done[i]) == if i == last then Some(n) else None
  {
    hide Step, Inv, Stays, Orderly, Classified;
    InitialInv(pb);
    RunKeepsInv(pb, INITIAL, es);
    RunKeepsClassified(pb, es);
    var s := Run(pb, INITIAL, es);
    var n := EffectiveNonce(LinkOf(s.ble, c), nonce);
    PhoneReadsItsSegment(pb, s, c, data, nonce, drain);
    SegmentIsSelected(s.cache.frames, n);
    OneTerminatorPerReplay(pb, s, n);
    var done := Collect(Readings(pb, Step(pb, s, WriteToRadio(c, data, 0)), drain, c)).done;
    var replay := ReplayList(pb, s.cache.frames, n);
    PrefixAgrees(done, replay);
  }

  /**
   The terminator a phone gets carries the nonce it asked with if and only if that is not 0, or the phone
   has never had another.
   */
  lemma {:induction false} TerminatorEchoesRequestIff(pb: Codec, es: seq<Event>, c: Conn, data: Bytes, nonce: UInt32,
                                                      drain: seq<Event>)
    requires Legal(pb, INITIAL, es)
    requires var s := Run(pb, INITIAL, es);
             && s.up.state == Live && Tracked(s.ble, c) && pb.decodeToRadio(data) == Some(WantConfig(nonce))
             && var asked := Step(pb, s, WriteToRadio(c, data, 0));
                Legal(pb, asked, drain) && Stays(pb, drain, c) && Orderly(Readings(pb, asked, drain, c))
    ensures var s := Run(pb, INITIAL, es);
            var l := LinkOf(s.ble, c);
            var done := Collect(Readings(pb, Step(pb, s, WriteToRadio(c, data, 0)), drain, c)).done;
            var last := |Segment(s.cache.frames, EffectiveNonce(l, nonce))|;
            last < |done| ==> (pb.decodeConfigComplete(done[last]) == Some(nonce) <==> nonce != 0 || l.nonce == 0)
  {
    hide Step, Inv, Stays, Orderly, Readings, Collect, Segment;
    PhoneSeesItsOwnTerminator(pb, es, c, data, nonce, drain);
  }

  lemma {:induction false} PrefixAgrees(done: seq<Bytes>, replay: seq<Bytes>)
    requires var script := replay + [[]]; var k := Min(|done|, |script|); done[..k] == script[..k]
    ensures forall i :: 0 <= i < |done| && i < |replay| ==> done[i] == replay[i]
  {
    var script := replay + [[]];
    var k := Min(|done|, |script|);
    forall i | 0 <= i < |done| && i < |replay| ensures done[i] == replay[i] {
      assert done[i] == done[..k][i] == script[..k][i];
    }
  }
}
