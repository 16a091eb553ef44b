/** From the node's burst on the wire to what a phone reads. */
module EndToEnd {
  import opened Base
  import opened Codec
  import opened CacheModel
  import opened Framing
  import opened LinkModel
  import opened PhoneClient
  import opened BleModel
  import opened ProxyModel
  import opened Routing
  import opened Invariants
  import opened Independence
  import opened Parking

  // ------------------------------------------------------------- the fetch

  /** The bytes a run receives from the node. */
  function Received(es: seq<Event>): Bytes {
    if es == [] then [] else Received(Front(es)) + if Last(es).RxByte? then [Last(es).b] else []
  }

  /** The frames of a burst the proxy offers to its cache: the decodable ones that are no packets. */
  function Offered(pb: Codec, burst: seq<Bytes>): seq<Frame> {
    if burst == [] then []
    else
      var info := pb.decodeFromRadio(Last(burst));
      Offered(pb, Front(burst))
      + if info.Some? && info.value.variant != Packet then [Frame(Last(burst), info.value.variant)] else []
  }

  predicate Closes(pb: Codec, payload: Bytes, nonce: UInt32) {
    pb.decodeConfigComplete(payload) == Some(nonce)
  }

  predicate NoneCloses(pb: Codec, burst: seq<Bytes>, nonce: UInt32) {
    forall i :: 0 <= i < |burst| ==> !Closes(pb, burst[i], nonce)
  }

  /** The payload a step completes, if any. */
  function Completed(s: Proxy, e: Event): seq<Bytes> {
    if e.RxByte? then Delivered(RxStep(s.rx, e.b).1) else []
  }

  lemma {:induction false} FrameFollowsTheWire(pb: Codec, s: Proxy, payload: Bytes, sofar: seq<Bytes>)
    requires s.up.state == Fetching && !Closes(pb, payload, s.up.nonce)
    requires s.cache.frames == Stored(Offered(pb, sofar))
    ensures var t := OnFromRadioUart(pb, s, payload);
            && t.up.state == Fetching && t.up.nonce == s.up.nonce
            && t.cache.frames == Stored(Offered(pb, sofar + [payload]))
  {
    SingleFate(pb, s, payload);
    OneMoreOffered(pb, sofar, payload);
    hide Stored, Offered, OnFromRadioUart;
  }

  lemma {:induction false} StepFollowsTheWire(pb: Codec, s: Proxy, e: Event, sofar: seq<Bytes>)
    requires Enabled(s, e) && s.up.state == Fetching
    requires s.cache.frames == Stored(Offered(pb, sofar))
    requires NoneCloses(pb, Completed(s, e), s.up.nonce)
    ensures var t := Step(pb, s, e);
            && t.rx == (if e.RxByte? then RxStep(s.rx, e.b).0 else s.rx)
            && t.up.state == Fetching && t.up.nonce == s.up.nonce
            && t.cache.frames == Stored(Offered(pb, sofar + Completed(s, e)))
  {
    hide Stored, Offered, OnFromRadioUart, RxStep;
    if e.RxByte? && RxStep(s.rx, e.b).1.Some? {
      var payload := RxStep(s.rx, e.b).1.value;
      assert Completed(s, e) == [payload];
      assert Completed(s, e)[0] == payload;
      FrameFollowsTheWire(pb, s, payload, sofar);
    } else {
      assert sofar + Completed(s, e) == sofar;
    }
  }

  /**
   While no payload delivered so far closes the burst, the session keeps fetching and the cache holds
   what the storing rule keeps of the payloads delivered, whatever the phones do meanwhile.
   */
  lemma {:induction false} CacheFollowsTheWire(pb: Codec, s: Proxy, es: seq<Event>)
    requires Legal(pb, s, es) && s.up.state == Fetching && s.cache.frames == []
    requires NoneCloses(pb, Feed(s.rx, Received(es)).1, s.up.nonce)
    ensures var t := Run(pb, s, es);
            && t.rx == Feed(s.rx, Received(es)).0
            && t.up.state == Fetching && t.up.nonce == s.up.nonce
            && t.cache.frames == Stored(Offered(pb, Feed(s.rx, Received(es)).1))
  {
    if es != [] {
      var before, e := Run(pb, s, Front(es)), Last(es);
      var all, sofar := Feed(s.rx, Received(es)).1, Feed(s.rx, Received(Front(es))).1;
      WireStep(s.rx, es);
      forall i | 0 <= i < |sofar| ensures !Closes(pb, sofar[i], s.up.nonce) {
        assert sofar[i] == all[i];
      }
      CacheFollowsTheWire(pb, s, Front(es));
      forall i | 0 <= i < |Completed(before, e)| ensures !Closes(pb, Completed(before, e)[i], s.up.nonce) {
        assert Completed(before, e)[i] == all[|sofar| + i];
      }
      StepFollowsTheWire(pb, before, e, sofar);
    }
  }

  lemma {:induction false} WireStep(r: Rx, es: seq<Event>)
    requires es != []
    ensures var (r', out) := Feed(r, Received(Front(es)));
            && Feed(r, Received(es)).0 == (if Last(es).RxByte? then RxStep(r', Last(es).b).0 else r')
            && Feed(r, Received(es)).1
               == out + if Last(es).RxByte? then Delivered(RxStep(r', Last(es).b).1) else []
  {
    if Last(es).RxByte? {
      FeedOneMore(r, Received(Front(es)), Last(es).b);
    } else {
      assert Received(es) == Received(Front(es));
    }
  }

  lemma {:induction false} OneMoreOffered(pb: Codec, burst: seq<Bytes>, payload: Bytes)
    ensures var info := pb.decodeFromRadio(payload);
            Stored(Offered(pb, burst + [payload]))
            == if info.Some? && info.value.variant != Packet
               then Add(Stored(Offered(pb, burst)), Frame(payload, info.value.variant))
               else Stored(Offered(pb, burst))
  {
    assert Front(burst + [payload]) == burst;
    var info := pb.decodeFromRadio(payload);
    if info.Some? && info.value.variant != Packet {
      var f := Frame(payload, info.value.variant);
      assert Front(Offered(pb, burst) + [f]) == Offered(pb, burst);
    } else {
      assert Offered(pb, burst + [payload]) == Offered(pb, burst);
    }
  }

  /** The last received byte of a run, and the run before it. */
  lemma {:induction false} LastByte(pb: Codec, s: Proxy, es: seq<Event>) returns (i: nat)
    requires Legal(pb, s, es) && Received(es) != []
    ensures i < |es| && es[i].RxByte? && es[i].b == Last(Received(es))
    ensures Received(es[..i]) == Front(Received(es))
    ensures Legal(pb, s, es[..i]) && Legal(pb, s, es[..i + 1]) && Enabled(Run(pb, s, es[..i]), es[i])
    ensures Run(pb, s, es[..i + 1]) == Step(pb, Run(pb, s, es[..i]), es[i])
    ensures Legal(pb, Run(pb, s, es[..i + 1]), es[i + 1..])
    ensures Run(pb, s, es) == Run(pb, Run(pb, s, es[..i + 1]), es[i + 1..])
  {
    i := LastByteIndex(es);
    assert es == es[..i] + es[i..] && es == es[..i + 1] + es[i + 1..];
    RunInParts(pb, s, es[..i], es[i..]);
    RunInParts(pb, s, es[..i + 1], es[i + 1..]);
    assert Front(es[..i + 1]) == es[..i] && Last(es[..i + 1]) == es[i];
  }

  lemma {:induction false} LastByteIndex(es: seq<Event>) returns (i: nat)
    requires Received(es) != []
    ensures i < |es| && es[i].RxByte? && es[i].b == Last(Received(es))
    ensures Received(es[..i]) == Front(Received(es))
  {
    if Last(es).RxByte? {
      i := |es| - 1;
      assert es[..i] == Front(es);
    } else {
      i := LastByteIndex(Front(es));
      assert es[..i] == Front(es)[..i];
    }
  }

  /** The wire carries these payloads, with any noise before each frame but no frame start in it. */
  predicate Carries(bursts: seq<Burst>, payloads: seq<Bytes>) {
    GoodBursts(bursts) && Payloads(bursts) == payloads
  }

  /** The last byte of our terminator takes the session live with the cache filled so far. */
  lemma {:induction false} TerminatorCloses(pb: Codec, s: Proxy, fetch: seq<Event>, bursts: seq<Burst>,
                                            burst: seq<Bytes>, terminator: Bytes, b: Byte)
    requires Legal(pb, s, fetch)
    requires s.up.state == Fetching && s.cache.frames == [] && s.rx == WaitMagic1
    requires Carries(bursts, burst + [terminator]) && NoisyWire(bursts) == Received(fetch) + [b]
    requires NoneCloses(pb, burst, s.up.nonce) && Closes(pb, terminator, s.up.nonce)
    ensures var t := Run(pb, s, fetch);
            var closed := Step(pb, t, RxByte(b));
            && t.up.state == Fetching
            && closed.up.state == Live && closed.cache.frames == Stored(Offered(pb, burst))
  {
    assert |Payloads(bursts)| > 0;
    hide Feed, Legal, Received, Stored, Offered, NoisyWire, Closes;
    var whole := burst + [terminator];
    assert Front(whole) == burst && Last(whole) == terminator;
    LastByteDelivers(bursts);
    assert Front(NoisyWire(bursts)) == Received(fetch) && Last(NoisyWire(bursts)) == b;
    CacheFollowsTheWire(pb, s, fetch);
    TerminatorStep(pb, Run(pb, s, fetch), b, terminator);
  }

  lemma TerminatorStep(pb: Codec, s: Proxy, b: Byte, terminator: Bytes)
    requires s.up.state == Fetching && Closes(pb, terminator, s.up.nonce)
    requires RxStep(s.rx, b) == (WaitMagic1, Some(terminator))
    ensures var closed := Step(pb, s, RxByte(b));
            closed.up.state == Live && closed.cache.frames == s.cache.frames
  {
    hide RxStep;
    SingleFate(pb, s, terminator);
  }

  /**
   The fetch: a burst on the wire followed by our terminator, with noise before any frame, received in any
   chunks and with anything the phones may do in between, leaves the session live and the cache holding
   what the storing rule keeps of the burst's non-packet frames.
   */
  lemma {:induction false} FetchFillsTheCache(pb: Codec, s: Proxy, es: seq<Event>, bursts: seq<Burst>,
                                              burst: seq<Bytes>, terminator: Bytes)
    requires Legal(pb, s, es)
    requires s.up.state == Fetching && s.cache.frames == [] && s.rx == WaitMagic1
    requires Carries(bursts, burst + [terminator]) && Received(es) == NoisyWire(bursts)
    requires NoneCloses(pb, burst, s.up.nonce) && Closes(pb, terminator, s.up.nonce)
    ensures Run(pb, s, es).up.state == Live
    ensures Run(pb, s, es).cache.frames == Stored(Offered(pb, burst))
  {
    assert |Payloads(bursts)| > 0;
    LastByteDelivers(bursts);
    var i := LastByte(pb, s, es);
    FrontAndLast(Received(es));
    TerminatorCloses(pb, s, es[..i], bursts, burst, terminator, Last(Received(es)));
    RunKeepsLiveCache(pb, Run(pb, s, es[..i + 1]), es[i + 1..]);
  }

  // ------------------------------------------------------------- the answer

  /** Phone c stays connected and does not ask for the configuration again. */
  predicate Stays(pb: Codec, es: seq<Event>, c: Conn) {
    && Disconnects(c) !in es
    && forall i :: 0 <= i < |es| ==> !WantsConfig(pb, es[i], c)
  }

  lemma DeliveryIsUndisturbed(pb: Codec, s: Proxy, e: Event, c: Conn)
    requires SessionInv(s) && Enabled(s, e) && s.up.state == Live && !WantsConfig(pb, e, c)
    ensures var le := DeliverTo(pb, SharedOf(s), e, c);
            le.Some? ==> !le.value.Arm? && !le.value.Park? && (le.value.Enqueue? ==> |le.value.p| > 0)
  {
    DeliveriesAreFit(pb, s, e, c);
  }

  lemma {:induction false} OneMoreUndisturbed(h: seq<LinkEvent>, le: LinkEvent)
    requires Undisturbed(h) && !le.Arm? && !le.Park? && (le.Enqueue? ==> |le.p| > 0)
    ensures Undisturbed(h + [le])
  {
  }

  lemma {:induction false} StaysUntilTheLast(pb: Codec, es: seq<Event>, c: Conn)
    requires es != [] && Stays(pb, es, c)
    ensures Stays(pb, Front(es), c) && !WantsConfig(pb, Last(es), c)
  {
    hide WantsConfig;
  }

  lemma {:induction false} HistoryIsUndisturbed(pb: Codec, s: Proxy, es: seq<Event>, c: Conn)
    requires Inv(pb, s) && Legal(pb, s, es) && s.up.state == Live && Stays(pb, es, c)
    ensures Undisturbed(History(pb, s, es, c))
  {
    if es != [] {
      StaysUntilTheLast(pb, es, c);
      hide Step, Enabled, DeliverTo, WantsConfig, SharedOf, BleInv, LinkAgrees, Undisturbed, Stays;
      HistoryIsUndisturbed(pb, s, Front(es), c);
      RunKeepsInv(pb, s, Front(es));
      RunKeepsLiveCache(pb, s, Front(es));
      var before := Run(pb, s, Front(es));
      DeliveryIsUndisturbed(pb, before, Last(es), c);
      var h, le := History(pb, s, Front(es), c), DeliverTo(pb, SharedOf(before), Last(es), c);
      if le.Some? {
        OneMoreUndisturbed(h, le.value);
      } else {
        assert h + [] == h;
      }
    }
  }

  /**
   Phone c reads the script and then its live packets: what it has collected begins with the script, as
   far as it has read; it is Active exactly when it has the whole of it; and what it collected beyond that
   (empty packets apart), the packet it is in the middle of and its queue are, in order, the packets
   queued for it before and during the run.
   */
  predicate ReadsThenLive(pb: Codec, s: Proxy, es: seq<Event>, c: Conn, script: seq<Bytes>)
    requires Legal(pb, s, es)
  {
    && Tracked(s.ble, c) && Tracked(Run(pb, s, es).ble, c)
    && var l, l', inbox := LinkOf(s.ble, c), LinkOf(Run(pb, s, es).ble, c), Collect(Readings(pb, s, es, c));
    && var k := Min(|inbox.done|, |script|);
    && inbox.done[..k] == script[..k]
    && l'.state == (if |inbox.done| < |script| then Replaying else Active)
    && NonEmpty(inbox.done[k..]) + InReading(inbox, script, l'.staged) + l'.queue
       == l.queue + Accepted(pb, l, History(pb, s, es, c))
  }

  /** What an orderly phone reads while it is being replayed to, whatever everybody else does. */
  lemma {:induction false} PhoneCollectsItsReplay(pb: Codec, s: Proxy, c: Conn, es: seq<Event>)
    requires Inv(pb, s) && s.up.state == Live && Tracked(s.ble, c) && LinkOf(s.ble, c).state == Replaying
    requires Legal(pb, s, es) && Stays(pb, es, c) && Orderly(Readings(pb, s, es, c))
    ensures ReadsThenLive(pb, s, es, c, LinkOf(s.ble, c).replay + [[]])
  {
    hide SessionInv, LinkAgrees, WantsConfig, Collect, Orderly;
    HistoryIsUndisturbed(pb, s, es, c);
    LinksAreIndependent(pb, s, es, c);
    assert LinkInv(LinkOf(s.ble, c));
    ClientGetsTheReplay(pb, LinkOf(s.ble, c), History(pb, s, es, c));
  }

  /** A config request on a live proxy arms a replay of the segment its nonce selects. */
  lemma AskingArms(pb: Codec, s: Proxy, c: Conn, data: Bytes, nonce: UInt32)
    requires Inv(pb, s) && s.up.state == Live && Tracked(s.ble, c)
    requires pb.decodeToRadio(data) == Some(WantConfig(nonce))
    ensures var asked := Step(pb, s, WriteToRadio(c, data, 0));
            && asked.up.state == Live && Inv(pb, asked) && Tracked(asked.ble, c)
            && var l, l' := LinkOf(s.ble, c), LinkOf(asked.ble, c);
            && l'.state == Replaying && l'.queue == l.queue
            && l'.replay == ReplayList(pb, s.cache.frames, EffectiveNonce(l, nonce))
  {
    StepLink(pb, s, WriteToRadio(c, data, 0), c);
    StepKeepsInv(pb, s, WriteToRadio(c, data, 0));
  }

  /**
   What a phone reads: after a config request on a live proxy, and whatever everybody else does, an
   orderly phone collects the segment its nonce selects, then the terminator carrying that nonce, then
   one empty packet.  A nonce of 0 stands for the phone's previous one.
   */
  lemma {:induction false} PhoneReadsItsSegment(pb: Codec, s: Proxy, c: Conn, data: Bytes, nonce: UInt32,
                                                es: seq<Event>)
    requires Inv(pb, s) && s.up.state == Live && Tracked(s.ble, c)
    requires pb.decodeToRadio(data) == Some(WantConfig(nonce))
    requires var asked := Step(pb, s, WriteToRadio(c, data, 0));
             Legal(pb, asked, es) && Stays(pb, es, c) && Orderly(Readings(pb, asked, es, c))
    ensures var n := EffectiveNonce(LinkOf(s.ble, c), nonce);
            ReadsThenLive(pb, Step(pb, s, WriteToRadio(c, data, 0)), es, c,
                          Selected(s.cache.frames, n) + [pb.encodeConfigComplete(n)] + [[]])
  {
    SegmentIsSelected(s.cache.frames, EffectiveNonce(LinkOf(s.ble, c), nonce));
    AskingArms(pb, s, c, data, nonce);
    PhoneCollectsItsReplay(pb, Step(pb, s, WriteToRadio(c, data, 0)), c, es);
  }

  // ------------------------------------------------------------ end to end

  /** The session is open for a burst: nothing received of it yet. */
  ghost predicate FetchOpen(pb: Codec, s: Proxy) {
    Inv(pb, s) && s.up.state == Fetching && s.cache.frames == [] && s.rx == WaitMagic1
  }

  /** A burst that fits the cache and is closed by nothing but its terminator. */
  predicate ClosedBurst(pb: Codec, nonce: UInt32, burst: seq<Bytes>, terminator: Bytes) {
    && NoneCloses(pb, burst, nonce) && Closes(pb, terminator, nonce)
    && WithinLimits(Offered(pb, burst))
  }

  /** What a phone asking with nonce n is promised of a burst. */
  function Promised(pb: Codec, burst: seq<Bytes>, n: UInt32): seq<Bytes> {
    Selected(Offered(pb, burst), n) + [pb.encodeConfigComplete(n)] + [[]]
  }

  /**
   From power-on: whatever the phones do and the node sends before the start, the session opens the fetch,
   with the random nonce, or 2 in place of 0 and 1, exactly when the request was queued and the parser is
   idle; the request asks for just that nonce.
   */
  lemma {:induction false} BootOpensTheFetch(pb: Codec, es: seq<Event>, rand: UInt32)
    requires Legal(pb, INITIAL, es + [StartSession(rand)])
    ensures var before, t := Run(pb, INITIAL, es), Run(pb, INITIAL, es + [StartSession(rand)]);
            var queued := |before.tx.queue| < 4;
            && t.up.nonce == (if rand >= 2 then rand else 2) && t.up.parked == [] && t.cache.frames == []
            && t.up.state == (if queued then Fetching else Boot)
            && (FetchOpen(pb, t) <==> queued && Feed(WaitMagic1, Received(es)).0 == WaitMagic1)
            && (if queued
                then && t.tx.accepted == before.tx.accepted + [Last(t.tx.accepted)]
                     && pb.decodeToRadio(Last(t.tx.accepted)) == Some(WantConfig(t.up.nonce))
                else t.tx == before.tx)
  {
    assert Front(es + [StartSession(rand)]) == es;
    InitialInv(pb);
    RunKeepsInv(pb, INITIAL, es);
    RunKeepsInv(pb, INITIAL, es + [StartSession(rand)]);
    ParserFollowsTheBytes(pb, INITIAL, es);
  }

  lemma {:induction false} ParserFollowsTheBytes(pb: Codec, s: Proxy, es: seq<Event>)
    requires Legal(pb, s, es)
    ensures Run(pb, s, es).rx == Feed(s.rx, Received(es)).0
  {
    hide RxStep, OnFromRadioUart;
    if es != [] {
      ParserFollowsTheBytes(pb, s, Front(es));
      WireStep(s.rx, es);
      StepParser(pb, Run(pb, s, Front(es)), Last(es));
    }
  }

  lemma StepParser(pb: Codec, s: Proxy, e: Event)
    requires Enabled(s, e)
    ensures Step(pb, s, e).rx == if e.RxByte? then RxStep(s.rx, e.b).0 else s.rx
  {
    hide RxStep, OnFromRadioUart;
  }

  /**
   End to end.  A burst that fits the cache, framed on the wire with noise before any frame and closed by
   our terminator, is fetched while the phones do whatever they like.  A phone that asks at any later time
   reads exactly those of the node's frames its nonce selects (with an ordinary nonce, all that are neither
   packets nor terminators), in the node's order, then a terminator with its own nonce, then an empty packet.
   */
  lemma {:induction false} BurstReachesPhone(pb: Codec, s: Proxy, fetch: seq<Event>, bursts: seq<Burst>,
                                             burst: seq<Bytes>, terminator: Bytes, later: seq<Event>,
                                             c: Conn, data: Bytes, nonce: UInt32, drain: seq<Event>)
    requires FetchOpen(pb, s) && ClosedBurst(pb, s.up.nonce, burst, terminator)
    requires Carries(bursts, burst + [terminator])
    requires Legal(pb, s, fetch) && Received(fetch) == NoisyWire(bursts)
    requires Legal(pb, Run(pb, s, fetch), later)
    requires var live := Run(pb, Run(pb, s, fetch), later);
             && Tracked(live.ble, c) && pb.decodeToRadio(data) == Some(WantConfig(nonce))
             && var asked := Step(pb, live, WriteToRadio(c, data, 0));
                Legal(pb, asked, drain) && Stays(pb, drain, c) && Orderly(Readings(pb, asked, drain, c))
    ensures var live := Run(pb, Run(pb, s, fetch), later);
            ReadsThenLive(pb, Step(pb, live, WriteToRadio(c, data, 0)), drain, c,
                         Promised(pb, burst, EffectiveNonce(LinkOf(live.ble, c), nonce)))
  {
    hide Step, Inv, Stays, Orderly, ReadsThenLive, Received, NoisyWire, Carries, Closes, EffectiveNonce;
    var fetched := Run(pb, s, fetch);
    var live := Run(pb, fetched, later);
    FetchFillsTheCache(pb, s, fetch, bursts, burst, terminator);
    NothingLostIffFits(Offered(pb, burst));
    RunKeepsInv(pb, s, fetch);
    RunKeepsInv(pb, fetched, later);
    RunKeepsLiveCache(pb, fetched, later);
    PhoneReadsItsSegment(pb, live, c, data, nonce, drain);
  }

  /**
   End to end for an impatient phone: one that asked while the burst was still being fetched, and is still
   connected when the last byte of our terminator arrives, reads just the same.
   */
  lemma {:induction false} BurstReachesParkedPhone(pb: Codec, s: Proxy, fetch: seq<Event>, bursts: seq<Burst>,
                                                   burst: seq<Bytes>, terminator: Bytes, b: Byte, c: Conn,
                                                   drain: seq<Event>)
    requires FetchOpen(pb, s) && ClosedBurst(pb, s.up.nonce, burst, terminator)
    requires PoolInv(s) && FromPool(fetch) && Legal(pb, s, fetch)
    requires Carries(bursts, burst + [terminator]) && NoisyWire(bursts) == Received(fetch) + [b]
    requires Asked(pb, fetch, c).Some? && Tracked(Run(pb, s, fetch).ble, c)
    requires var closed := Step(pb, Run(pb, s, fetch), RxByte(b));
             Legal(pb, closed, drain) && Stays(pb, drain, c) && Orderly(Readings(pb, closed, drain, c))
    ensures var closed := Step(pb, Run(pb, s, fetch), RxByte(b));
            ReadsThenLive(pb, closed, drain, c, Promised(pb, burst, Asked(pb, fetch, c).value))
  {
    hide Inv, Stays, Orderly;
    var t, last := Run(pb, s, fetch), RxByte(b);
    var n := Asked(pb, fetch, c).value;
    TerminatorCloses(pb, s, fetch, bursts, burst, terminator, b);
    NothingLostIffFits(Offered(pb, burst));
    SegmentIsSelected(Offered(pb, burst), n);
    RunKeepsInv(pb, s, fetch);
    NoPhoneIsStranded(pb, s, fetch, last, c);
    StepKeepsInv(pb, t, last);
    PhoneCollectsItsReplay(pb, Step(pb, t, last), c, drain);
  }
}
