/** The global invariant, kept by every step of every legal run. */
module Invariants {
  import opened Base
  import opened Codec
  import opened CacheModel
  import opened Framing
  import opened TxModel
  import opened LinkModel
  import opened BleModel
  import opened ProxyModel
  import opened Routing

  predicate SessionInv(s: Proxy) {
    // The cache is published exactly when the session is past fetching.
    && s.up.state != CacheReady
    && (s.cache.ready <==> s.up.state == Live)
    && (s.up.state == Boot ==> s.cache.frames == [])
    && WithinLimits(s.cache.frames)
    && (forall i :: 0 <= i < |s.cache.frames| ==>
          1 <= |s.cache.frames[i].bytes| <= FROMRADIO_MAX_PKT_SIZE && s.cache.frames[i].variant != Packet)
    && NoDuplicates(s.up.parked)
    && |s.up.parked| <= MAX_BLE_CONNECTIONS
    && (s.up.state == Live ==> s.up.parked == [])
    && (s.up.state != Boot ==> s.up.nonce >= 2)
    && s.up.keepaliveNonce >= 2
    && (s.up.keepaliveArmed <==> s.up.state != Boot)
    && RxInv(s.rx)
  }

  /**
   A phone replays only from a published cache, and what it still has to be served is a tail of the
   segment its nonce selects followed by the terminator carrying that same nonce.
   */
  ghost predicate LinkAgrees(pb: Codec, s: Proxy, l: Link) {
    && (l.state == Replaying || l.state == Active ==> s.up.state == Live)
    && (l.state == Replaying ==> IsTail(l.replay, ReplayList(pb, s.cache.frames, l.nonce)))
  }

  ghost predicate IsTail(tail: seq<Bytes>, whole: seq<Bytes>) {
    |tail| <= |whole| && tail == whole[|whole| - |tail|..]
  }

  ghost predicate Inv(pb: Codec, s: Proxy) {
    && SessionInv(s)
    && BleInv(s.ble)
    && TxInv(s.tx)
    && forall i :: 0 <= i < |s.ble.slots| && s.ble.slots[i].Used? ==> LinkAgrees(pb, s, s.ble.slots[i].link)
  }

  lemma {:induction false} NoSlotsOccupied(n: nat)
    ensures Occupied(seq(n, _ => Free)) == 0
  {
    if n > 0 {
      NoSlotsOccupied(n - 1);
      assert Front(seq(n, _ => Free)) == seq(n - 1, _ => Free);
    }
  }

  lemma InitialInv(pb: Codec)
    ensures Inv(pb, INITIAL)
  {
    NoSlotsOccupied(MAX_BLE_CONNECTIONS);
    InitialTxInv();
  }

  // ------------------------------------------------------------ session fields

  lemma AddKeepsFrames(s: Proxy, payload: Bytes, variant: Variant)
    requires SessionInv(s) && s.up.state == Fetching
    requires 1 <= |payload| <= FROMRADIO_MAX_PKT_SIZE && variant != Packet
    ensures SessionInv(AddFrame(s, payload, variant))
  {
    var fs, f := s.cache.frames, Frame(payload, variant);
    assert Front(fs + [f]) == fs;
  }

  lemma FrameKeepsSession(pb: Codec, s: Proxy, payload: Bytes)
    requires SessionInv(s) && 1 <= |payload| <= FROMRADIO_MAX_PKT_SIZE
    ensures SessionInv(OnFromRadioUart(pb, s, payload))
  {
    SingleFate(pb, s, payload);
    var fate := FateOf(pb, SharedOf(s), payload);
    if fate.Cached? {
      FetchWindow(pb, SharedOf(s), payload);
      AddKeepsFrames(s, payload, fate.variant);
    }
  }

  lemma StepKeepsSession(pb: Codec, s: Proxy, e: Event)
    requires SessionInv(s) && Enabled(s, e)
    ensures SessionInv(Step(pb, s, e))
  {
    hide RxStep, OnFromRadioUart, Give, PutRc, Transmit;
    match e
    case RxByte(b) =>
      if RxStep(s.rx, b).1.Some? {
        FrameKeepsSession(pb, s, RxStep(s.rx, b).1.value);
      }
    case _ =>
  }

  // -------------------------------------------------------------- transmission

  /** What a step asks uart_meshtastic_tx to send. */
  function Sends(pb: Codec, s: Proxy, e: Event): Option<Bytes> {
    match e
    case StartSession(rand) => Some(pb.encodeWantConfig(BootNonce(rand)))
    case KeepaliveFires => Some(pb.encodeHeartbeat(s.up.keepaliveNonce))
    case WriteToRadio(c, data, offset) =>
      if offset == 0 && (pb.decodeToRadio(data).None? || pb.decodeToRadio(data).value.OtherToRadio?)
      then Some(data) else None
    case _ => None
  }

  /** The step queues something for the node. */
  predicate Queues(pb: Codec, s: Proxy, e: Event) {
    Sends(pb, s, e).Some? && PutRc(s.tx, Sends(pb, s, e).value) == Ok
  }

  lemma StepTx(pb: Codec, s: Proxy, e: Event)
    requires Enabled(s, e)
    ensures Step(pb, s, e).tx ==
            if e.Driver? then TxStep(s.tx, e.e)
            else if Sends(pb, s, e).Some? then Transmit(s.tx, Sends(pb, s, e).value) else s.tx
  {
    hide RxStep;
    match e
    case RxByte(b) =>
      if RxStep(s.rx, b).1.Some? {
        SingleFate(pb, s, RxStep(s.rx, b).1.value);
      }
    case _ =>
  }

  lemma StepKeepsTx(pb: Codec, s: Proxy, e: Event)
    requires TxInv(s.tx) && Enabled(s, e)
    ensures TxInv(Step(pb, s, e).tx)
  {
    StepTx(pb, s, e);
    if e.Driver? {
      TxStepKeepsInv(s.tx, e.e);
    } else if Sends(pb, s, e).Some? {
      TransmitKeepsInv(s.tx, Sends(pb, s, e).value);
    }
  }

  // --------------------------------------------------------------------- links

  /** Once published, the cache never changes and the session stays live. */
  lemma CacheFrozenOnceLive(pb: Codec, s: Proxy, e: Event)
    requires Enabled(s, e) && s.up.state == Live
    ensures Step(pb, s, e).cache == s.cache && Step(pb, s, e).up.state == Live
  {
    hide RxStep;
    match e
    case RxByte(b) =>
      if RxStep(s.rx, b).1.Some? {
        SingleFate(pb, s, RxStep(s.rx, b).1.value);
      }
    case _ =>
  }

  /** Events delivered to links are well formed; a replay is armed only with the published frames. */
  lemma DeliveriesAreFit(pb: Codec, s: Proxy, e: Event, c: Conn)
    requires SessionInv(s) && Enabled(s, e)
    ensures var le := DeliverTo(pb, SharedOf(s), e, c);
            le.Some? ==>
              && (le.value.Enqueue? ==> 1 <= |le.value.p| <= FROMRADIO_MAX_PKT_SIZE)
              && (le.value.Register? ==> |le.value.id| == PROXY_ID_SIZE)
              && (le.value.Arm? ==>
                    && Step(pb, s, e).up.state == Live
                    && le.value.frames == s.cache.frames == Step(pb, s, e).cache.frames)
  {
    hide RxStep;
    match e
    case RxByte(b) =>
      if RxStep(s.rx, b).1.Some? {
        SingleFate(pb, s, RxStep(s.rx, b).1.value);
      }
    case _ =>
  }

  lemma ReadKeepsTail(l: Link, whole: seq<Bytes>)
    requires IsTail(l.replay, whole)
    ensures IsTail(FreshRead(l).replay, whole)
  {
  }

  lemma LinkStepAgrees(pb: Codec, s: Proxy, s': Proxy, l: Link, le: LinkEvent)
    requires LinkAgrees(pb, s, l)
    requires s.up.state == Live ==> s'.up.state == Live && s'.cache == s.cache
    requires le.Arm? ==> s'.up.state == Live && le.frames == s'.cache.frames
    ensures LinkAgrees(pb, s', LinkStep(pb, l, le))
  {
    if l.state == Replaying {
      ReadKeepsTail(l, ReplayList(pb, s.cache.frames, l.nonce));
    }
  }

  lemma SlotKeepsLink(pb: Codec, s: Proxy, e: Event, i: nat)
    requires Inv(pb, s) && Enabled(s, e) && i < |s.ble.slots|
    ensures var slot := SlotAfter(pb, s, e, i);
            slot.Used? ==> LinkInv(slot.link) && LinkAgrees(pb, Step(pb, s, e), slot.link)
  {
    var slot := s.ble.slots[i];
    if s.up.state == Live {
      CacheFrozenOnceLive(pb, s, e);
    }
    if slot.Used? {
      var le := DeliverTo(pb, SharedOf(s), e, slot.conn);
      DeliveriesAreFit(pb, s, e, slot.conn);
      if le.Some? {
        LinkStepKeepsInv(pb, slot.link, le.value);
        LinkStepAgrees(pb, s, Step(pb, s, e), slot.link, le.value);
      }
    }
  }

  // ---------------------------------------------------------------- slot table

  lemma StepKeepsActive(pb: Codec, s: Proxy, e: Event)
    requires RoutingInv(s) && Enabled(s, e) && !e.Connects? && !e.Disconnects?
    ensures Step(pb, s, e).ble.active == s.ble.active
  {
    hide RxStep;
    match e
    case RxByte(b) =>
      if RxStep(s.rx, b).1.Some? {
        SingleFate(pb, s, RxStep(s.rx, b).1.value);
        ServeArmsEachOnce(pb, s.ble, s.cache.frames, s.up.parked);
      }
    case _ =>
  }

  lemma DeliveriesKeepTable(pb: Codec, s: Proxy, e: Event)
    requires Inv(pb, s) && Enabled(s, e) && !e.Connects? && !e.Disconnects?
    ensures BleInv(Step(pb, s, e).ble)
  {
    hide Step, Enabled, DeliverTo, LinkAgrees, TxInv;
    var s' := Step(pb, s, e);
    StepSlot(pb, s, e, 0);
    forall i | 0 <= i < |s.ble.slots|
      ensures s'.ble.slots[i] == SlotAfter(pb, s, e, i)
      ensures s'.ble.slots[i].Used? ==> LinkInv(s'.ble.slots[i].link)
    {
      StepSlot(pb, s, e, i);
      SlotKeepsLink(pb, s, e, i);
    }
    OccupiedSame(s.ble.slots, s'.ble.slots);
    StepKeepsActive(pb, s, e);
  }

  lemma StepKeepsTable(pb: Codec, s: Proxy, e: Event)
    requires Inv(pb, s) && Enabled(s, e)
    ensures BleInv(Step(pb, s, e).ble)
  {
    match e
    case Connects(c) => ConnectKeepsInv(s.ble, c);
    case Disconnects(c) => DisconnectKeepsInv(s.ble, c);
    case _ => DeliveriesKeepTable(pb, s, e);
  }

  /** Every step of the proxy keeps the global invariant. */
  lemma StepKeepsInv(pb: Codec, s: Proxy, e: Event)
    requires Inv(pb, s) && Enabled(s, e)
    ensures Inv(pb, Step(pb, s, e))
  {
    StepKeepsSession(pb, s, e);
    StepKeepsTx(pb, s, e);
    StepKeepsTable(pb, s, e);
    var s' := Step(pb, s, e);
    forall i | 0 <= i < |s'.ble.slots| && s'.ble.slots[i].Used?
      ensures LinkAgrees(pb, s', s'.ble.slots[i].link)
    {
      StepSlot(pb, s, e, i);
      SlotKeepsLink(pb, s, e, i);
    }
  }

  /** The global invariant holds in every reachable state. */
  lemma {:induction false} RunKeepsInv(pb: Codec, s: Proxy, es: seq<Event>)
    requires Inv(pb, s) && Legal(pb, s, es)
    ensures Inv(pb, Run(pb, s, es))
  {
    if es != [] {
      RunKeepsInv(pb, s, Front(es));
      StepKeepsInv(pb, Run(pb, s, Front(es)), Last(es));
    }
  }

  lemma {:induction false} RunKeepsLiveCache(pb: Codec, s: Proxy, es: seq<Event>)
    requires Legal(pb, s, es) && s.up.state == Live
    ensures Run(pb, s, es).cache == s.cache && Run(pb, s, es).up.state == Live
  {
    if es != [] {
      RunKeepsLiveCache(pb, s, Front(es));
      CacheFrozenOnceLive(pb, Run(pb, s, Front(es)), Last(es));
    }
  }
}
