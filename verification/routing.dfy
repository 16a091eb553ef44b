/**
 Who gets what.  Every frame from the node has one fate, and every step of the proxy delivers at most one
 event to each phone's link, chosen without looking at any phone's queue, replay or staged packet.
 */
module Routing {
  import opened Base
  import opened Codec
  import opened CacheModel
  import opened Framing
  import opened TxModel
  import opened LinkModel
  import opened BleModel
  import opened ProxyProtocol
  import opened ProxyModel

  /** The part of the state that decides deliveries: everything but the phones' links. */
  datatype Shared = Shared(cache: Cache, up: Upstream, tx: Tx, rx: Rx, registry: Registry)

  function SharedOf(s: Proxy): Shared {
    Shared(s.cache, s.up, s.tx, s.rx, RegistryOf(s.ble.slots))
  }

  // -------------------------------------------------------------------- fates

  datatype Fate =
    | Cached(variant: Variant)
    | Closing
    | Swallowed
    | Unicast(conn: Conn)
    | Everyone

  function ProxyTarget(registry: Registry, info: FromRadioInfo): Option<Conn> {
    if info.isDecoded && info.portnum == PROXY_PORTNUM && ParseHeader(info.payload).Some?
    then ConnByProxyId(registry, ParseHeader(info.payload).value.dst)
    else None
  }

  /** The fate of a frame, as a flat table. */
  function FateOf(pb: Codec, sh: Shared, payload: Bytes): Fate {
    match pb.decodeFromRadio(payload)
    case None => Everyone
    case Some(info) =>
      if info.variant != Packet && sh.up.state == Fetching then
        if pb.decodeConfigComplete(payload) == Some(sh.up.nonce) then Closing else Cached(info.variant)
      else if info.variant == QueueStatus && sh.up.keepalivePending then Swallowed
      else if info.variant == Packet && ProxyTarget(sh.registry, info).Some?
      then Unicast(ProxyTarget(sh.registry, info).value)
      else Everyone
  }

  function ApplyFate(pb: Codec, s: Proxy, payload: Bytes, fate: Fate): Proxy {
    match fate
    case Cached(variant) => AddFrame(s, payload, variant)
    case Closing => CloseBurst(pb, s)
    case Swallowed => s.(up := s.up.(keepalivePending := false))
    case Unicast(c) => s.(ble := Give(pb, s.ble, c, Enqueue(payload)))
    case Everyone => s.(ble := Broadcast(pb, s.ble, payload))
  }

  /** The dispatch cascade gives every frame exactly the one fate of the table. */
  lemma SingleFate(pb: Codec, s: Proxy, payload: Bytes)
    ensures OnFromRadioUart(pb, s, payload) == ApplyFate(pb, s, payload, FateOf(pb, SharedOf(s), payload))
  {
  }

  /** Packets are never cached, and while the burst is fetched nothing but packets reaches a phone's queue. */
  lemma FetchWindow(pb: Codec, sh: Shared, payload: Bytes)
    requires pb.decodeFromRadio(payload).Some?
    ensures var info := pb.decodeFromRadio(payload).value;
            var fate := FateOf(pb, sh, payload);
            && (fate.Cached? || fate.Closing? <==> sh.up.state == Fetching && info.variant != Packet)
            && (fate.Cached? ==> fate.variant == info.variant != Packet)
            && (fate.Closing? ==> info.variant == ConfigComplete)
  {
  }

  /**
   A payload built with the proxy header goes to the lowest occupied slot registered under its non-zero
   destination, and to everyone exactly when there is none.
   */
  lemma {:induction false} AddressedPacketIsUnicast(pb: Codec, s: Proxy, raw: Bytes, src: Bytes, dst: Bytes,
                                                    content: Bytes)
    requires |src| == |dst| == 4 && |content| <= 191
    requires pb.decodeFromRadio(raw).Some?
    requires var info := pb.decodeFromRadio(raw).value;
             && info.variant == Packet && info.isDecoded && info.portnum == 256
             && BuildHeader(src, dst, content, 200) == Some(info.payload)
    ensures var fate, slots := FateOf(pb, SharedOf(s), raw), s.ble.slots;
            && (fate == Everyone
                <==> dst == [0, 0, 0, 0] || forall i :: 0 <= i < |slots| ==> !HasId(slots[i], dst))
            && (forall i: nat :: dst != [0, 0, 0, 0] && LowestWithId(slots, dst, i)
                                 ==> fate == Unicast(slots[i].conn))
  {
    BuildThenParse(src, dst, content, 200);
    FindsTheLowest(s.ble.slots, dst);
  }

  /** Everything that is no well-formed proxy packet goes to everyone: no frame is dropped for being unreadable. */
  lemma OtherPacketsGoToEveryone(pb: Codec, sh: Shared, raw: Bytes)
    requires pb.decodeFromRadio(raw).Some? ==>
               var info := pb.decodeFromRadio(raw).value;
               && info.variant == Packet
               && !(info.isDecoded && info.portnum == 256 && |info.payload| >= 9 && info.payload[0] == 1)
    ensures FateOf(pb, sh, raw) == Everyone
  {
  }

  // --------------------------------------------------------------- deliveries

  /** The event a frame's fate means for the link of phone c. */
  function FrameFor(sh: Shared, payload: Bytes, fate: Fate, c: Conn): Option<LinkEvent> {
    match fate
    case Cached(_) => None
    case Closing => if c in sh.up.parked then Some(Arm(0, sh.cache.frames)) else None
    case Swallowed => None
    case Unicast(d) => if d == c then Some(Enqueue(payload)) else None
    case Everyone => Some(Enqueue(payload))
  }

  /** What one step of the proxy delivers to phone c. */
  function DeliverTo(pb: Codec, sh: Shared, e: Event, c: Conn): Option<LinkEvent> {
    match e
    case ReadFromRadio(d, offset, len) => if d == c then Some(Read(offset, len)) else None
    case WriteNodeReg(d, data, offset) =>
      if d == c && offset == 0 && |data| == PROXY_ID_SIZE then Some(Register(data)) else None
    case WriteToRadio(d, data, offset) =>
      if d != c || offset != 0 then None
      else (match pb.decodeToRadio(data)
            case Some(WantConfig(nonce)) =>
              Some(if sh.up.state == Live then Arm(nonce, sh.cache.frames) else Park(nonce))
            case Some(Heartbeat) => Some(Enqueue(pb.queueStatus))
            case _ => None)
    case RxByte(b) =>
      (match RxStep(sh.rx, b).1
       case None => None
       case Some(payload) => FrameFor(sh, payload, FateOf(pb, sh, payload), c))
    case _ => None
  }

  function Receive(pb: Codec, s: Slot, le: Option<LinkEvent>): Slot {
    if le.Some? then Touch(pb, s, le.value) else s
  }

  /** What one step makes of slot i. */
  function SlotAfter(pb: Codec, s: Proxy, e: Event, i: nat): Slot
    requires i < |s.ble.slots|
  {
    var slot := s.ble.slots[i];
    match e
    case Connects(c) => if i == FirstFree(s.ble.slots, 0) then Used(c, FRESH) else slot
    case Disconnects(c) => if HoldsConn(slot, c) then Free else slot
    case _ => if slot.Used? then Receive(pb, slot, DeliverTo(pb, SharedOf(s), e, slot.conn)) else Free
  }

  /** The part of the global invariant that routing relies on. */
  predicate RoutingInv(s: Proxy) {
    && Distinct(s.ble.slots)
    && NoDuplicates(s.up.parked)
    && s.up.state != CacheReady
    && (s.cache.ready <==> s.up.state == Live)
  }

  lemma GiveSlots(pb: Codec, b: Ble, c: Conn, e: LinkEvent, i: nat)
    requires Distinct(b.slots) && i < |b.slots|
    ensures Give(pb, b, c, e).slots[i]
            == if HoldsConn(b.slots[i], c) then Touch(pb, b.slots[i], e) else b.slots[i]
  {
    if HoldsConn(b.slots[i], c) {
      FoundAt(b, i);
    }
  }

  lemma ToRadioSlot(pb: Codec, s: Proxy, c: Conn, data: Bytes, i: nat)
    requires RoutingInv(s) && i < |s.ble.slots|
    ensures OnToRadio(pb, s, c, data).ble.slots[i] == SlotAfter(pb, s, WriteToRadio(c, data, 0), i)
  {
    match pb.decodeToRadio(data)
    case Some(WantConfig(nonce)) =>
      GiveSlots(pb, s.ble, c, if s.up.state == Live then Arm(nonce, s.cache.frames) else Park(nonce), i);
    case Some(Heartbeat) => GiveSlots(pb, s.ble, c, Enqueue(pb.queueStatus), i);
    case _ =>
  }

  lemma RxByteSlot(pb: Codec, s: Proxy, b: Byte, i: nat)
    requires RoutingInv(s) && i < |s.ble.slots|
    ensures |OnRxByte(pb, s, b).ble.slots| == |s.ble.slots|
    ensures OnRxByte(pb, s, b).ble.slots[i] == SlotAfter(pb, s, RxByte(b), i)
  {
    hide RxStep;
    var frame := RxStep(s.rx, b).1;
    ServeArmsEachOnce(pb, s.ble, s.cache.frames, s.up.parked);
    if frame.Some? {
      SingleFate(pb, s, frame.value);
      match FateOf(pb, SharedOf(s), frame.value)
      case Unicast(c) => GiveSlots(pb, s.ble, c, Enqueue(frame.value), i);
      case _ =>
    }
  }

  /** A step changes each slot as if it were alone: by the one event delivered to it, if any. */
  lemma StepSlot(pb: Codec, s: Proxy, e: Event, i: nat)
    requires RoutingInv(s) && Enabled(s, e) && i < |s.ble.slots|
    ensures |Step(pb, s, e).ble.slots| == |s.ble.slots|
    ensures Step(pb, s, e).ble.slots[i] == SlotAfter(pb, s, e, i)
  {
    match e
    case ReadFromRadio(c, offset, len) => GiveSlots(pb, s.ble, c, Read(offset, len), i);
    case WriteNodeReg(c, data, offset) => GiveSlots(pb, s.ble, c, Register(data), i);
    case WriteToRadio(c, data, offset) => ToRadioSlot(pb, s, c, data, i);
    case RxByte(b) => RxByteSlot(pb, s, b, i);
    case Disconnects(c) =>
      if HoldsConn(s.ble.slots[i], c) {
        FoundAt(s.ble, i);
      }
    case _ =>
  }
}
