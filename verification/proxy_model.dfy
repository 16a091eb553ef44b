/**
 The whole proxy as a state and its run-to-completion handlers: BLE callbacks, work items and UART
 events.  The nested decision cascades are kept as the firmware writes them.
 */
module ProxyModel {
  import opened Base
  import opened Codec
  import opened CacheModel
  import opened Framing
  import opened TxModel
  import opened LinkModel
  import opened BleModel
  import opened ProxyProtocol

  const PROXY_PORTNUM: UInt32 := 256
  const FIRST_KEEPALIVE_NONCE: UInt32 := 2
  const KEEPALIVE_MS: nat := 300_000

  datatype UpState = Boot | Fetching | CacheReady | Live

  datatype Upstream = Upstream(
    state: UpState,
    nonce: UInt32,
    parked: seq<Conn>,
    keepaliveNonce: UInt32,     // for the next keepalive
    keepalivePending: bool,     // its queueStatus is still outstanding
    keepaliveArmed: bool,
    dueIn: nat)                 // milliseconds until the armed keepalive is due

  datatype Proxy = Proxy(cache: Cache, ble: Ble, up: Upstream, tx: Tx, rx: Rx)

  const INITIAL := Proxy(
    Cache([], false), Ble(NO_SLOTS, 0), Upstream(Boot, 0, [], FIRST_KEEPALIVE_NONCE, false, false, 0),
    TX_INITIAL, WaitMagic1)

  // ----------------------------------------------------------- upstream session

  /** The nonce of the proxy's own config request is never 0 or 1. */
  function BootNonce(rand: UInt32): UInt32 {
    if rand == 0 || rand == 1 then 2 else rand
  }

  function Start(pb: Codec, s: Proxy, rand: UInt32): Proxy {
    var request := pb.encodeWantConfig(BootNonce(rand));
    var up := s.up.(nonce := BootNonce(rand), parked := []);
    var s' := s.(cache := Cache([], false), up := up, tx := Transmit(s.tx, request));
    if PutRc(s.tx, request) == Ok
    then s'.(up := up.(state := Fetching, keepaliveArmed := true, dueIn := KEEPALIVE_MS))
    else s'
  }

  function NextKeepaliveNonce(n: UInt32): UInt32 {
    var next := Increment(n);
    if next == 0 || next == 1 then 2 else next
  }

  function Keepalive(pb: Codec, s: Proxy): Proxy {
    var beat := pb.encodeHeartbeat(s.up.keepaliveNonce);
    s.(up := s.up.(keepaliveNonce := NextKeepaliveNonce(s.up.keepaliveNonce),
                   keepalivePending := PutRc(s.tx, beat) == Ok,
                   dueIn := KEEPALIVE_MS),
       tx := Transmit(s.tx, beat))
  }

  /** Pushes the armed keepalive out to its full interval. */
  function Reschedule(s: Proxy): Proxy {
    if s.up.keepaliveArmed then s.(up := s.up.(dueIn := KEEPALIVE_MS)) else s
  }

  function AddFrame(s: Proxy, payload: Bytes, variant: Variant): Proxy {
    s.(cache := s.cache.(frames := Add(s.cache.frames, Frame(payload, variant))))
  }

  /** Our terminator: publish the cache, serve the parked phones, go live. */
  function CloseBurst(pb: Codec, s: Proxy): Proxy {
    s.(cache := s.cache.(ready := true),
       ble := Serve(pb, s.ble, s.cache.frames, s.up.parked),
       up := s.up.(state := Live, parked := []))
  }

  /** The second component says whether the session consumed the frame. */
  function UpstreamOnFromRadio(pb: Codec, s: Proxy, payload: Bytes, info: FromRadioInfo): (Proxy, bool) {
    if s.up.state != Fetching then (s, false)
    else if info.variant == Packet then (s, false)
    else if info.variant == ConfigComplete then
      match pb.decodeConfigComplete(payload)
      case None => (AddFrame(s, payload, info.variant), true)
      case Some(nonce) =>
        if nonce != s.up.nonce then (AddFrame(s, payload, info.variant), true) else (CloseBurst(pb, s), true)
    else (AddFrame(s, payload, info.variant), true)
  }

  function OnPendingPhone(pb: Codec, s: Proxy, c: Conn): Proxy {
    if s.cache.ready then s.(ble := Give(pb, s.ble, c, Arm(0, s.cache.frames)))
    else if c in s.up.parked || |s.up.parked| >= MAX_BLE_CONNECTIONS then s
    else s.(up := s.up.(parked := s.up.parked + [c]))
  }

  // --------------------------------------------------------- node -> phones

  /** The router's second tier: packets, by port number and proxy header. */
  function RoutePacket(pb: Codec, s: Proxy, raw: Bytes, info: FromRadioInfo): Proxy {
    if !info.isDecoded then s.(ble := Broadcast(pb, s.ble, raw))
    else if info.portnum == PROXY_PORTNUM then
      match ParseHeader(info.payload)
      case None => s.(ble := Broadcast(pb, s.ble, raw))
      case Some(header) =>
        match ConnByProxyId(RegistryOf(s.ble.slots), header.dst)
        case Some(c) => s.(ble := Give(pb, s.ble, c, Enqueue(raw)))
        case None => s.(ble := Broadcast(pb, s.ble, raw))
    else s.(ble := Broadcast(pb, s.ble, raw))
  }

  function RouterDispatch(pb: Codec, s: Proxy, raw: Bytes, info: FromRadioInfo): Proxy {
    var (s', consumed) := if s.up.state == Fetching then UpstreamOnFromRadio(pb, s, raw, info) else (s, false);
    if consumed then s'
    else if info.variant != Packet then
      if info.variant == QueueStatus && s'.up.keepalivePending
      then s'.(up := s'.up.(keepalivePending := false))
      else s'.(ble := Broadcast(pb, s'.ble, raw))
    else RoutePacket(pb, s', raw, info)
  }

  function OnFromRadioUart(pb: Codec, s: Proxy, payload: Bytes): Proxy {
    match pb.decodeFromRadio(payload)
    case None => s.(ble := Broadcast(pb, s.ble, payload))
    case Some(info) => RouterDispatch(pb, s, payload, info)
  }

  function OnRxByte(pb: Codec, s: Proxy, b: Byte): Proxy {
    var (rx, frame) := RxStep(s.rx, b);
    var s' := if frame.Some? then OnFromRadioUart(pb, s, frame.value) else s;
    s'.(rx := rx)
  }

  // --------------------------------------------------------- phones -> node

  function ParkPending(pb: Codec, s: Proxy, c: Conn, nonce: UInt32): Proxy {
    if Tracked(s.ble, c)
    then OnPendingPhone(pb, s.(ble := Give(pb, s.ble, c, Park(nonce))), c)
    else s
  }

  /** Only a packet that was queued for the node pushes the keepalive out. */
  function Forward(s: Proxy, data: Bytes): Proxy {
    var s' := s.(tx := Transmit(s.tx, data));
    if PutRc(s.tx, data) == Ok then Reschedule(s') else s'
  }

  function OnToRadio(pb: Codec, s: Proxy, c: Conn, data: Bytes): Proxy {
    match pb.decodeToRadio(data)
    case None => s.(tx := Transmit(s.tx, data))
    case Some(WantConfig(nonce)) =>
      if s.up.state == CacheReady || s.up.state == Live
      then s.(ble := Give(pb, s.ble, c, Arm(nonce, s.cache.frames)))
      else ParkPending(pb, s, c, nonce)
    case Some(Heartbeat) => s.(ble := Give(pb, s.ble, c, Enqueue(pb.queueStatus)))
    case Some(OtherToRadio) => Forward(s, data)
  }

  // ------------------------------------------------------------------ events

  datatype Event =
    | Connects(conn: Conn)
    | ConnectFails(advertisingStops: bool)    // a connected callback with an error
    | Disconnects(conn: Conn)
    | ReadFromRadio(conn: Conn, offset: nat, len: nat)
    | WriteToRadio(conn: Conn, data: Bytes, offset: nat)
    | WriteNodeReg(conn: Conn, data: Bytes, offset: nat)
    | RxByte(b: Byte)
    | StartSession(rand: UInt32)
    | TimePasses(ms: nat)
    | KeepaliveFires
    | Driver(e: TxEvent)

  /** What the Bluetooth stack, the timer and the hardware promise about events. */
  predicate Enabled(s: Proxy, e: Event) {
    match e
    case Connects(c) => !Tracked(s.ble, c)
    case StartSession(_) => s.up.state == Boot
    case KeepaliveFires => s.up.keepaliveArmed && s.up.dueIn == 0
    case Driver(d) => !d.Put? && TxEnabled(s.tx, d)
    case _ => true
  }

  function Step(pb: Codec, s: Proxy, e: Event): Proxy
    requires Enabled(s, e)
  {
    match e
    case Connects(c) => s.(ble := Connect(s.ble, c))
    case ConnectFails(_) => s
    case Disconnects(c) => s.(ble := Disconnect(s.ble, c))
    case ReadFromRadio(c, offset, len) => s.(ble := Give(pb, s.ble, c, Read(offset, len)))
    case WriteToRadio(c, data, offset) => if offset == 0 then OnToRadio(pb, s, c, data) else s
    case WriteNodeReg(c, data, offset) =>
      if offset == 0 && |data| == PROXY_ID_SIZE then s.(ble := Give(pb, s.ble, c, Register(data))) else s
    case RxByte(b) => OnRxByte(pb, s, b)
    case StartSession(rand) => Start(pb, s, rand)
    case TimePasses(ms) => s.(up := s.up.(dueIn := s.up.dueIn - Min(ms, s.up.dueIn)))
    case KeepaliveFires => Keepalive(pb, s)
    case Driver(d) => s.(tx := TxStep(s.tx, d))
  }

  /** The answer to a FROMRADIO read. */
  function ReadAnswer(pb: Codec, s: Proxy, c: Conn, offset: nat, len: nat): ReadResult {
    if Tracked(s.ble, c) then Response(pb, LinkOf(s.ble, c), offset, len) else Failed(Unlikely)
  }

  // -------------------------------------------------------------------- runs

  predicate Legal(pb: Codec, s: Proxy, es: seq<Event>)
    decreases |es|, 0
  {
    es == [] || (Legal(pb, s, Front(es)) && Enabled(Run(pb, s, Front(es)), Last(es)))
  }

  function Run(pb: Codec, s: Proxy, es: seq<Event>): Proxy
    requires Legal(pb, s, es)
    decreases |es|, 1
  {
    if es == [] then s else Step(pb, Run(pb, s, Front(es)), Last(es))
  }

  lemma {:induction false} OneMoreEvent(pb: Codec, s: Proxy, es: seq<Event>, e: Event)
    requires Legal(pb, s, es) && Enabled(Run(pb, s, es), e)
    ensures Legal(pb, s, es + [e]) && Run(pb, s, es + [e]) == Step(pb, Run(pb, s, es), e)
  {
    assert Front(es + [e]) == es;
  }

  lemma {:induction false} FourEvents(pb: Codec, s: Proxy, e1: Event, e2: Event, e3: Event, e4: Event)
    requires Enabled(s, e1) && Enabled(Step(pb, s, e1), e2)
    requires Enabled(Step(pb, Step(pb, s, e1), e2), e3)
    requires Enabled(Step(pb, Step(pb, Step(pb, s, e1), e2), e3), e4)
    ensures Legal(pb, s, [e1, e2, e3, e4])
    ensures Run(pb, s, [e1, e2, e3, e4]) == Step(pb, Step(pb, Step(pb, Step(pb, s, e1), e2), e3), e4)
    ensures Legal(pb, s, [e1]) && Legal(pb, s, [e1, e2]) && Legal(pb, s, [e1, e2, e3])
    ensures Run(pb, s, [e1]) == Step(pb, s, e1)
    ensures Run(pb, s, [e1, e2]) == Step(pb, Step(pb, s, e1), e2)
    ensures Run(pb, s, [e1, e2, e3]) == Step(pb, Step(pb, Step(pb, s, e1), e2), e3)
    ensures Front([e1, e2]) == [e1] && Front([e1, e2, e3]) == [e1, e2] && Front([e1, e2, e3, e4]) == [e1, e2, e3]
  {
    hide Step, Enabled;
    OneMoreEvent(pb, s, [], e1);
    assert [] + [e1] == [e1];
    OneMoreEvent(pb, s, [e1], e2);
    assert [e1] + [e2] == [e1, e2];
    OneMoreEvent(pb, s, [e1, e2], e3);
    assert [e1, e2] + [e3] == [e1, e2, e3];
    OneMoreEvent(pb, s, [e1, e2, e3], e4);
    assert [e1, e2, e3] + [e4] == [e1, e2, e3, e4];
  }

  lemma {:induction false} RunInParts(pb: Codec, s: Proxy, a: seq<Event>, b: seq<Event>)
    ensures Legal(pb, s, a + b) <==> Legal(pb, s, a) && Legal(pb, Run(pb, s, a), b)
    ensures Legal(pb, s, a + b) ==> Run(pb, s, a + b) == Run(pb, Run(pb, s, a), b)
  {
    if b == [] {
      assert a + b == a;
    } else {
      assert Front(a + b) == a + Front(b) && Last(a + b) == Last(b);
      RunInParts(pb, s, a, Front(b));
    }
  }
}
