/** The modules wired together as main.c does, and the router between them. */
module FirmwareImage {
  import opened Base
  import opened Codec
  import opened ConfigCacheStore
  import opened Framing
  import opened UartReceiver
  import opened TxModel
  import opened UartTransmitter
  import opened LinkModel
  import opened BleModel
  import opened GattServer
  import opened ProxyProtocol
  import opened ProxyModel
  import opened SessionWithNode
  import opened Invariants

  /** The receive events of a chunk of bytes. */
  function RxEvents(bytes: Bytes): seq<Event> {
    seq(|bytes|, i requires 0 <= i < |bytes| => RxByte(bytes[i]))
  }

  /** No handler of a frame looks at the parser, so the parser may be advanced first. */
  lemma ParserFirst(pb: Codec, s: Proxy, b: Byte)
    ensures var (rx, frame) := RxStep(s.rx, b);
            Step(pb, s, RxByte(b))
            == if frame.Some? then OnFromRadioUart(pb, s.(rx := rx), frame.value) else s.(rx := rx)
  {
    hide RxStep;
  }

  /** The proxy's events for steps of the transmit driver. */
  function DriverEvents(steps: seq<TxEvent>): seq<Event> {
    seq(|steps|, i requires 0 <= i < |steps| => Driver(steps[i]))
  }

  lemma {:induction false} DriverRun(pb: Codec, s: Proxy, steps: seq<TxEvent>)
    requires TxLegal(s.tx, steps) && forall i :: 0 <= i < |steps| ==> !steps[i].Put?
    ensures Legal(pb, s, DriverEvents(steps))
    ensures Run(pb, s, DriverEvents(steps)) == s.(tx := TxRun(s.tx, steps))
  {
    if steps != [] {
      assert Front(DriverEvents(steps)) == DriverEvents(Front(steps));
      assert Last(DriverEvents(steps)) == Driver(Last(steps));
      DriverRun(pb, s, Front(steps));
    }
  }

  class Firmware {
    const pb: Codec
    const cache: ConfigCache
    const ble: BleGatt
    const up: UpstreamSession
    const tx: UartTx
    const rx: UartRx
    ghost const Repr: set<object>

    ghost predicate Separated() {
      && Repr == cache.Footprint() + ble.Repr + up.Footprint() + tx.Footprint() + rx.Footprint()
      && cache.Footprint() !! ble.Repr !! up.Footprint() !! tx.Footprint() !! rx.Footprint()
      && ble in ble.Repr
      && ble.pb == pb && up.pb == pb
    }

    ghost predicate Wired()
      reads this, Repr
    {
      && Separated()
      && cache.Valid() && ble.Valid() && up.Valid() && tx.Valid() && rx.Valid()
      && ble.ReplaysFrom(cache.model.frames)
    }

    ghost function Model(): Proxy
      requires Wired()
      reads this, Repr
    {
      Proxy(cache.model, ble.model, up.model, tx.model, rx.Model())
    }

    /** Between two handlers. */
    ghost predicate Valid()
      reads this, Repr
    {
      Wired() && Inv(pb, Model())
    }

    constructor (pb: Codec)
      ensures Valid() && fresh(Repr)
      ensures this.pb == pb && Model() == INITIAL
    {
      hide ConfigCache.Valid, BleGatt.Valid, BleGatt.ReplaysFrom, UartTx.Valid, UartRx.Valid, UpstreamSession.Valid;
      hide Inv, Wired, Firmware.Valid, Firmware.Model;
      this.pb := pb;
      var c := new ConfigCache();
      var b := new BleGatt(pb);
      ghost var cs, bs := c.Footprint(), b.Repr;
      assert cs !! bs;
      var u := new UpstreamSession(pb);
      ghost var us := u.Footprint();
      assert us !! cs + bs;
      var t := new UartTx();
      ghost var ts := t.Footprint();
      assert ts !! cs + bs + us;
      var r := new UartRx();
      ghost var rs := r.Footprint();
      assert rs !! cs + bs + us + ts;
      cache, ble, up, tx, rx := c, b, u, t, r;
      Repr := cs + bs + us + ts + rs;
      new;
      assert Separated();
      Assembled();
    }

    /** Initialised modules that share nothing make a valid proxy. */
    lemma Assembled()
      requires Separated()
      requires cache.Valid() && ble.Valid() && up.Valid() && tx.Valid() && rx.Valid()
      requires ble.ReplaysFrom([])
      requires cache.model == INITIAL.cache && ble.model == INITIAL.ble && up.model == INITIAL.up
      requires tx.model == INITIAL.tx && rx.Model() == INITIAL.rx
      ensures Valid() && Model() == INITIAL
    {
      hide ConfigCache.Valid, BleGatt.Valid, BleGatt.ReplaysFrom, UartTx.Valid, UartRx.Valid, UpstreamSession.Valid;
      hide Inv, Firmware.Separated;
      InitialInv(pb);
    }

    /** The modules, without how they are wired. */
    lemma Parts()
      requires Wired()
      ensures cache.Valid() && ble.Valid() && up.Valid() && tx.Valid() && rx.Valid()
      ensures ble.ReplaysFrom(cache.model.frames)
      ensures cache.Footprint() <= Repr && ble.Repr <= Repr && up.Footprint() <= Repr
      ensures tx.Footprint() <= Repr && rx.Footprint() <= Repr
      ensures cache.Footprint() !! ble.Repr !! up.Footprint() !! tx.Footprint() !! rx.Footprint()
      ensures ble.pb == pb && up.pb == pb
    {
    }

    /** While the session is not live no slot is replaying, so the cache may still change. */
    lemma NothingReplaysBeforeLive()
      requires Wired() && Inv(pb, Model()) && up.state != Live
      ensures forall frames :: ble.ReplaysFrom(frames)
    {
      forall i | 0 <= i < |ble.conns| ensures ble.conns[i].state != Replaying {
        assert ble.model.slots[i] == BleGatt.SlotOf(ble.conns[i]);
      }
    }

    /** After work confined to the connection table the rest is as it was. */
    twostate lemma OnlyBleChanged()
      requires old(Wired()) && unchanged(Repr - ble.Repr)
      requires ble.Valid() && ble.ReplaysFrom(cache.model.frames)
      ensures Wired() && Model() == old(Model()).(ble := ble.model)
    {
      hide ConfigCache.Valid, BleGatt.Valid, BleGatt.ReplaysFrom, UartTx.Valid, UartRx.Valid, UpstreamSession.Valid;
    }

    /** Likewise for the transmit driver. */
    twostate lemma OnlyTxChanged()
      requires old(Wired()) && unchanged(Repr - tx.Footprint())
      requires tx.Valid()
      ensures Wired() && Model() == old(Model()).(tx := tx.model)
    {
      hide ConfigCache.Valid, BleGatt.Valid, BleGatt.ReplaysFrom, UartTx.Valid, UartRx.Valid, UpstreamSession.Valid;
    }

    /** And for the parser. */
    twostate lemma OnlyRxChanged()
      requires old(Wired()) && unchanged(Repr - rx.Footprint())
      requires rx.Valid()
      ensures Wired() && Model() == old(Model()).(rx := rx.Model())
      ensures forall frames :: old(ble.ReplaysFrom(frames)) ==> ble.ReplaysFrom(frames)
    {
      hide ConfigCache.Valid, BleGatt.Valid, BleGatt.ReplaysFrom, UartTx.Valid, UartRx.Valid, UpstreamSession.Valid;
    }

    /** And for the session with the node, which also drives the cache and the transmitter. */
    twostate lemma OnlySessionChanged()
      requires old(Wired()) && unchanged(ble.Repr) && unchanged(rx.Footprint())
      requires cache.Valid() && up.Valid() && tx.Valid()
      requires cache.model.frames == old(cache.model.frames) || old(forall frames :: ble.ReplaysFrom(frames))
      ensures Wired() && Model() == old(Model()).(cache := cache.model, up := up.model, tx := tx.model)
    {
      hide ConfigCache.Valid, BleGatt.Valid, BleGatt.ReplaysFrom, UartTx.Valid, UartRx.Valid, UpstreamSession.Valid;
    }

    /** And for a frame the session takes. */
    twostate lemma OnlySessionAndBleChanged()
      requires old(Wired()) && unchanged(tx.Footprint()) && unchanged(rx.Footprint())
      requires cache.Valid() && ble.Valid() && up.Valid() && ble.ReplaysFrom(cache.model.frames)
      ensures Wired() && Model() == old(Model()).(cache := cache.model, ble := ble.model, up := up.model)
    {
      hide ConfigCache.Valid, BleGatt.Valid, BleGatt.ReplaysFrom, UartTx.Valid, UartRx.Valid, UpstreamSession.Valid;
    }

    method Broadcast(raw: Bytes)
      requires Wired()
      modifies ble.Repr
      ensures Wired()
      ensures Model() == old(Model()).(ble := BleModel.Broadcast(pb, old(Model()).ble, raw))
    {
      hide ConfigCache.Valid, BleGatt.Valid, BleGatt.ReplaysFrom, UartTx.Valid, UartRx.Valid, UpstreamSession.Valid;
      hide Wired, Firmware.Separated;
      Parts();
      var sent := ble.BroadcastFromRadio(raw);
      OnlyBleChanged();
    }

    /** router_dispatch: the upstream window and the first tier. */
    method RouterDispatch(raw: Bytes, info: FromRadioInfo)
      requires Wired()
      requires up.state == Fetching ==> forall frames :: ble.ReplaysFrom(frames)
      modifies Repr
      ensures Wired()
      ensures Model() == ProxyModel.RouterDispatch(pb, old(Model()), raw, info)
    {
      hide ConfigCache.Valid, BleGatt.Valid, BleGatt.ReplaysFrom, UartTx.Valid, UartRx.Valid, UpstreamSession.Valid;
      hide Wired, Firmware.Separated, BleModel.Broadcast, ProxyModel.RoutePacket, UpstreamOnFromRadio;
      Parts();
      if up.state == Fetching {
        var consumed := up.OnFromRadio(raw, info, cache, ble, tx.model, rx.Model());
        OnlySessionAndBleChanged();
        if consumed {
          return;
        }
      }
      if info.variant != Packet {
        if info.variant == QueueStatus {
          label Asking:
          var swallow := up.SwallowLiveQueueStatus();
          OnlySessionChanged@Asking();
          if swallow {
            return;
          }
        }
        Broadcast(raw);
        return;
      }
      RoutePacket(raw, info);
    }

    /** router_dispatch: the second tier. */
    method RoutePacket(raw: Bytes, info: FromRadioInfo)
      requires Wired()
      modifies ble.Repr
      ensures Wired()
      ensures Model() == ProxyModel.RoutePacket(pb, old(Model()), raw, info)
    {
      hide ConfigCache.Valid, BleGatt.Valid, BleGatt.ReplaysFrom, UartTx.Valid, UartRx.Valid, UpstreamSession.Valid;
      hide Wired, Firmware.Separated, BleModel.Broadcast, Give;
      Parts();
      if !info.isDecoded {
        Broadcast(raw);
        return;
      }
      if info.portnum == PROXY_PORTNUM {
        var header := ParseHeader(info.payload);
        if header.None? {
          Broadcast(raw);
          return;
        }
        var c := ble.GetConnByProxyId(header.value.dst);
        if c.Some? {
          var rc := ble.Enqueue(c.value, raw);
          OnlyBleChanged();
        } else {
          Broadcast(raw);
        }
        return;
      }
      Broadcast(raw);
    }

    /** on_fromradio_uart. */
    method FromRadioUart(payload: Bytes)
      requires Wired()
      requires up.state == Fetching ==> forall frames :: ble.ReplaysFrom(frames)
      modifies Repr
      ensures Wired()
      ensures Model() == OnFromRadioUart(pb, old(Model()), payload)
    {
      var info := pb.decodeFromRadio(payload);
      if info.None? {
        Broadcast(payload);
      } else {
        RouterDispatch(payload, info.value);
      }
    }

    method ReceiveByte(byte: Byte)
      requires Valid()
      modifies Repr
      ensures Valid()
      ensures Model() == Step(pb, old(Model()), RxByte(byte))
    {
      hide ConfigCache.Valid, BleGatt.Valid, BleGatt.ReplaysFrom, UartTx.Valid, UartRx.Valid, UpstreamSession.Valid;
      hide Inv, Wired, Firmware.Separated, OnFromRadioUart, Step;
      Parts();
      if up.state != Live {
        NothingReplaysBeforeLive();
      }
      StepKeepsInv(pb, Model(), RxByte(byte));
      ParserFirst(pb, Model(), byte);
      var frame := rx.ProcessByte(byte);
      OnlyRxChanged();
      if frame.Some? {
        FromRadioUart(frame.value);
      }
    }

    /** rx_work_handler on the bytes it finds in the ring buffer. */
    method RxWork(bytes: Bytes)
      requires Valid()
      modifies Repr
      ensures Valid()
      ensures Legal(pb, old(Model()), RxEvents(bytes))
      ensures Model() == Run(pb, old(Model()), RxEvents(bytes))
    {
      hide Inv, Wired, Step;
      var i := 0;
      while i < |bytes|
        invariant i <= |bytes| && Valid()
        invariant Legal(pb, old(Model()), RxEvents(bytes[..i]))
        invariant Model() == Run(pb, old(Model()), RxEvents(bytes[..i]))
      {
        ReceiveByte(bytes[i]);
        assert Front(RxEvents(bytes[..i + 1])) == RxEvents(bytes[..i]);
        i := i + 1;
      }
      assert bytes[..i] == bytes;
    }

    method PhoneConnected(c: Conn, err: bool) returns (ask: StackRequest)
      requires Valid() && Enabled(Model(), Connects(c))
      modifies Repr
      ensures Valid()
      ensures forall stops :: Model() == Step(pb, old(Model()), if err then ConnectFails(stops) else Connects(c))
      ensures ask == AfterConnect(old(Model()).ble, err)
    {
      hide ConfigCache.Valid, BleGatt.Valid, BleGatt.ReplaysFrom, UartTx.Valid, UartRx.Valid, UpstreamSession.Valid;
      hide Inv, Wired, Firmware.Separated;
      Parts();
      StepKeepsInv(pb, Model(), Connects(c));
      ask := ble.OnConnected(c, err);
      OnlyBleChanged();
    }

    method PhoneDisconnected(c: Conn) returns (ask: StackRequest)
      requires Valid()
      modifies Repr
      ensures Valid()
      ensures Model() == Step(pb, old(Model()), Disconnects(c))
      ensures ask == Advertise
    {
      hide ConfigCache.Valid, BleGatt.Valid, BleGatt.ReplaysFrom, UartTx.Valid, UartRx.Valid, UpstreamSession.Valid;
      hide Inv, Wired, Firmware.Separated;
      Parts();
      StepKeepsInv(pb, Model(), Disconnects(c));
      ask := ble.OnDisconnected(c);
      OnlyBleChanged();
    }

    method FromRadioRead(c: Conn, offset: nat, len: nat) returns (r: ReadResult)
      requires Valid()
      modifies Repr
      ensures Valid()
      ensures r == ReadAnswer(pb, old(Model()), c, offset, len)
      ensures Model() == Step(pb, old(Model()), ReadFromRadio(c, offset, len))
    {
      hide ConfigCache.Valid, BleGatt.Valid, BleGatt.ReplaysFrom, UartTx.Valid, UartRx.Valid, UpstreamSession.Valid;
      hide Wired, Firmware.Separated, BleInv, TxInv, LinkAgrees;
      Parts();
      StepKeepsInv(pb, Model(), ReadFromRadio(c, offset, len));
      r := ble.FromRadioRead(cache, c, offset, len);
      OnlyBleChanged();
    }

    method NodeRegWrite(c: Conn, data: Bytes, offset: nat) returns (error: Option<AttError>)
      requires Valid()
      modifies Repr
      ensures Valid()
      ensures error == if offset != 0 || |data| != PROXY_ID_SIZE then Some(InvalidAttributeLength) else None
      ensures Model() == Step(pb, old(Model()), WriteNodeReg(c, data, offset))
    {
      hide ConfigCache.Valid, BleGatt.Valid, BleGatt.ReplaysFrom, UartTx.Valid, UartRx.Valid, UpstreamSession.Valid;
      hide Inv, Wired, Firmware.Separated;
      if offset != 0 || |data| != PROXY_ID_SIZE {
        return Some(InvalidAttributeLength);
      }
      Parts();
      StepKeepsInv(pb, Model(), WriteNodeReg(c, data, offset));
      var rc := ble.RegisterProxyId(c, data);
      OnlyBleChanged();
      error := None;
    }

    /** ble_gatt_park_pending. */
    method ParkPending(c: Conn, nonce: UInt32)
      requires Wired()
      modifies Repr
      ensures Wired()
      ensures Model() == ProxyModel.ParkPending(pb, old(Model()), c, nonce)
    {
      hide ConfigCache.Valid, BleGatt.Valid, BleGatt.ReplaysFrom, UartTx.Valid, UartRx.Valid, UpstreamSession.Valid;
      var tracked := ble.MarkPending(c, nonce);
      if tracked {
        up.OnPendingPhone(c, cache, ble, tx.model, rx.Model());
      }
    }

    /** on_toradio_ble. */
    method ToRadio(c: Conn, data: Bytes)
      requires Wired()
      modifies Repr
      ensures Wired()
      ensures Model() == OnToRadio(pb, old(Model()), c, data)
    {
      hide ConfigCache.Valid, BleGatt.Valid, BleGatt.ReplaysFrom, UartTx.Valid, UartRx.Valid;
      match pb.decodeToRadio(data) {
        case None =>
          var rc := tx.Transmit(data);
        case Some(WantConfig(nonce)) =>
          if up.state == CacheReady || up.state == Live {
            ble.ReplayCachedBurst(c, nonce, cache.model.frames);
          } else {
            ParkPending(c, nonce);
          }
        case Some(Heartbeat) =>
          ble.ReplyQueueStatus(c);
        case Some(OtherToRadio) =>
          var rc := tx.Transmit(data);
          if rc == Ok {
            up.KeepaliveReschedule();
          }
      }
    }

    /** toradio_write. */
    method ToRadioWrite(c: Conn, data: Bytes, offset: nat) returns (error: Option<AttError>)
      requires Valid()
      modifies Repr
      ensures Valid()
      ensures error == if offset != 0 then Some(InvalidOffset) else None
      ensures Model() == Step(pb, old(Model()), WriteToRadio(c, data, offset))
    {
      if offset != 0 {
        return Some(InvalidOffset);
      }
      StepKeepsInv(pb, Model(), WriteToRadio(c, data, offset));
      hide Inv;
      ToRadio(c, data);
      error := None;
    }

    method StartSession(rand: UInt32)
      requires Valid() && Enabled(Model(), Event.StartSession(rand))
      modifies Repr
      ensures Valid()
      ensures Model() == Step(pb, old(Model()), Event.StartSession(rand))
    {
      hide ConfigCache.Valid, BleGatt.Valid, BleGatt.ReplaysFrom, UartTx.Valid, UartRx.Valid, UpstreamSession.Valid;
      hide Inv, Wired, Firmware.Separated, ProxyModel.Start;
      Parts();
      NothingReplaysBeforeLive();
      StepKeepsInv(pb, Model(), Event.StartSession(rand));
      up.Start(rand, cache, tx, ble.model, rx.Model());
      OnlySessionChanged();
    }

    method TimePasses(ms: nat)
      requires Valid()
      modifies Repr
      ensures Valid()
      ensures Model() == Step(pb, old(Model()), Event.TimePasses(ms))
    {
      hide ConfigCache.Valid, BleGatt.Valid, BleGatt.ReplaysFrom, UartTx.Valid, UartRx.Valid, UpstreamSession.Valid;
      hide Inv, Wired, Firmware.Separated;
      Parts();
      StepKeepsInv(pb, Model(), Event.TimePasses(ms));
      up.Elapse(ms);
      OnlySessionChanged();
    }

    method KeepaliveFires()
      requires Valid() && Enabled(Model(), Event.KeepaliveFires)
      modifies Repr
      ensures Valid()
      ensures Model() == Step(pb, old(Model()), Event.KeepaliveFires)
    {
      hide ConfigCache.Valid, BleGatt.Valid, BleGatt.ReplaysFrom, UartTx.Valid, UartRx.Valid, UpstreamSession.Valid;
      hide Inv, Wired, Firmware.Separated, Keepalive;
      Parts();
      StepKeepsInv(pb, Model(), Event.KeepaliveFires);
      up.KeepaliveWork(tx, cache.model, ble.model, rx.Model());
      OnlySessionChanged();
    }

    /** tx_work_handler, with a completion interrupt where it can meet one. */
    method TxWork(accepted: bool, doneEarly: bool, doneInside: bool)
      requires Valid() && TxEnabled(tx.model, StartWork)
      requires doneEarly ==> tx.model.hardware.Some?
      requires doneInside ==> accepted
      modifies Repr
      ensures Valid()
      ensures var es := DriverEvents(HandlerSteps(old(tx.model), accepted, doneEarly, doneInside));
              Legal(pb, old(Model()), es) && Model() == Run(pb, old(Model()), es)
    {
      hide ConfigCache.Valid, BleGatt.Valid, BleGatt.ReplaysFrom, UartTx.Valid, UartRx.Valid, UpstreamSession.Valid;
      hide Wired, Firmware.Separated, SessionInv, BleInv, TxInv, LinkAgrees, TxRun, TxLegal, Legal, Run;
      Parts();
      ghost var before := Model();
      ghost var steps := HandlerSteps(tx.model, accepted, doneEarly, doneInside);
      tx.WorkHandler(accepted, doneEarly, doneInside);
      OnlyTxChanged();
      DriverRun(pb, before, steps);
      RunKeepsInv(pb, before, DriverEvents(steps));
    }

    /** UART_TX_DONE and UART_TX_ABORTED. */
    method TxComplete()
      requires Valid() && Enabled(Model(), Driver(Complete))
      modifies Repr
      ensures Valid()
      ensures Model() == Step(pb, old(Model()), Driver(Complete))
    {
      hide ConfigCache.Valid, BleGatt.Valid, BleGatt.ReplaysFrom, UartTx.Valid, UartRx.Valid, UpstreamSession.Valid;
      hide Wired, Firmware.Separated, SessionInv, BleInv, TxInv, LinkAgrees;
      Parts();
      StepKeepsInv(pb, Model(), Driver(Complete));
      tx.OnComplete();
      OnlyTxChanged();
    }
  }
}
