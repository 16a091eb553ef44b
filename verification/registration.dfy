/** Which id a phone is registered under, and whom an addressed packet reaches. */
module Registration {
  import opened Base
  import opened Codec
  import opened Framing
  import opened LinkModel
  import opened BleModel
  import opened ProxyProtocol
  import opened ProxyModel
  import opened Routing
  import opened Invariants
  import opened Independence

  /** A NODE_REG write that is accepted: four bytes at offset 0. */
  predicate Registers(e: Event, c: Conn) {
    e.WriteNodeReg? && e.conn == c && e.offset == 0 && |e.data| == 4
  }

  /** The data of the latest accepted NODE_REG write of c since it connected, or four zeros. */
  function LatestId(es: seq<Event>, c: Conn): Bytes {
    if es == [] then [0, 0, 0, 0]
    else if Registers(Last(es), c) then Last(es).data
    else if Last(es) == Connects(c) || Last(es) == Disconnects(c) then [0, 0, 0, 0]
    else LatestId(Front(es), c)
  }

  lemma DeliveryAndId(pb: Codec, sh: Shared, l: Link, e: Event, c: Conn)
    ensures var le := DeliverTo(pb, sh, e, c);
            (if le.Some? then LinkStep(pb, l, le.value) else l).proxyId
            == if Registers(e, c) then e.data else l.proxyId
  {
    hide RxStep, FateOf, EnqueueRc;
  }

  lemma StepKeepsId(pb: Codec, s: Proxy, e: Event, c: Conn)
    requires Inv(pb, s) && Enabled(s, e) && Tracked(s.ble, c) && e != Disconnects(c)
    ensures Tracked(Step(pb, s, e).ble, c)
    ensures LinkOf(Step(pb, s, e).ble, c).proxyId == if Registers(e, c) then e.data else LinkOf(s.ble, c).proxyId
  {
    hide Step, DeliverTo, Inv, Find, SharedOf, LinkStep, Enabled;
    StepLink(pb, s, e, c);
    DeliveryAndId(pb, SharedOf(s), LinkOf(s.ble, c), e, c);
  }

  lemma StepBeforeTracked(pb: Codec, s: Proxy, e: Event, c: Conn)
    requires Inv(pb, s) && Enabled(s, e) && Tracked(Step(pb, s, e).ble, c)
    ensures e != Disconnects(c)
    ensures if e == Connects(c) then LinkOf(Step(pb, s, e).ble, c).proxyId == [0, 0, 0, 0] else Tracked(s.ble, c)
  {
    var s' := Step(pb, s, e);
    StepSlot(pb, s, e, 0);
    StepSlot(pb, s, e, Find(s'.ble, c));
    if e == Disconnects(c) {
      DisconnectKeepsInv(s.ble, c);
    }
    if e == Connects(c) {
      OccupiedBound(s.ble.slots);
      ConnectKeepsInv(s.ble, c);
    }
  }

  /**
   In every run a tracked phone is registered under the data of its latest accepted NODE_REG write since it
   connected, or under four zeros if there was none; nothing else it or anybody does changes that.
   */
  lemma {:induction false} RegisteredUnderLatestId(pb: Codec, es: seq<Event>, c: Conn)
    requires Legal(pb, INITIAL, es) && Tracked(Run(pb, INITIAL, es).ble, c)
    ensures LinkOf(Run(pb, INITIAL, es).ble, c).proxyId == LatestId(es, c)
  {
    hide Step, Inv, Find, Enabled, LinkOf;
    InitialInv(pb);
    if es == [] {
      NobodyAtPowerOn(c);
    } else {
      var before, e := Run(pb, INITIAL, Front(es)), Last(es);
      RunKeepsInv(pb, INITIAL, Front(es));
      StepBeforeTracked(pb, before, e, c);
      if e != Connects(c) {
        RegisteredUnderLatestId(pb, Front(es), c);
        StepKeepsId(pb, before, e, c);
      }
    }
  }

  lemma NobodyAtPowerOn(c: Conn)
    ensures !Tracked(INITIAL.ble, c)
  {
  }

  /**
   Addressing, from the registration to the queue.  If phone c last registered dst and no other tracked
   phone did, then a packet built for dst is appended to the queue of c, if fewer than eight packets wait
   there, and changes the link of no other phone.
   */
  lemma {:induction false} AddressedPacketReachesItsPhone(pb: Codec, es: seq<Event>, b: Byte, raw: Bytes, src: Bytes,
                                                          dst: Bytes, content: Bytes, c: Conn)
    requires Legal(pb, INITIAL, es) && |src| == |dst| == 4 && dst != [0, 0, 0, 0] && |content| <= 191
    requires var s := Run(pb, INITIAL, es);
             && Tracked(s.ble, c) && RxStep(s.rx, b).1 == Some(raw)
             && forall d :: Tracked(s.ble, d) ==> (LatestId(es, d) == dst <==> d == c)
    requires pb.decodeFromRadio(raw).Some?
    requires var info := pb.decodeFromRadio(raw).value;
             && info.variant == Packet && info.isDecoded && info.portnum == 256
             && BuildHeader(src, dst, content, 200) == Some(info.payload)
    ensures var s := Run(pb, INITIAL, es);
            var s' := Step(pb, s, RxByte(b));
            && FateOf(pb, SharedOf(s), raw) == Unicast(c)
            && forall d :: Tracked(s.ble, d) ==>
                 && Tracked(s'.ble, d)
                 && (d != c ==> LinkOf(s'.ble, d) == LinkOf(s.ble, d))
                 && (d == c ==> LinkOf(s'.ble, d).queue
                                == LinkOf(s.ble, d).queue + if |LinkOf(s.ble, d).queue| < 8 then [raw] else [])
  {
    var s := Run(pb, INITIAL, es);
    InitialInv(pb);
    RunKeepsInv(pb, INITIAL, es);
    OnlyTheirSlots(pb, es, dst, c);
    AddressedPacketIsUnicast(pb, s, raw, src, dst, content);
    forall d | Tracked(s.ble, d)
      ensures var s' := Step(pb, s, RxByte(b));
              && Tracked(s'.ble, d)
              && (d != c ==> LinkOf(s'.ble, d) == LinkOf(s.ble, d))
              && (d == c ==> LinkOf(s'.ble, d).queue
                             == LinkOf(s.ble, d).queue + if |LinkOf(s.ble, d).queue| < 8 then [raw] else [])
    {
      UnicastStep(pb, s, b, raw, c, d);
    }
  }

  lemma {:induction false} OnlyTheirSlots(pb: Codec, es: seq<Event>, dst: Bytes, c: Conn)
    requires Legal(pb, INITIAL, es) && Tracked(Run(pb, INITIAL, es).ble, c)
    requires forall d :: Tracked(Run(pb, INITIAL, es).ble, d) ==> (LatestId(es, d) == dst <==> d == c)
    ensures var b := Run(pb, INITIAL, es).ble; LowestWithId(b.slots, dst, Find(b, c))
  {
    var b := Run(pb, INITIAL, es).ble;
    InitialInv(pb);
    RunKeepsInv(pb, INITIAL, es);
    RegisteredUnderLatestId(pb, es, c);
    assert HoldsConn(b.slots[Find(b, c)], c);
    forall k | 0 <= k < Find(b, c) ensures !HasId(b.slots[k], dst) {
      if b.slots[k].Used? {
        FoundAt(b, k);
        RegisteredUnderLatestId(pb, es, b.slots[k].conn);
      }
    }
  }

  lemma UnicastStep(pb: Codec, s: Proxy, b: Byte, raw: Bytes, c: Conn, d: Conn)
    requires Inv(pb, s) && Tracked(s.ble, d)
    requires RxStep(s.rx, b).1 == Some(raw) && FateOf(pb, SharedOf(s), raw) == Unicast(c)
    ensures var s' := Step(pb, s, RxByte(b));
            && Tracked(s'.ble, d)
            && (d != c ==> LinkOf(s'.ble, d) == LinkOf(s.ble, d))
            && (d == c ==> LinkOf(s'.ble, d).queue
                           == LinkOf(s.ble, d).queue + if |LinkOf(s.ble, d).queue| < 8 then [raw] else [])
  {
    hide Step, Inv, Find, FateOf, RxStep, RegistryOf;
    StepLink(pb, s, RxByte(b), d);
    EnqueueAppendsOrRefuses(pb, LinkOf(s.ble, d), raw);
    ReceivedIsShort(pb, s, b);
  }

  lemma ReceivedIsShort(pb: Codec, s: Proxy, b: Byte)
    requires Inv(pb, s)
    ensures RxStep(s.rx, b).1.Some? ==> |RxStep(s.rx, b).1.value| <= 512
  {
    hide RxStep;
  }
}
