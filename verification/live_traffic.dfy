/** From the wire to a phone's queue: which of the node's packets a phone is offered, and which it gets. */
module LiveTraffic {
  import opened Base
  import opened Codec
  import opened Framing
  import opened LinkModel
  import opened PhoneClient
  import opened BleModel
  import opened ProxyModel
  import opened Routing
  import opened Invariants
  import opened Independence
  import opened EndToEnd

  /** What comes in for phone c: every payload of the node, with its fate, and replies to its own heartbeats. */
  datatype Arrival = FromNode(payload: Bytes, fate: Fate) | OwnReply

  function ArrivalOf(pb: Codec, s: Proxy, e: Event, c: Conn): seq<Arrival> {
    match e
    case RxByte(b) =>
      (match RxStep(s.rx, b).1
       case Some(p) => [FromNode(p, FateOf(pb, SharedOf(s), p))]
       case None => [])
    case WriteToRadio(d, data, offset) =>
      if d == c && offset == 0 && pb.decodeToRadio(data) == Some(Heartbeat) then [OwnReply] else []
    case _ => []
  }

  function Arrivals(pb: Codec, s: Proxy, es: seq<Event>, c: Conn): seq<Arrival>
    requires Legal(pb, s, es)
  {
    if es == [] then []
    else Arrivals(pb, s, Front(es), c) + ArrivalOf(pb, Run(pb, s, Front(es)), Last(es), c)
  }

  function NodePayloads(arrivals: seq<Arrival>): seq<Bytes> {
    if arrivals == [] then []
    else NodePayloads(Front(arrivals)) + if Last(arrivals).FromNode? then [Last(arrivals).payload] else []
  }

  /** The packets meant for phone c, in the order they came in. */
  function MeantFor(pb: Codec, arrivals: seq<Arrival>, c: Conn): seq<Bytes> {
    if arrivals == [] then [] else MeantFor(pb, Front(arrivals), c) + OneMeantFor(pb, Last(arrivals), c)
  }

  function OneMeantFor(pb: Codec, a: Arrival, c: Conn): seq<Bytes> {
    match a
    case FromNode(p, fate) => if fate == Everyone || fate == Unicast(c) then [p] else []
    case OwnReply => [pb.queueStatus]
  }

  lemma {:induction false} OneMoreArrival(pb: Codec, arrivals: seq<Arrival>, a: Arrival, c: Conn)
    ensures NodePayloads(arrivals + [a]) == NodePayloads(arrivals) + if a.FromNode? then [a.payload] else []
    ensures MeantFor(pb, arrivals + [a], c) == MeantFor(pb, arrivals, c) + OneMeantFor(pb, a, c)
  {
    assert Front(arrivals + [a]) == arrivals;
  }

  lemma {:induction false} ArrivalsNow(pb: Codec, s: Proxy, e: Event, c: Conn, sofar: seq<Arrival>)
    ensures NodePayloads(sofar + ArrivalOf(pb, s, e, c))
            == NodePayloads(sofar) + if e.RxByte? then Delivered(RxStep(s.rx, e.b).1) else []
  {
    hide FateOf, RxStep;
    var now := ArrivalOf(pb, s, e, c);
    if now == [] {
      assert sofar + now == sofar;
    } else {
      OneMoreArrival(pb, sofar, now[0], c);
    }
  }

  /** The node's payloads come in as they are framed on the wire, none is lost and none invented. */
  lemma {:induction false} ArrivalsFollowTheWire(pb: Codec, s: Proxy, es: seq<Event>, c: Conn)
    requires Legal(pb, s, es)
    ensures NodePayloads(Arrivals(pb, s, es, c)) == Feed(s.rx, Received(es)).1
  {
    hide Step, ArrivalOf, RxStep, Enabled, Delivered;
    if es != [] {
      ArrivalsFollowTheWire(pb, s, Front(es), c);
      ParserFollowsTheBytes(pb, s, Front(es));
      WireStep(s.rx, es);
      ArrivalsNow(pb, Run(pb, s, Front(es)), Last(es), c, Arrivals(pb, s, Front(es), c));
    }
  }

  // ------------------------------------------------------- into the queue

  /** The packets offered to a link's queue. */
  function Enqueued(h: seq<LinkEvent>): seq<Bytes> {
    if h == [] then [] else Enqueued(Front(h)) + if Last(h).Enqueue? then [Last(h).p] else []
  }

  lemma {:induction false} OneMoreEnqueued(h: seq<LinkEvent>, le: LinkEvent)
    ensures Enqueued(h + [le]) == Enqueued(h) + if le.Enqueue? then [le.p] else []
  {
    assert Front(h + [le]) == h;
  }

  lemma DeliveryIsArrival(pb: Codec, s: Proxy, e: Event, c: Conn)
    ensures var le := DeliverTo(pb, SharedOf(s), e, c);
            (if le.Some? && le.value.Enqueue? then [le.value.p] else [])
            == var now := ArrivalOf(pb, s, e, c); if now == [] then [] else OneMeantFor(pb, now[0], c)
    ensures |ArrivalOf(pb, s, e, c)| <= 1
  {
    hide RxStep, FateOf, RegistryOf;
  }

  /** What is offered to the queue of phone c is what is meant for it, in order. */
  lemma {:induction false} OfferedIsMeant(pb: Codec, s: Proxy, es: seq<Event>, c: Conn)
    requires Legal(pb, s, es)
    ensures Enqueued(History(pb, s, es, c)) == MeantFor(pb, Arrivals(pb, s, es, c), c)
  {
    if es != [] {
      hide Step, DeliverTo, ArrivalOf, OneMeantFor;
      OfferedIsMeant(pb, s, Front(es), c);
      var before, e := Run(pb, s, Front(es)), Last(es);
      var h, sofar := History(pb, s, Front(es), c), Arrivals(pb, s, Front(es), c);
      var le, now := DeliverTo(pb, SharedOf(before), e, c), ArrivalOf(pb, before, e, c);
      DeliveryIsArrival(pb, before, e, c);
      if le.Some? {
        OneMoreEnqueued(h, le.value);
      } else {
        assert History(pb, s, es, c) == h;
      }
      if now == [] {
        assert sofar + now == sofar;
      } else {
        assert now == [now[0]];
        OneMoreArrival(pb, sofar, now[0], c);
      }
    }
  }

  /** Whenever a packet was offered to the link, it was of at most 512 bytes and fewer than eight were waiting. */
  predicate NeverRefused(pb: Codec, l: Link, h: seq<LinkEvent>) {
    h == []
    || (NeverRefused(pb, l, Front(h))
        && (Last(h).Enqueue? ==> |Last(h).p| <= 512 && |LinkRun(pb, l, Front(h)).queue| < 8))
  }

  /** Everything offered gets into the queue, in order, if and only if nothing is refused. */
  lemma {:induction false} AllAcceptedIff(pb: Codec, l: Link, h: seq<LinkEvent>)
    ensures |Accepted(pb, l, h)| <= |Enqueued(h)|
    ensures Accepted(pb, l, h) == Enqueued(h) <==> NeverRefused(pb, l, h)
    ensures NeverRefused(pb, l, h) || |Accepted(pb, l, h)| < |Enqueued(h)|
  {
    if h != [] {
      hide LinkStep;
      AllAcceptedIff(pb, l, Front(h));
    }
  }

  /** No packet meant for phone c came in while eight were waiting for it. */
  predicate AlwaysRoom(pb: Codec, s: Proxy, es: seq<Event>, c: Conn)
    requires Legal(pb, s, es)
  {
    es == []
    || (AlwaysRoom(pb, s, Front(es), c)
        && var before := Run(pb, s, Front(es));
           MeantFor(pb, ArrivalOf(pb, before, Last(es), c), c) != [] && Tracked(before.ble, c)
           ==> |LinkOf(before.ble, c).queue| < 8)
  }

  lemma {:induction false} OneMoreNeverRefused(pb: Codec, l: Link, h: seq<LinkEvent>, le: LinkEvent)
    ensures NeverRefused(pb, l, h + [le])
            <==> NeverRefused(pb, l, h) && (le.Enqueue? ==> |le.p| <= 512 && |LinkRun(pb, l, h).queue| < 8)
  {
    assert Front(h + [le]) == h;
  }

  lemma {:induction false} MeantNow(pb: Codec, s: Proxy, e: Event, c: Conn)
    requires SessionInv(s) && Enabled(s, e)
    ensures var le := DeliverTo(pb, SharedOf(s), e, c);
            && (MeantFor(pb, ArrivalOf(pb, s, e, c), c) != [] <==> le.Some? && le.value.Enqueue?)
            && (le.Some? && le.value.Enqueue? ==> |le.value.p| <= 512)
  {
    hide DeliverTo, ArrivalOf, OneMeantFor, Step;
    DeliveryIsArrival(pb, s, e, c);
    DeliveriesAreFit(pb, s, e, c);
    var now := ArrivalOf(pb, s, e, c);
    assert MeantFor(pb, [], c) == [];
    if now != [] {
      OneMoreArrival(pb, [], now[0], c);
      assert now == [] + [now[0]];
    }
  }

  lemma {:induction false} NeverRefusedIffAlwaysRoom(pb: Codec, s: Proxy, es: seq<Event>, c: Conn)
    requires Inv(pb, s) && Legal(pb, s, es) && Tracked(s.ble, c) && Disconnects(c) !in es
    ensures NeverRefused(pb, LinkOf(s.ble, c), History(pb, s, es, c)) <==> AlwaysRoom(pb, s, es, c)
  {
    if es != [] {
      hide Step, DeliverTo, ArrivalOf, MeantFor, Find, BleInv, LinkAgrees;
      NeverRefusedIffAlwaysRoom(pb, s, Front(es), c);
      RunKeepsInv(pb, s, Front(es));
      LinksAreIndependent(pb, s, Front(es), c);
      var before, e, l, h := Run(pb, s, Front(es)), Last(es), LinkOf(s.ble, c), History(pb, s, Front(es), c);
      MeantNow(pb, before, e, c);
      var le := DeliverTo(pb, SharedOf(before), e, c);
      if le.Some? {
        OneMoreNeverRefused(pb, l, h, le.value);
      } else {
        assert History(pb, s, es, c) == h;
      }
    }
  }

  /**
   Live traffic, from the wire to the phone.  What an orderly phone collects beyond a replay, the packet it
   is in the middle of and its queue are, in order, what was queued before the run and then exactly what
   was meant for it during the run, of the payloads framed on the wire, if and only if none of these came
   in while eight packets were waiting.
   */
  lemma {:induction false} LiveTrafficReachesPhone(pb: Codec, s: Proxy, c: Conn, es: seq<Event>)
    requires Inv(pb, s) && s.up.state == Live && Tracked(s.ble, c) && Legal(pb, s, es)
    requires Stays(pb, es, c) && Orderly(Readings(pb, s, es, c))
    ensures Tracked(Run(pb, s, es).ble, c)
    ensures NodePayloads(Arrivals(pb, s, es, c)) == Feed(s.rx, Received(es)).1
    ensures var l, l' := LinkOf(s.ble, c), LinkOf(Run(pb, s, es).ble, c);
            var script, inbox := Script(l), Collect(Readings(pb, s, es, c));
            var beyond := inbox.done[Min(|inbox.done|, |script|)..];
            NonEmpty(beyond) + InReading(inbox, script, l'.staged) + l'.queue
            == l.queue + MeantFor(pb, Arrivals(pb, s, es, c), c)
            <==> AlwaysRoom(pb, s, es, c)
  {
    hide Step, SessionInv, LinkAgrees, Collect, Orderly, MeantFor, Arrivals;
    ArrivalsFollowTheWire(pb, s, es, c);
    OfferedIsMeant(pb, s, es, c);
    HistoryIsUndisturbed(pb, s, es, c);
    LinksAreIndependent(pb, s, es, c);
    var l, h := LinkOf(s.ble, c), History(pb, s, es, c);
    assert LinkInv(l);
    AllAcceptedIff(pb, l, h);
    NeverRefusedIffAlwaysRoom(pb, s, es, c);
    if l.state == Replaying {
      ClientGetsTheReplay(pb, l, h);
    } else {
      ClientDrainsTheQueue(pb, l, h);
    }
  }
}
