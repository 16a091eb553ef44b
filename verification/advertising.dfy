/** Whether another phone can connect: the proxy advertises while it has a free slot. */
module Advertising {
  import opened Base
  import opened Codec
  import opened BleModel
  import opened ProxyModel
  import opened Invariants

  /**
   Whether the proxy advertises after a run from power-on: advertising is started at power-on, stops when
   a phone connects, perhaps also when a connection attempt fails, and is restarted only on request.
   */
  predicate Advertises(pb: Codec, s: Proxy, es: seq<Event>)
    requires Legal(pb, s, es)
  {
    if es == [] then true
    else
      match Last(es)
      case Connects(_) => AfterConnect(Run(pb, s, Front(es)).ble, false) == Advertise
      case ConnectFails(true) => AfterConnect(Run(pb, s, Front(es)).ble, true) == Advertise
      case Disconnects(_) => true
      case _ => Advertises(pb, s, Front(es))
  }

  /** Phones connect, or fail to, only while the proxy advertises, and only connected phones disconnect. */
  predicate StackBehaves(pb: Codec, s: Proxy, es: seq<Event>)
    requires Legal(pb, s, es)
  {
    es == []
    || (StackBehaves(pb, s, Front(es))
        && (Last(es).Connects? || Last(es).ConnectFails? ==> Advertises(pb, s, Front(es)))
        && (Last(es).Disconnects? ==> Tracked(Run(pb, s, Front(es)).ble, Last(es).conn)))
  }

  lemma StepChangesOccupancy(pb: Codec, s: Proxy, e: Event)
    requires Inv(pb, s) && Enabled(s, e)
    ensures var before, after := Occupied(s.ble.slots), Occupied(Step(pb, s, e).ble.slots);
            match e
            case Connects(_) =>
              && after == (if before < MAX_BLE_CONNECTIONS then before + 1 else before)
              && (AfterConnect(s.ble, false) == Refuse <==> before == MAX_BLE_CONNECTIONS)
            case Disconnects(c) => Tracked(s.ble, c) ==> after == before - 1
            case _ => after == before
  {
    StepKeepsInv(pb, s, e);
    if e.Connects? {
      var i := FirstFree(s.ble.slots, 0);
      if i < |s.ble.slots| {
        NotFull(s.ble.slots, i);
      } else {
        AllUsed(s.ble.slots);
      }
    } else if !e.Disconnects? {
      StepKeepsActive(pb, s, e);
    }
  }

  /** A failed attempt stopped advertising, and nobody has connected or disconnected since. */
  predicate StoppedByFailure(es: seq<Event>) {
    es != []
    && (Last(es) == ConnectFails(true)
        || (!Last(es).Connects? && !Last(es).Disconnects? && StoppedByFailure(Front(es))))
  }

  /**
   In every run the proxy advertises if and only if fewer than six phones are connected and no failed
   attempt has stopped it since the last connect or disconnect.
   */
  lemma {:induction false} AdvertisesIffRoom(pb: Codec, es: seq<Event>)
    requires Legal(pb, INITIAL, es) && StackBehaves(pb, INITIAL, es)
    ensures Advertises(pb, INITIAL, es)
            <==> Occupied(Run(pb, INITIAL, es).ble.slots) < MAX_BLE_CONNECTIONS && !StoppedByFailure(es)
  {
    InitialInv(pb);
    RunKeepsInv(pb, INITIAL, es);
    if es == [] {
      NoSlotsOccupied(MAX_BLE_CONNECTIONS);
    } else {
      AdvertisesIffRoom(pb, Front(es));
      RunKeepsInv(pb, INITIAL, Front(es));
      StepChangesOccupancy(pb, Run(pb, INITIAL, Front(es)), Last(es));
      OccupiedBound(Run(pb, INITIAL, Front(es)).ble.slots);
    }
  }

  /** One failed attempt that stops advertising leaves an empty proxy that nobody can find. */
  lemma {:induction false} FailureSilencesAnEmptyProxy(pb: Codec)
    ensures var es := [ConnectFails(true)];
            && Legal(pb, INITIAL, es) && StackBehaves(pb, INITIAL, es)
            && !Advertises(pb, INITIAL, es) && Occupied(Run(pb, INITIAL, es).ble.slots) == 0
  {
    NoSlotsOccupied(MAX_BLE_CONNECTIONS);
    assert Front([ConnectFails(true)]) == [];
    assert StackBehaves(pb, INITIAL, []) && Advertises(pb, INITIAL, []);
  }

  /** Hence no connection is ever refused. */
  lemma {:induction false} NobodyIsRefused(pb: Codec, es: seq<Event>, c: Conn)
    requires Legal(pb, INITIAL, es + [Connects(c)]) && StackBehaves(pb, INITIAL, es + [Connects(c)])
    ensures AfterConnect(Run(pb, INITIAL, es).ble, false) != Refuse
    ensures Tracked(Run(pb, INITIAL, es + [Connects(c)]).ble, c)
  {
    assert Front(es + [Connects(c)]) == es;
    AdvertisesIffRoom(pb, es);
    InitialInv(pb);
    RunKeepsInv(pb, INITIAL, es);
    StepChangesOccupancy(pb, Run(pb, INITIAL, es), Connects(c));
    ConnectKeepsInv(Run(pb, INITIAL, es).ble, c);
  }
}
