/**
 N phones behave as N independent links: a phone's link evolves as if it were alone with the events
 addressed to it, whoever used its slot before and whatever the other phones do with their links.
 */
module Independence {
  import opened Base
  import opened Codec
  import opened Framing
  import opened LinkModel
  import opened PhoneClient
  import opened BleModel
  import opened ProxyModel
  import opened Routing
  import opened Invariants

  /** The events a run delivers to the link of phone c. */
  function History(pb: Codec, s: Proxy, es: seq<Event>, c: Conn): seq<LinkEvent>
    requires Legal(pb, s, es)
  {
    if es == [] then []
    else
      var le := DeliverTo(pb, SharedOf(Run(pb, s, Front(es))), Last(es), c);
      History(pb, s, Front(es), c) + if le.Some? then [le.value] else []
  }

  /** The FROMRADIO reads of phone c in a run, with the answers it gets. */
  function Readings(pb: Codec, s: Proxy, es: seq<Event>, c: Conn): seq<Reading>
    requires Legal(pb, s, es)
  {
    if es == [] then []
    else
      var e := Last(es);
      Readings(pb, s, Front(es), c)
      + if e.ReadFromRadio? && e.conn == c
        then [Reading(e.offset, e.len, ReadAnswer(pb, Run(pb, s, Front(es)), c, e.offset, e.len))] else []
  }

  lemma StepLink(pb: Codec, s: Proxy, e: Event, c: Conn)
    requires Inv(pb, s) && Enabled(s, e) && Tracked(s.ble, c) && e != Disconnects(c)
    ensures Tracked(Step(pb, s, e).ble, c)
    ensures var le := DeliverTo(pb, SharedOf(s), e, c);
            LinkOf(Step(pb, s, e).ble, c)
            == if le.Some? then LinkStep(pb, LinkOf(s.ble, c), le.value) else LinkOf(s.ble, c)
  {
    var i := Find(s.ble, c);
    var s' := Step(pb, s, e);
    StepSlot(pb, s, e, i);
    StepKeepsInv(pb, s, e);
    assert HoldsConn(s'.ble.slots[i], c);
    FoundAt(s'.ble, i);
  }

  lemma OnlyReadsDeliverReads(pb: Codec, s: Proxy, e: Event, c: Conn)
    ensures var le := DeliverTo(pb, SharedOf(s), e, c);
            if e.ReadFromRadio? && e.conn == c then le == Some(Read(e.offset, e.len))
            else le.Some? ==> !le.value.Read?
  {
  }

  lemma {:induction false} OneMoreDelivery(pb: Codec, l: Link, h: seq<LinkEvent>, le: LinkEvent)
    ensures LinkRun(pb, l, h + [le]) == LinkStep(pb, LinkRun(pb, l, h), le)
    ensures LinkReadings(pb, l, h + [le])
            == LinkReadings(pb, l, h)
               + if le.Read?
                 then [Reading(le.offset, le.len, Response(pb, LinkRun(pb, l, h), le.offset, le.len))] else []
  {
    assert Front(h + [le]) == h;
  }

  /**
   Over every interleaved run, the link of a tracked phone, and every answer to its reads, are those of
   a single link run on only the events addressed to the phone.
   */
  lemma {:induction false} LinksAreIndependent(pb: Codec, s: Proxy, es: seq<Event>, c: Conn)
    requires Inv(pb, s) && Legal(pb, s, es) && Tracked(s.ble, c) && Disconnects(c) !in es
    ensures var l := LinkOf(s.ble, c);
            && Tracked(Run(pb, s, es).ble, c)
            && LinkOf(Run(pb, s, es).ble, c) == LinkRun(pb, l, History(pb, s, es, c))
            && Readings(pb, s, es, c) == LinkReadings(pb, l, History(pb, s, es, c))
  {
    if es != [] {
      LinksAreIndependent(pb, s, Front(es), c);
      RunKeepsInv(pb, s, Front(es));
      var before, e, l := Run(pb, s, Front(es)), Last(es), LinkOf(s.ble, c);
      assert e in es;
      StepLink(pb, before, e, c);
      var h, le := History(pb, s, Front(es), c), DeliverTo(pb, SharedOf(before), e, c);
      if le.Some? {
        OneMoreDelivery(pb, l, h, le.value);
      } else {
        assert History(pb, s, es, c) == h;
      }
      OnlyReadsDeliverReads(pb, before, e, c);
    }
  }

  /** Whatever the previous occupant of its slot left behind, a phone's link starts fresh. */
  lemma {:induction false} NewPhoneStartsFresh(pb: Codec, s: Proxy, c: Conn, es: seq<Event>)
    requires Inv(pb, s) && !Tracked(s.ble, c) && s.ble.active < MAX_BLE_CONNECTIONS
    requires Legal(pb, s, [Connects(c)] + es) && Disconnects(c) !in es
    ensures var s0 := Step(pb, s, Connects(c));
            && Legal(pb, s0, es)
            && Run(pb, s, [Connects(c)] + es) == Run(pb, s0, es)
            && Tracked(Run(pb, s0, es).ble, c)
            && LinkOf(Run(pb, s0, es).ble, c) == LinkRun(pb, FRESH, History(pb, s0, es, c))
            && Readings(pb, s0, es, c) == LinkReadings(pb, FRESH, History(pb, s0, es, c))
  {
    RunInParts(pb, s, [Connects(c)], es);
    assert Front([Connects(c)]) == [];
    assert Run(pb, s, [Connects(c)]) == Step(pb, s, Connects(c));
    ConnectKeepsInv(s.ble, c);
    StepKeepsInv(pb, s, Connects(c));
    LinksAreIndependent(pb, Step(pb, s, Connects(c)), es, c);
  }

  // --------------------------------------------------------- noninterference

  lemma SameFinds(a: Ble, b: Ble, c: Conn)
    requires RegistryOf(a.slots) == RegistryOf(b.slots)
    ensures Find(a, c) == Find(b, c) && (Tracked(a, c) <==> Tracked(b, c))
    ensures FirstFree(a.slots, 0) == FirstFree(b.slots, 0)
  {
    var ra, rb := RegistryOf(a.slots), RegistryOf(b.slots);
    assert |a.slots| == |ra| == |rb| == |b.slots|;
    forall i | 0 <= i < |a.slots|
      ensures a.slots[i].Used? <==> b.slots[i].Used?
      ensures HoldsConn(a.slots[i], c) <==> HoldsConn(b.slots[i], c)
    {
      assert ra[i] == rb[i];
    }
  }

  /** Cache, session, driver and parser never look at a link. */
  lemma SessionIsAutonomous(pb: Codec, s: Proxy, t: Proxy, e: Event)
    requires SharedOf(s) == SharedOf(t) && Enabled(s, e)
    ensures Enabled(t, e)
    ensures var s', t' := Step(pb, s, e), Step(pb, t, e);
            s'.cache == t'.cache && s'.up == t'.up && s'.tx == t'.tx && s'.rx == t'.rx
  {
    hide RxStep;
    if e.Connects? || e.WriteToRadio? {
      SameFinds(s.ble, t.ble, e.conn);
    }
    if e.RxByte? && RxStep(s.rx, e.b).1.Some? {
      SingleFate(pb, s, RxStep(s.rx, e.b).1.value);
      SingleFate(pb, t, RxStep(s.rx, e.b).1.value);
    }
  }

  lemma RegistryEntryIsAutonomous(pb: Codec, s: Proxy, t: Proxy, e: Event, i: nat)
    requires SharedOf(s) == SharedOf(t) && i < |s.ble.slots| == |t.ble.slots|
    ensures EntryOf(SlotAfter(pb, s, e, i)) == EntryOf(SlotAfter(pb, t, e, i))
  {
    assert RegistryOf(s.ble.slots)[i] == RegistryOf(t.ble.slots)[i];
    if e.Connects? {
      SameFinds(s.ble, t.ble, e.conn);
    }
  }

  /** What the events of a step are allowed to depend on evolves by itself. */
  lemma SharedIsAutonomous(pb: Codec, s: Proxy, t: Proxy, e: Event)
    requires Inv(pb, s) && Inv(pb, t) && SharedOf(s) == SharedOf(t) && Enabled(s, e)
    ensures Enabled(t, e)
    ensures SharedOf(Step(pb, s, e)) == SharedOf(Step(pb, t, e))
  {
    SessionIsAutonomous(pb, s, t, e);
    var s', t' := Step(pb, s, e), Step(pb, t, e);
    StepSlot(pb, s, e, 0);
    StepSlot(pb, t, e, 0);
    forall i | 0 <= i < |s.ble.slots|
      ensures RegistryOf(s'.ble.slots)[i] == RegistryOf(t'.ble.slots)[i]
    {
      StepSlot(pb, s, e, i);
      StepSlot(pb, t, e, i);
      RegistryEntryIsAutonomous(pb, s, t, e, i);
    }
    assert RegistryOf(s'.ble.slots) == RegistryOf(t'.ble.slots);
  }

  predicate SameFor(s: Proxy, t: Proxy, c: Conn) {
    && SharedOf(s) == SharedOf(t)
    && Tracked(s.ble, c) && Tracked(t.ble, c)
    && LinkOf(s.ble, c) == LinkOf(t.ble, c)
  }

  /**
   What another phone does that is nobody else's business: any read, a heartbeat, a config request once
   the session is live, and writes that are refused.
   */
  predicate OthersBusiness(pb: Codec, s: Proxy, e: Event, c: Conn) {
    match e
    case ReadFromRadio(d, _, _) => d != c
    case WriteToRadio(d, data, offset) => d != c && (offset != 0 || AnsweredLocally(pb, s, data))
    case WriteNodeReg(d, data, offset) => d != c && (offset != 0 || |data| != PROXY_ID_SIZE)
    case _ => false
  }

  predicate AnsweredLocally(pb: Codec, s: Proxy, data: Bytes) {
    match pb.decodeToRadio(data)
    case Some(Heartbeat) => true
    case Some(WantConfig(_)) => s.up.state == Live
    case _ => false
  }

  /** A run without the others' own business. */
  function WithoutOthersBusiness(pb: Codec, s: Proxy, es: seq<Event>, c: Conn): seq<Event>
    requires Legal(pb, s, es)
  {
    if es == [] then []
    else
      WithoutOthersBusiness(pb, s, Front(es), c)
      + if OthersBusiness(pb, Run(pb, s, Front(es)), Last(es), c) then [] else [Last(es)]
  }

  lemma OthersBusinessIsPrivate(pb: Codec, s: Proxy, e: Event, c: Conn)
    requires Inv(pb, s) && Enabled(s, e) && OthersBusiness(pb, s, e, c)
    ensures SharedOf(Step(pb, s, e)) == SharedOf(s)
    ensures DeliverTo(pb, SharedOf(s), e, c) == None
    ensures !(e.ReadFromRadio? && e.conn == c) && e != Disconnects(c)
  {
    OthersBusinessKeepsSession(pb, s, e, c);
    OthersBusinessKeepsRegistry(pb, s, e, c);
    hide Step, Inv, RegistryOf;
  }

  lemma OthersBusinessKeepsSession(pb: Codec, s: Proxy, e: Event, c: Conn)
    requires Inv(pb, s) && Enabled(s, e) && OthersBusiness(pb, s, e, c)
    ensures var s' := Step(pb, s, e); s'.cache == s.cache && s'.up == s.up && s'.tx == s.tx && s'.rx == s.rx
  {
    hide Give, OnRxByte, Find;
  }

  lemma OthersBusinessKeepsRegistry(pb: Codec, s: Proxy, e: Event, c: Conn)
    requires Inv(pb, s) && Enabled(s, e) && OthersBusiness(pb, s, e, c)
    ensures RegistryOf(Step(pb, s, e).ble.slots) == RegistryOf(s.ble.slots)
  {
    hide Step, FateOf, FrameFor, RxStep, LinkAgrees;
    var s' := Step(pb, s, e);
    StepSlot(pb, s, e, 0);
    forall i | 0 <= i < |s.ble.slots| ensures RegistryOf(s'.ble.slots)[i] == RegistryOf(s.ble.slots)[i] {
      StepSlot(pb, s, e, i);
    }
    assert RegistryOf(s'.ble.slots) == RegistryOf(s.ble.slots);
  }

  /**
   Noninterference: whether, how often and how slowly the other phones read, keep themselves alive or
   fetch their own configuration changes nothing for phone c.
   */
  lemma {:induction false} OthersBusinessDoesNotMatter(pb: Codec, s: Proxy, es: seq<Event>, c: Conn)
    requires Inv(pb, s) && Legal(pb, s, es) && Tracked(s.ble, c) && Disconnects(c) !in es
    ensures var fewer := WithoutOthersBusiness(pb, s, es, c);
            && Legal(pb, s, fewer)
            && SameFor(Run(pb, s, es), Run(pb, s, fewer), c)
            && Readings(pb, s, es, c) == Readings(pb, s, fewer, c)
  {
    hide Inv, DeliverTo, Step, Find, SharedOf, OthersBusiness;
    if es != [] {
      var e, fewer, fewer' := Last(es), WithoutOthersBusiness(pb, s, Front(es), c), WithoutOthersBusiness(pb, s, es, c);
      assert e in es;
      OthersBusinessDoesNotMatter(pb, s, Front(es), c);
      var t, u := Run(pb, s, Front(es)), Run(pb, s, fewer);
      RunKeepsInv(pb, s, Front(es));
      RunKeepsInv(pb, s, fewer);
      StepLink(pb, t, e, c);
      if OthersBusiness(pb, t, e, c) {
        assert fewer' == fewer;
        OthersBusinessIsPrivate(pb, t, e, c);
      } else {
        assert Front(fewer') == fewer && Last(fewer') == e;
        SharedIsAutonomous(pb, t, u, e);
        StepLink(pb, u, e, c);
      }
    }
  }
}
