/** Phones that ask for the configuration before it has been fetched. */
module Parking {
  import opened Base
  import opened Codec
  import opened Framing
  import opened TxModel
  import opened LinkModel
  import opened BleModel
  import opened ProxyModel
  import opened Routing
  import opened Invariants
  import opened Independence

  // ------------------------------------------------- the list never overflows

  /** Connection objects come from a pool as large as the slot table. */
  predicate PoolInv(s: Proxy) {
    && (forall i :: 0 <= i < |s.ble.slots| && s.ble.slots[i].Used? ==> s.ble.slots[i].conn < MAX_BLE_CONNECTIONS)
    && (forall i :: 0 <= i < |s.up.parked| ==> s.up.parked[i] < MAX_BLE_CONNECTIONS)
  }

  predicate FromPool(es: seq<Event>) {
    forall i :: 0 <= i < |es| ==> es[i].Connects? ==> es[i].conn < MAX_BLE_CONNECTIONS
  }

  function Below(n: nat): (r: set<nat>)
    ensures |r| == n
    ensures forall k: nat :: k in r <==> k < n
  {
    if n == 0 then {} else Below(n - 1) + {n - 1}
  }

  function Elements(s: seq<Conn>): (r: set<Conn>)
    ensures forall c :: c in r <==> c in s
  {
    if s == [] then {} else Elements(Front(s)) + {Last(s)}
  }

  lemma {:induction false} AsManyAsElements(s: seq<Conn>)
    requires NoDuplicates(s)
    ensures |Elements(s)| == |s|
  {
    if s != [] {
      AsManyAsElements(Front(s));
      assert Last(s) !in Front(s);
    }
  }

  /** With room in the pool for c there is room in the list for c: the overflow branch is never taken. */
  lemma ParkingHasRoom(s: Proxy, c: Conn)
    requires PoolInv(s) && NoDuplicates(s.up.parked)
    requires Tracked(s.ble, c) && c !in s.up.parked
    ensures |s.up.parked| < MAX_BLE_CONNECTIONS
  {
    assert HoldsConn(s.ble.slots[Find(s.ble, c)], c);
    RoomForOneMore(s.up.parked, c);
  }

  lemma RoomForOneMore(parked: seq<Conn>, c: Conn)
    requires NoDuplicates(parked) && c !in parked && c < MAX_BLE_CONNECTIONS
    requires forall i :: 0 <= i < |parked| ==> parked[i] < MAX_BLE_CONNECTIONS
    ensures |parked| < MAX_BLE_CONNECTIONS
  {
    var listed := Elements(parked);
    AsManyAsElements(parked);
    SubsetSize(listed + {c}, Below(MAX_BLE_CONNECTIONS));
  }

  lemma {:induction false} SubsetSize<T>(a: set<T>, b: set<T>)
    requires a <= b
    ensures |a| <= |b|
  {
    if a != {} {
      var x :| x in a;
      SubsetSize(a - {x}, b - {x});
    }
  }

  predicate WantsConfig(pb: Codec, e: Event, c: Conn) {
    && e.WriteToRadio? && e.conn == c && e.offset == 0
    && pb.decodeToRadio(e.data).Some? && pb.decodeToRadio(e.data).value.WantConfig?
  }

  /** How one step changes the list of parked phones while the burst is being fetched. */
  lemma StepParked(pb: Codec, s: Proxy, e: Event)
    requires Inv(pb, s) && PoolInv(s) && Enabled(s, e)
    requires s.up.state == Fetching && Step(pb, s, e).up.state == Fetching
    ensures var parked := Step(pb, s, e).up.parked;
            if e.WriteToRadio? && WantsConfig(pb, e, e.conn) && Tracked(s.ble, e.conn) && e.conn !in s.up.parked
            then parked == s.up.parked + [e.conn]
            else parked == s.up.parked
  {
    hide RxStep;
    if e.RxByte? && RxStep(s.rx, e.b).1.Some? {
      SingleFate(pb, s, RxStep(s.rx, e.b).1.value);
    }
    if e.WriteToRadio? && Tracked(s.ble, e.conn) && e.conn !in s.up.parked {
      ParkingHasRoom(s, e.conn);
    }
  }

  lemma StepKeepsPool(pb: Codec, s: Proxy, e: Event)
    requires Inv(pb, s) && PoolInv(s) && Enabled(s, e)
    requires e.Connects? ==> e.conn < MAX_BLE_CONNECTIONS
    ensures PoolInv(Step(pb, s, e))
  {
    SlotsStayInPool(pb, s, e);
    ListStaysInPool(pb, s, e);
    hide Step, Inv, Enabled;
  }

  lemma SlotsStayInPool(pb: Codec, s: Proxy, e: Event)
    requires Inv(pb, s) && PoolInv(s) && Enabled(s, e)
    requires e.Connects? ==> e.conn < MAX_BLE_CONNECTIONS
    ensures var slots := Step(pb, s, e).ble.slots;
            forall i :: 0 <= i < |slots| && slots[i].Used? ==> slots[i].conn < MAX_BLE_CONNECTIONS
  {
    hide Step, Enabled, DeliverTo, LinkStep, TxInv;
    var slots := Step(pb, s, e).ble.slots;
    StepSlot(pb, s, e, 0);
    forall i | 0 <= i < |slots| && slots[i].Used? ensures slots[i].conn < MAX_BLE_CONNECTIONS {
      StepSlot(pb, s, e, i);
    }
  }

  lemma ListStaysInPool(pb: Codec, s: Proxy, e: Event)
    requires Inv(pb, s) && PoolInv(s) && Enabled(s, e)
    ensures forall i :: 0 <= i < |Step(pb, s, e).up.parked| ==> Step(pb, s, e).up.parked[i] < MAX_BLE_CONNECTIONS
  {
    hide RxStep;
    if e.RxByte? && RxStep(s.rx, e.b).1.Some? {
      SingleFate(pb, s, RxStep(s.rx, e.b).1.value);
    }
    if e.WriteToRadio? && Tracked(s.ble, e.conn) {
      assert HoldsConn(s.ble.slots[Find(s.ble, e.conn)], e.conn);
    }
  }

  lemma {:induction false} RunKeepsPool(pb: Codec, s: Proxy, es: seq<Event>)
    requires Inv(pb, s) && PoolInv(s) && Legal(pb, s, es) && FromPool(es)
    ensures PoolInv(Run(pb, s, es))
  {
    if es != [] {
      RunKeepsInv(pb, s, Front(es));
      RunKeepsPool(pb, s, Front(es));
      assert Last(es) == es[|es| - 1];
      StepKeepsPool(pb, Run(pb, s, Front(es)), Last(es));
    }
  }

  // ------------------------------------------------------------ who is parked

  /** Phone c asked for the configuration at some point of the run at which it was tracked. */
  predicate AskedWhileTracked(pb: Codec, s: Proxy, es: seq<Event>, c: Conn)
    requires Legal(pb, s, es)
  {
    es != []
    && (AskedWhileTracked(pb, s, Front(es), c)
        || (WantsConfig(pb, Last(es), c) && Tracked(Run(pb, s, Front(es)).ble, c)))
  }

  /** The nonce of the latest request of c since it last connected or disconnected. */
  function Asked(pb: Codec, es: seq<Event>, c: Conn): Option<UInt32> {
    if es == [] then None
    else if WantsConfig(pb, Last(es), c) then Some(pb.decodeToRadio(Last(es).data).value.nonce)
    else if Last(es) == Connects(c) || Last(es) == Disconnects(c) then None
    else Asked(pb, Front(es), c)
  }

  lemma {:induction false} FetchingNeverRestarts(pb: Codec, s: Proxy, es: seq<Event>)
    requires Legal(pb, s, es) && s.up.state == Fetching && es != [] && Run(pb, s, es).up.state == Fetching
    ensures Run(pb, s, Front(es)).up.state == Fetching
    decreases |es|
  {
    var before := Run(pb, s, Front(es));
    StartedStaysStarted(pb, s, Front(es));
    if before.up.state == Live {
      CacheFrozenOnceLive(pb, before, Last(es));
    }
  }

  lemma StartedOnce(pb: Codec, s: Proxy, e: Event)
    requires Enabled(s, e) && (s.up.state == Fetching || s.up.state == Live)
    ensures var up := Step(pb, s, e).up;
            (up.state == Fetching || up.state == Live) && up.nonce == s.up.nonce
  {
    hide RxStep;
    if e.RxByte? && RxStep(s.rx, e.b).1.Some? {
      SingleFate(pb, s, RxStep(s.rx, e.b).1.value);
    }
  }

  lemma {:induction false} StartedStaysStarted(pb: Codec, s: Proxy, es: seq<Event>)
    requires Legal(pb, s, es) && (s.up.state == Fetching || s.up.state == Live)
    ensures Run(pb, s, es).up.state == Fetching || Run(pb, s, es).up.state == Live
    ensures Run(pb, s, es).up.nonce == s.up.nonce
  {
    hide Step;
    if es != [] {
      StartedStaysStarted(pb, s, Front(es));
      StartedOnce(pb, Run(pb, s, Front(es)), Last(es));
    }
  }

  /** While the burst is fetched, the parked phones are exactly those that asked since it was started. */
  lemma {:induction false} ParkedAreThoseWhoAsked(pb: Codec, s: Proxy, es: seq<Event>, c: Conn)
    requires Inv(pb, s) && PoolInv(s) && Legal(pb, s, es) && FromPool(es)
    requires s.up.state == Fetching && s.up.parked == [] && Run(pb, s, es).up.state == Fetching
    ensures c in Run(pb, s, es).up.parked <==> AskedWhileTracked(pb, s, es, c)
  {
    if es != [] {
      hide Step, Inv, Enabled, WantsConfig, Find;
      FetchingNeverRestarts(pb, s, es);
      assert FromPool(Front(es));
      ParkedAreThoseWhoAsked(pb, s, Front(es), c);
      RunKeepsInv(pb, s, Front(es));
      RunKeepsPool(pb, s, Front(es));
      StepParked(pb, Run(pb, s, Front(es)), Last(es));
    }
  }

  predicate WaitsWith(s: Proxy, c: Conn, nonce: UInt32) {
    && Tracked(s.ble, c) && c in s.up.parked
    && LinkOf(s.ble, c).state == Pending && LinkOf(s.ble, c).nonce == nonce
  }

  lemma AskingStep(pb: Codec, s: Proxy, e: Event, c: Conn)
    requires Inv(pb, s) && PoolInv(s) && Enabled(s, e) && WantsConfig(pb, e, c)
    requires s.up.state == Fetching && Step(pb, s, e).up.state == Fetching && Tracked(Step(pb, s, e).ble, c)
    ensures WaitsWith(Step(pb, s, e), c, pb.decodeToRadio(e.data).value.nonce)
  {
    StepParked(pb, s, e);
    TrackedBefore(pb, s, e, c);
    StepLink(pb, s, e, c);
  }

  lemma WaitingStep(pb: Codec, s: Proxy, e: Event, c: Conn, nonce: UInt32)
    requires Inv(pb, s) && PoolInv(s) && Enabled(s, e) && !WantsConfig(pb, e, c) && e != Disconnects(c)
    requires s.up.state == Fetching && Step(pb, s, e).up.state == Fetching
    requires WaitsWith(s, c, nonce)
    ensures WaitsWith(Step(pb, s, e), c, nonce)
  {
    StepParked(pb, s, e);
    StepLink(pb, s, e, c);
    FetchingDeliveries(pb, s, e, c);
    hide Inv, PoolInv, Step, Find, DeliverTo, SharedOf, WantsConfig;
  }

  /** A tracked phone that asked during the fetch is Pending with its latest nonce, and is on the list. */
  lemma {:induction false} AskingParks(pb: Codec, s: Proxy, es: seq<Event>, c: Conn)
    requires Inv(pb, s) && PoolInv(s) && Legal(pb, s, es) && FromPool(es)
    requires s.up.state == Fetching && Run(pb, s, es).up.state == Fetching
    requires Asked(pb, es, c).Some? && Tracked(Run(pb, s, es).ble, c)
    ensures WaitsWith(Run(pb, s, es), c, Asked(pb, es, c).value)
  {
    hide Inv, PoolInv, Step, Tracked, Enabled, WantsConfig, WaitsWith;
    var before, e := Run(pb, s, Front(es)), Last(es);
    FetchingNeverRestarts(pb, s, es);
    RunKeepsInv(pb, s, Front(es));
    assert FromPool(Front(es));
    RunKeepsPool(pb, s, Front(es));
    if WantsConfig(pb, e, c) {
      AskingStep(pb, before, e, c);
    } else {
      TrackedBefore(pb, before, e, c);
      AskingParks(pb, s, Front(es), c);
      WaitingStep(pb, before, e, c, Asked(pb, es, c).value);
    }
  }

  lemma TrackedBefore(pb: Codec, s: Proxy, e: Event, c: Conn)
    requires Inv(pb, s) && Enabled(s, e) && Tracked(Step(pb, s, e).ble, c)
    requires e != Connects(c)
    ensures Tracked(s.ble, c) && e != Disconnects(c)
  {
    var s' := Step(pb, s, e);
    StepSlot(pb, s, e, 0);
    StepSlot(pb, s, e, Find(s'.ble, c));
    if e == Disconnects(c) {
      DisconnectKeepsInv(s.ble, c);
    }
  }

  /** While the burst is fetched only the phone's own request changes its state or nonce. */
  lemma FetchingDeliveries(pb: Codec, s: Proxy, e: Event, c: Conn)
    requires Inv(pb, s) && Enabled(s, e) && s.up.state == Fetching && Step(pb, s, e).up.state == Fetching
    requires !WantsConfig(pb, e, c)
    ensures var le := DeliverTo(pb, SharedOf(s), e, c);
            le.Some? ==> !le.value.Arm? && !le.value.Park?
  {
    DeliveriesAreFit(pb, s, e, c);
  }

  // -------------------------------------------------------------- the closing

  /** The step that goes live arms exactly the tracked phones on the list, each with its stored nonce. */
  lemma ClosingServesTheList(pb: Codec, s: Proxy, e: Event, c: Conn)
    requires Inv(pb, s) && Enabled(s, e)
    requires s.up.state == Fetching && Step(pb, s, e).up.state == Live
    requires Tracked(s.ble, c)
    ensures var s' := Step(pb, s, e);
            && s'.cache.frames == s.cache.frames
            && Tracked(s'.ble, c)
            && var l, l' := LinkOf(s.ble, c), LinkOf(s'.ble, c);
            && l' == (if c in s.up.parked then LinkStep(pb, l, Arm(0, s.cache.frames)) else l)
            && (l'.state == Replaying <==> c in s.up.parked)
  {
    hide RxStep;
    if e.RxByte? && RxStep(s.rx, e.b).1.Some? {
      SingleFate(pb, s, RxStep(s.rx, e.b).1.value);
    }
    StepLink(pb, s, e, c);
    var i := Find(s.ble, c);
    assert LinkAgrees(pb, s, s.ble.slots[i].link);
  }

  /**
   No phone that asked during the fetch is stranded: when the terminator arrives it is replaying, with
   the nonce of its latest request, the whole of its segment still ahead of it.
   */
  lemma {:induction false} NoPhoneIsStranded(pb: Codec, s: Proxy, es: seq<Event>, closing: Event, c: Conn)
    requires Inv(pb, s) && PoolInv(s) && FromPool(es)
    requires Legal(pb, s, es) && Enabled(Run(pb, s, es), closing)
    requires s.up.state == Fetching && Run(pb, s, es).up.state == Fetching
    requires Step(pb, Run(pb, s, es), closing).up.state == Live
    requires Asked(pb, es, c).Some? && Tracked(Run(pb, s, es).ble, c)
    ensures var t := Step(pb, Run(pb, s, es), closing);
            var n := Asked(pb, es, c).value;
            && Tracked(t.ble, c)
            && LinkOf(t.ble, c).state == Replaying
            && LinkOf(t.ble, c).nonce == n
            && LinkOf(t.ble, c).replay == ReplayList(pb, t.cache.frames, n)
  {
    RunKeepsInv(pb, s, es);
    AskingParks(pb, s, es, c);
    ClosingServesTheList(pb, Run(pb, s, es), closing, c);
  }

  /**
   Over a whole fetch, a tracked phone is served when the terminator arrives exactly when its connection
   asked since the fetch was started; a request made before that does not count.
   */
  lemma {:induction false} ServedIffAskedSinceStart(pb: Codec, s: Proxy, es: seq<Event>, closing: Event, c: Conn)
    requires Inv(pb, s) && PoolInv(s) && FromPool(es)
    requires Legal(pb, s, es) && Enabled(Run(pb, s, es), closing)
    requires s.up.state == Fetching && s.up.parked == [] && Run(pb, s, es).up.state == Fetching
    requires Step(pb, Run(pb, s, es), closing).up.state == Live
    requires Tracked(Run(pb, s, es).ble, c)
    ensures var t := Step(pb, Run(pb, s, es), closing);
            && Tracked(t.ble, c)
            && (LinkOf(t.ble, c).state == Replaying <==> AskedWhileTracked(pb, s, es, c))
  {
    RunKeepsInv(pb, s, es);
    ParkedAreThoseWhoAsked(pb, s, es, c);
    ClosingServesTheList(pb, Run(pb, s, es), closing, c);
  }

  /**
   A tracked phone whose connection object is on the list, but which has not asked since its latest
   connect, is a phone that reuses the object: it has never been anything but Connected.
   */
  lemma {:induction false} ListedWithoutAsking(pb: Codec, s: Proxy, es: seq<Event>, c: Conn)
    requires Inv(pb, s) && PoolInv(s) && Legal(pb, s, es) && FromPool(es)
    requires s.up.state == Fetching && Run(pb, s, es).up.state == Fetching
    requires AskedWhileTracked(pb, s, es, c) && Asked(pb, es, c).None? && Tracked(Run(pb, s, es).ble, c)
    ensures LinkOf(Run(pb, s, es).ble, c).state == Connected
    ensures LinkOf(Run(pb, s, es).ble, c).nonce == 0
  {
    var before, e := Run(pb, s, Front(es)), Last(es);
    FetchingNeverRestarts(pb, s, es);
    RunKeepsInv(pb, s, Front(es));
    assert FromPool(Front(es));
    hide Step, Inv, WantsConfig, FromPool, PoolInv, Enabled, Find;
    if e == Connects(c) {
      ConnectedAfresh(pb, before, c);
    } else {
      TrackedBefore(pb, before, e, c);
      ListedWithoutAsking(pb, s, Front(es), c);
      FetchingKeepsState(pb, before, e, c);
    }
  }

  lemma ConnectedAfresh(pb: Codec, s: Proxy, c: Conn)
    requires Inv(pb, s) && Enabled(s, Connects(c)) && Tracked(Step(pb, s, Connects(c)).ble, c)
    ensures LinkOf(Step(pb, s, Connects(c)).ble, c) == FRESH
  {
    OccupiedBound(s.ble.slots);
    ConnectKeepsInv(s.ble, c);
  }

  lemma FetchingKeepsState(pb: Codec, s: Proxy, e: Event, c: Conn)
    requires Inv(pb, s) && Enabled(s, e) && s.up.state == Fetching && Step(pb, s, e).up.state == Fetching
    requires Tracked(s.ble, c) && e != Disconnects(c) && !WantsConfig(pb, e, c)
    requires LinkOf(s.ble, c).state == Connected
    ensures Tracked(Step(pb, s, e).ble, c)
    ensures var l, l' := LinkOf(s.ble, c), LinkOf(Step(pb, s, e).ble, c); l'.state == l.state && l'.nonce == l.nonce
  {
    hide Inv, Step, DeliverTo, SharedOf, Find;
    StepLink(pb, s, e, c);
    FetchingDeliveries(pb, s, e, c);
  }

  /**
   A phone served when the terminator arrives has itself asked since its latest connect if and only if it
   is Pending at that moment.  Otherwise it reuses the connection object of one that asked and left, and
   is replayed to unasked, with nonce 0.
   */
  lemma {:induction false} ServedPhoneAskedIffPending(pb: Codec, s: Proxy, es: seq<Event>, closing: Event, c: Conn)
    requires Inv(pb, s) && PoolInv(s) && FromPool(es)
    requires Legal(pb, s, es) && Enabled(Run(pb, s, es), closing)
    requires s.up.state == Fetching && s.up.parked == [] && Run(pb, s, es).up.state == Fetching
    requires Step(pb, Run(pb, s, es), closing).up.state == Live
    requires Tracked(Run(pb, s, es).ble, c) && AskedWhileTracked(pb, s, es, c)
    ensures var l := LinkOf(Run(pb, s, es).ble, c);
            var t := Step(pb, Run(pb, s, es), closing);
            && (Asked(pb, es, c).Some? <==> l.state == Pending)
            && (Asked(pb, es, c).None? <==> l.state == Connected)
            && Tracked(t.ble, c) && LinkOf(t.ble, c).state == Replaying
            && LinkOf(t.ble, c).nonce == (if l.state == Pending then Asked(pb, es, c).value else 0)
  {
    RunKeepsInv(pb, s, es);
    ParkedAreThoseWhoAsked(pb, s, es, c);
    if Asked(pb, es, c).Some? {
      AskingParks(pb, s, es, c);
    } else {
      ListedWithoutAsking(pb, s, es, c);
    }
    hide Inv, PoolInv, Step, Enabled, Find, AskedWhileTracked;
    ClosingServesTheList(pb, Run(pb, s, es), closing, c);
  }

  function AskLeaveReturn(c: Conn, data: Bytes): seq<Event> {
    [Connects(c), WriteToRadio(c, data, 0), Disconnects(c), Connects(c)]
  }

  lemma {:induction false} AskingLeavingReturning(pb: Codec, s: Proxy, c: Conn, data: Bytes)
    requires Inv(pb, s) && s.up.state == Fetching && s.ble.active < MAX_BLE_CONNECTIONS
    requires !Tracked(s.ble, c) && WantsConfig(pb, WriteToRadio(c, data, 0), c)
    ensures var es := AskLeaveReturn(c, data);
            && Legal(pb, s, es) && AskedWhileTracked(pb, s, es, c) && Asked(pb, es, c) == None
            && Run(pb, s, es).up.state == Fetching && Tracked(Run(pb, s, es).ble, c)
  {
    hide Step, Inv, Find;
    var connect, ask, leave := Connects(c), WriteToRadio(c, data, 0), Disconnects(c);
    StatesOfAskingLeavingReturning(pb, s, c, data);
    FourEvents(pb, s, connect, ask, leave, connect);
    assert AskedWhileTracked(pb, s, [connect, ask], c);
    assert AskedWhileTracked(pb, s, [connect, ask, leave], c);
    assert AskedWhileTracked(pb, s, [connect, ask, leave, connect], c);
  }

  lemma StatesOfAskingLeavingReturning(pb: Codec, s: Proxy, c: Conn, data: Bytes)
    requires Inv(pb, s) && s.up.state == Fetching && s.ble.active < MAX_BLE_CONNECTIONS
    requires !Tracked(s.ble, c) && WantsConfig(pb, WriteToRadio(c, data, 0), c)
    ensures var s1 := Step(pb, s, Connects(c));
            var s2 := Step(pb, s1, WriteToRadio(c, data, 0));
            var s3 := Step(pb, s2, Disconnects(c));
            && Tracked(s1.ble, c) && !Tracked(s3.ble, c)
            && var s4 := Step(pb, s3, Connects(c)); s4.up.state == Fetching && Tracked(s4.ble, c)
  {
    hide Step, Inv, Find, WantsConfig;
    var s1 := Step(pb, s, Connects(c));
    Connecting(pb, s, c);
    var s2 := Step(pb, s1, WriteToRadio(c, data, 0));
    Asking(pb, s1, c, data);
    var s3 := Step(pb, s2, Disconnects(c));
    Leaving(pb, s2, c);
    Connecting(pb, s3, c);
  }

  lemma Connecting(pb: Codec, s: Proxy, c: Conn)
    requires Inv(pb, s) && !Tracked(s.ble, c) && s.ble.active < MAX_BLE_CONNECTIONS
    ensures var s' := Step(pb, s, Connects(c)); Inv(pb, s') && Tracked(s'.ble, c) && s'.up == s.up
  {
    StepKeepsInv(pb, s, Connects(c));
    ConnectKeepsInv(s.ble, c);
  }

  lemma Asking(pb: Codec, s: Proxy, c: Conn, data: Bytes)
    requires Inv(pb, s) && Tracked(s.ble, c) && s.up.state == Fetching && WantsConfig(pb, WriteToRadio(c, data, 0), c)
    ensures var s' := Step(pb, s, WriteToRadio(c, data, 0));
            Inv(pb, s') && Tracked(s'.ble, c) && s'.up.state == Fetching
  {
    StepKeepsInv(pb, s, WriteToRadio(c, data, 0));
    StepLink(pb, s, WriteToRadio(c, data, 0), c);
  }

  lemma Leaving(pb: Codec, s: Proxy, c: Conn)
    requires Inv(pb, s) && Tracked(s.ble, c)
    ensures var s' := Step(pb, s, Disconnects(c));
            Inv(pb, s') && !Tracked(s'.ble, c) && s'.ble.active < MAX_BLE_CONNECTIONS && s'.up == s.up
  {
    StepKeepsInv(pb, s, Disconnects(c));
    DisconnectKeepsInv(s.ble, c);
    LeavingMakesRoom(s.ble, c);
  }

  lemma LeavingMakesRoom(b: Ble, c: Conn)
    requires BleInv(b) && Tracked(b, c)
    ensures Occupied(Disconnect(b, c).slots) < MAX_BLE_CONNECTIONS
  {
    OccupiedUpdate(b.slots, Find(b, c), Free);
    OccupiedBound(b.slots);
  }

  /** A run of this kind: a phone asks and leaves, and another connects with the same connection object. */
  lemma {:induction false} ReusedConnectionIsServedUnasked(pb: Codec, s: Proxy, c: Conn, data: Bytes, closing: Event)
    requires Inv(pb, s) && PoolInv(s) && s.up.state == Fetching && s.up.parked == []
    requires c < MAX_BLE_CONNECTIONS && !Tracked(s.ble, c) && s.ble.active < MAX_BLE_CONNECTIONS
    requires WantsConfig(pb, WriteToRadio(c, data, 0), c) && Legal(pb, s, AskLeaveReturn(c, data))
    requires var t := Run(pb, s, AskLeaveReturn(c, data)); Enabled(t, closing) && Step(pb, t, closing).up.state == Live
    ensures Asked(pb, AskLeaveReturn(c, data), c) == None
    ensures var t := Step(pb, Run(pb, s, AskLeaveReturn(c, data)), closing);
            Tracked(t.ble, c) && LinkOf(t.ble, c).state == Replaying && LinkOf(t.ble, c).nonce == 0
  {
    hide Inv, PoolInv, Step, Enabled, Tracked, Legal, Run, Asked, AskedWhileTracked, WantsConfig;
    AskingLeavingReturning(pb, s, c, data);
    ServedPhoneAskedIffPending(pb, s, AskLeaveReturn(c, data), closing, c);
  }

  /** A request made before the session was started is forgotten by the start: the phone stays Pending. */
  lemma BootRequestIsForgotten(pb: Codec, data: Bytes, rand: UInt32)
    requires pb.decodeToRadio(data).Some? && pb.decodeToRadio(data).value.WantConfig?
    ensures var s1 := Step(pb, INITIAL, Connects(0));
            var s2 := Step(pb, s1, WriteToRadio(0, data, 0));
            var s3 := Step(pb, s2, StartSession(rand));
            && s2.up.parked == [0]
            && s3.up.state == Fetching && s3.up.parked == []
            && Tracked(s3.ble, 0) && LinkOf(s3.ble, 0).state == Pending
  {
    var s1 := Step(pb, INITIAL, Connects(0));
    assert s1.ble.slots[0] == Used(0, FRESH);
    assert Find(s1.ble, 0) == 0;
    var s2 := Step(pb, s1, WriteToRadio(0, data, 0));
    assert HoldsConn(s2.ble.slots[0], 0);
    assert Find(s2.ble, 0) == 0;
  }

  lemma NoParkingIsDelivered(pb: Codec, s: Proxy, e: Event, c: Conn)
    requires s.up.state == Live
    ensures var le := DeliverTo(pb, SharedOf(s), e, c);
            le.Some? ==> !le.value.Park?
  {
  }

  lemma NoStepParksOnceLive(pb: Codec, s: Proxy, e: Event, c: Conn)
    requires Inv(pb, s) && Enabled(s, e) && s.up.state == Live
    requires Tracked(s.ble, c) && e != Disconnects(c) && LinkOf(s.ble, c).state != Pending
    ensures Tracked(Step(pb, s, e).ble, c) && LinkOf(Step(pb, s, e).ble, c).state != Pending
  {
    hide Inv, DeliverTo, Step, Find, SharedOf, Enabled, ReplayList;
    StepLink(pb, s, e, c);
    NoParkingIsDelivered(pb, s, e, c);
  }

  /** Once the session is live no phone is parked any more. */
  lemma {:induction false} NobodyIsParkedOnceLive(pb: Codec, s: Proxy, es: seq<Event>, c: Conn)
    requires Inv(pb, s) && Legal(pb, s, es) && s.up.state == Live
    requires Tracked(s.ble, c) && Disconnects(c) !in es && LinkOf(s.ble, c).state != Pending
    ensures Run(pb, s, es).up.parked == []
    ensures Tracked(Run(pb, s, es).ble, c) && LinkOf(Run(pb, s, es).ble, c).state != Pending
  {
    RunKeepsInv(pb, s, es);
    RunKeepsLiveCache(pb, s, es);
    hide BleInv, TxInv, LinkAgrees, Step, LinkOf, Tracked, Enabled, Find;
    if es != [] {
      NobodyIsParkedOnceLive(pb, s, Front(es), c);
      RunKeepsInv(pb, s, Front(es));
      RunKeepsLiveCache(pb, s, Front(es));
      NoStepParksOnceLive(pb, Run(pb, s, Front(es)), Last(es), c);
    }
  }
}
