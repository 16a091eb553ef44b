/** The slot table: which connection each slot tracks, and the link of every tracked phone. */
module BleModel {
  import opened Base
  import opened Codec
  import opened CacheModel
  import opened LinkModel

  datatype Slot = Free | Used(conn: Conn, link: Link)

  /** active is the counter the firmware keeps beside the table. */
  datatype Ble = Ble(slots: seq<Slot>, active: int)

  const NO_SLOTS: seq<Slot> := seq(MAX_BLE_CONNECTIONS, _ => Free)

  predicate HoldsConn(s: Slot, c: Conn) {
    s.Used? && s.conn == c
  }

  /** The first slot tracking c, or the number of slots. */
  function FindFrom(slots: seq<Slot>, c: Conn, i: nat): (r: nat)
    requires i <= |slots|
    ensures i <= r <= |slots|
    ensures r < |slots| ==> HoldsConn(slots[r], c)
    ensures forall k :: i <= k < r ==> !HoldsConn(slots[k], c)
    decreases |slots| - i
  {
    if i == |slots| || HoldsConn(slots[i], c) then i else FindFrom(slots, c, i + 1)
  }

  function Find(b: Ble, c: Conn): nat {
    FindFrom(b.slots, c, 0)
  }

  predicate Tracked(b: Ble, c: Conn) {
    Find(b, c) < |b.slots|
  }

  function LinkOf(b: Ble, c: Conn): Link
    requires Tracked(b, c)
  {
    b.slots[Find(b, c)].link
  }

  function FirstFree(slots: seq<Slot>, i: nat): (r: nat)
    requires i <= |slots|
    ensures i <= r <= |slots|
    ensures r < |slots| ==> slots[r].Free?
    ensures forall k :: i <= k < r ==> slots[k].Used?
    decreases |slots| - i
  {
    if i == |slots| || slots[i].Free? then i else FirstFree(slots, i + 1)
  }

  function Occupied(slots: seq<Slot>): nat {
    if slots == [] then 0 else Occupied(Front(slots)) + if Last(slots).Used? then 1 else 0
  }

  ghost predicate BleInv(b: Ble) {
    && |b.slots| == MAX_BLE_CONNECTIONS
    && Distinct(b.slots)
    && b.active == Occupied(b.slots)
    && forall i :: 0 <= i < |b.slots| && b.slots[i].Used? ==> LinkInv(b.slots[i].link)
  }

  predicate Distinct(slots: seq<Slot>) {
    forall i, j :: 0 <= i < j < |slots| && slots[i].Used? && slots[j].Used? ==> slots[i].conn != slots[j].conn
  }

  // -------------------------------------------------------------- operations

  /** A new connection takes the first free slot; without one it is refused. */
  function Connect(b: Ble, c: Conn): Ble {
    var i := FirstFree(b.slots, 0);
    if i < |b.slots| then Ble(b.slots[i := Used(c, FRESH)], b.active + 1) else b
  }

  function Disconnect(b: Ble, c: Conn): Ble {
    var i := Find(b, c);
    if i < |b.slots| then Ble(b.slots[i := Free], b.active - 1) else b
  }

  /** What a connection callback asks of the Bluetooth stack. */
  datatype StackRequest = Nothing | Refuse | Advertise

  function AfterConnect(b: Ble, err: bool): StackRequest {
    if err then Nothing
    else if FirstFree(b.slots, 0) == |b.slots| then Refuse
    else if b.active + 1 < MAX_BLE_CONNECTIONS then Advertise
    else Nothing
  }

  function Touch(pb: Codec, s: Slot, e: LinkEvent): Slot {
    if s.Used? then s.(link := LinkStep(pb, s.link, e)) else s
  }

  /** Deliver one event to the link of c, if it is tracked. */
  function Give(pb: Codec, b: Ble, c: Conn, e: LinkEvent): Ble {
    var i := Find(b, c);
    if i < |b.slots| then b.(slots := b.slots[i := Touch(pb, b.slots[i], e)]) else b
  }

  /** One enqueue for every tracked phone. */
  function Broadcast(pb: Codec, b: Ble, p: Bytes): Ble {
    b.(slots := BroadcastSlots(pb, b.slots, p))
  }

  function BroadcastSlots(pb: Codec, slots: seq<Slot>, p: Bytes): seq<Slot> {
    seq(|slots|, i requires 0 <= i < |slots| => Touch(pb, slots[i], Enqueue(p)))
  }

  predicate HasRoom(s: Slot) {
    s.Used? && |s.link.queue| < 8
  }

  /** How many occupied slots have room for one more packet. */
  function Receivers(slots: seq<Slot>): nat {
    if slots == [] then 0 else Receivers(Front(slots)) + if HasRoom(Last(slots)) then 1 else 0
  }

  /** Which connection each slot tracks and the id it registered. */
  type Registry = seq<Option<(Conn, Bytes)>>

  function EntryOf(s: Slot): Option<(Conn, Bytes)> {
    if s.Used? then Some((s.conn, s.link.proxyId)) else None
  }

  function RegistryOf(slots: seq<Slot>): Registry {
    seq(|slots|, i requires 0 <= i < |slots| => EntryOf(slots[i]))
  }

  predicate RegisteredUnder(entry: Option<(Conn, Bytes)>, id: Bytes) {
    entry.Some? && entry.value.1 == id
  }

  /** The lowest slot registered under id, or the number of slots. */
  function FindIdFrom(registry: Registry, id: Bytes, i: nat): (r: nat)
    requires i <= |registry|
    ensures i <= r <= |registry|
    ensures r < |registry| ==> RegisteredUnder(registry[r], id)
    ensures forall k :: i <= k < r ==> !RegisteredUnder(registry[k], id)
    decreases |registry| - i
  {
    if i == |registry| || RegisteredUnder(registry[i], id) then i else FindIdFrom(registry, id, i + 1)
  }

  function ConnByProxyId(registry: Registry, id: Bytes): Option<Conn> {
    var i := FindIdFrom(registry, id, 0);
    if id == ZERO_ID || i == |registry| then None else Some(registry[i].value.0)
  }

  /** Serve parked phones, each with the nonce stored for it. */
  function Serve(pb: Codec, b: Ble, frames: seq<Frame>, parked: seq<Conn>): Ble {
    if parked == [] then b else Give(pb, Serve(pb, b, frames, Front(parked)), Last(parked), Arm(0, frames))
  }

  // ------------------------------------------------------------------ lemmas

  lemma NoReceivers()
    ensures Receivers([]) == 0
  {
  }

  lemma {:induction false} OneMoreReceiver(slots: seq<Slot>, i: nat)
    requires i < |slots|
    ensures Receivers(slots[..i + 1]) == Receivers(slots[..i]) + if HasRoom(slots[i]) then 1 else 0
  {
    assert Front(slots[..i + 1]) == slots[..i];
  }

  /** A broadcast of up to 512 bytes is appended once to every occupied slot with room, and changes no other. */
  lemma BroadcastReachesEverySlotWithRoom(pb: Codec, b: Ble, p: Bytes, i: nat)
    requires i < |b.slots|
    ensures var slot, slot' := b.slots[i], Broadcast(pb, b, p).slots[i];
            if |p| <= 512 && HasRoom(slot)
            then slot'.Used? && slot'.conn == slot.conn && slot'.link.queue == slot.link.queue + [p]
            else slot' == slot
  {
  }

  predicate HasId(s: Slot, id: Bytes) {
    s.Used? && s.link.proxyId == id
  }

  predicate LowestWithId(slots: seq<Slot>, id: Bytes, i: nat) {
    i < |slots| && HasId(slots[i], id) && forall k :: 0 <= k < i ==> !HasId(slots[k], id)
  }

  /** The lookup finds the lowest occupied slot with the id, and nothing iff there is none or the id is zero. */
  lemma {:induction false} FindsTheLowest(slots: seq<Slot>, id: Bytes)
    ensures ConnByProxyId(RegistryOf(slots), id) == None
            <==> id == [0, 0, 0, 0] || forall i :: 0 <= i < |slots| ==> !HasId(slots[i], id)
    ensures forall i: nat :: id != [0, 0, 0, 0] && LowestWithId(slots, id, i)
                             ==> ConnByProxyId(RegistryOf(slots), id) == Some(slots[i].conn)
  {
    var registry := RegistryOf(slots);
    forall k | 0 <= k < |slots| ensures RegisteredUnder(registry[k], id) <==> HasId(slots[k], id) {
      assert registry[k] == EntryOf(slots[k]);
    }
    var r := FindIdFrom(registry, id, 0);
    forall i: nat | LowestWithId(slots, id, i) ensures i == r {
      assert RegisteredUnder(registry[i], id);
    }
  }

  lemma FoundAt(b: Ble, i: nat)
    requires Distinct(b.slots) && i < |b.slots| && b.slots[i].Used?
    ensures Find(b, b.slots[i].conn) == i
  {
  }

  lemma GiveKeepsDistinct(pb: Codec, b: Ble, c: Conn, e: LinkEvent)
    requires Distinct(b.slots)
    ensures Distinct(Give(pb, b, c, e).slots)
  {
  }

  lemma {:induction false} OccupiedUpdate(slots: seq<Slot>, i: nat, s: Slot)
    requires i < |slots|
    ensures Occupied(slots[i := s])
            == Occupied(slots) - (if slots[i].Used? then 1 else 0) + (if s.Used? then 1 else 0)
  {
    if i == |slots| - 1 {
      assert Front(slots[i := s]) == Front(slots);
    } else {
      assert Front(slots[i := s]) == Front(slots)[i := s];
      OccupiedUpdate(Front(slots), i, s);
    }
  }

  lemma {:induction false} OccupiedSame(a: seq<Slot>, b: seq<Slot>)
    requires |a| == |b| && forall i :: 0 <= i < |a| ==> (a[i].Used? <==> b[i].Used?)
    ensures Occupied(a) == Occupied(b)
  {
    if a != [] {
      OccupiedSame(Front(a), Front(b));
    }
  }

  /** The table stays consistent over connects and disconnects, the counter included. */
  lemma ConnectKeepsInv(b: Ble, c: Conn)
    requires BleInv(b) && !Tracked(b, c)
    ensures BleInv(Connect(b, c))
    ensures Occupied(b.slots) < 6 ==> Tracked(Connect(b, c), c) && LinkOf(Connect(b, c), c) == FRESH
    ensures Occupied(b.slots) == 6 ==> Connect(b, c) == b
    ensures FRESH == Link([0, 0, 0, 0], 0, Connected, 0, [], [], [])
  {
    var i := FirstFree(b.slots, 0);
    if i < |b.slots| {
      OccupiedUpdate(b.slots, i, Used(c, FRESH));
      NotFull(b.slots, i);
      var b' := Connect(b, c);
      assert b'.slots[i] == Used(c, FRESH);
      FoundAt(b', i);
    } else {
      AllUsed(b.slots);
    }
  }

  lemma {:induction false} AllUsed(slots: seq<Slot>)
    requires forall i :: 0 <= i < |slots| ==> slots[i].Used?
    ensures Occupied(slots) == |slots|
  {
    if slots != [] {
      AllUsed(Front(slots));
    }
  }

  lemma {:induction false} OccupiedBound(slots: seq<Slot>)
    ensures Occupied(slots) <= |slots|
  {
    if slots != [] {
      OccupiedBound(Front(slots));
    }
  }

  lemma {:induction false} NotFull(slots: seq<Slot>, i: nat)
    requires i < |slots| && slots[i].Free?
    ensures Occupied(slots) < |slots|
  {
    OccupiedUpdate(slots, i, Used(0, FRESH));
    OccupiedBound(slots[i := Used(0, FRESH)]);
  }

  lemma DisconnectKeepsInv(b: Ble, c: Conn)
    requires BleInv(b)
    ensures BleInv(Disconnect(b, c)) && !Tracked(Disconnect(b, c), c)
  {
    var i := Find(b, c);
    if i < |b.slots| {
      OccupiedUpdate(b.slots, i, Free);
    }
  }

  /** Serving a duplicate-free list arms each listed phone once and touches no other. */
  lemma {:induction false} ServeArmsEachOnce(pb: Codec, b: Ble, frames: seq<Frame>, parked: seq<Conn>)
    requires Distinct(b.slots) && NoDuplicates(parked)
    ensures var b' := Serve(pb, b, frames, parked);
            && |b'.slots| == |b.slots| && Distinct(b'.slots) && b'.active == b.active
            && forall i :: 0 <= i < |b.slots| ==>
                 b'.slots[i] == if b.slots[i].Used? && b.slots[i].conn in parked
                                then Touch(pb, b.slots[i], Arm(0, frames)) else b.slots[i]
  {
    if parked != [] {
      var before := Serve(pb, b, frames, Front(parked));
      ServeArmsEachOnce(pb, b, frames, Front(parked));
      var c := Last(parked);
      assert parked == Front(parked) + [c];
      assert c !in Front(parked);
      forall i | 0 <= i < |b.slots| && HoldsConn(before.slots[i], c) ensures Find(before, c) == i {
        FoundAt(before, i);
      }
    }
  }
}
