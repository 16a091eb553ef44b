/** The GATT server's connection table: an array of slots scanned by connection or proxy id. */
module GattServer {
  import opened Base
  import opened Codec
  import opened CacheModel
  import opened ConfigCacheStore
  import opened LinkModel
  import opened BleModel
  import opened ConnectionSlot

  class BleGatt {
    const pb: Codec
    const conns: seq<ProxyConn>
    var activeConnCount: int
    var synthesizedQs: Bytes      // the queueStatus reply, encoded on first use
    ghost var model: Ble
    ghost const Repr: set<object>

    static ghost function SlotOf(pc: ProxyConn): Slot
      reads pc
    {
      if pc.conn.None? then Free else Used(pc.conn.value, pc.model)
    }

    ghost predicate Separated() {
      && |conns| == MAX_BLE_CONNECTIONS
      && this in Repr
      && (forall i :: 0 <= i < |conns| ==> conns[i].Repr <= Repr && this !in conns[i].Repr)
      && (forall i, j :: 0 <= i < j < |conns| ==> conns[i].Repr !! conns[j].Repr)
    }

    ghost predicate SlotsMatch()
      reads this, Repr
    {
      && |model.slots| == |conns|
      && forall i :: 0 <= i < |conns| ==>
           conns[i] in Repr && conns[i].Repr <= Repr && conns[i].Valid() && model.slots[i] == SlotOf(conns[i])
    }

    ghost predicate Valid()
      reads this, Repr
    {
      && Separated()
      && SlotsMatch()
      && Distinct(model.slots)
      && activeConnCount == model.active
      && (synthesizedQs == [] || synthesizedQs == pb.queueStatus)
    }

    /** Every replay in progress was armed with these frames. */
    ghost predicate ReplaysFrom(frames: seq<Frame>)
      reads this, Repr
    {
      forall i :: 0 <= i < |conns| ==> conns[i] in Repr && (conns[i].state == Replaying ==> conns[i].burst == frames)
    }

    constructor (pb: Codec)
      ensures Valid() && fresh(Repr) && this in Repr
      ensures this.pb == pb && model == Ble(NO_SLOTS, 0)
      ensures forall frames :: ReplaysFrom(frames)
    {
      this.pb := pb;
      activeConnCount, synthesizedQs := 0, [];
      var slots: seq<ProxyConn> := [];
      ghost var repr: set<object> := {};
      for i := 0 to MAX_BLE_CONNECTIONS
        invariant |slots| == i && fresh(repr)
        invariant forall k :: 0 <= k < i ==>
                    && slots[k].Repr <= repr && slots[k] in repr
                    && slots[k].Valid() && slots[k].conn == None && slots[k].state == Connected
        invariant forall j, k :: 0 <= j < k < i ==> slots[j].Repr !! slots[k].Repr
      {
        var pc := new ProxyConn();
        slots := slots + [pc];
        repr := repr + pc.Repr;
      }
      conns := slots;
      model := Ble(NO_SLOTS, 0);
      Repr := {this} + repr;
    }

    /** find_slot: the index of the first slot tracking c, or the number of slots. */
    method FindSlot(c: Conn) returns (i: nat)
      requires Valid()
      ensures i == Find(model, c)
    {
      i := 0;
      while i < |conns|
        invariant i <= |conns|
        invariant forall k :: 0 <= k < i ==> !HoldsConn(model.slots[k], c)
      {
        if conns[i].conn == Some(c) {
          return;
        }
        i := i + 1;
      }
    }

    /** Work confined to slot i keeps the table consistent, as long as the model follows. */
    twostate lemma SlotRebuilt(i: nat)
      requires i < |conns| && old(Separated() && SlotsMatch())
      requires unchanged(set o: object | o in Repr && o !in conns[i].Repr && o != this)
      requires conns[i].Valid() && model.slots == old(model.slots)[i := SlotOf(conns[i])]
      ensures SlotsMatch()
      ensures forall frames :: old(ReplaysFrom(frames)) && (conns[i].state == Replaying ==> conns[i].burst == frames)
                               ==> ReplaysFrom(frames)
    {
      forall j | 0 <= j < |conns| && j != i
        ensures && conns[j].Valid() && SlotOf(conns[j]) == old(model.slots[j])
                && conns[j].state == old(conns[j].state) && conns[j].burst == old(conns[j].burst)
      {
        assert conns[i].Repr !! conns[j].Repr;
        assert unchanged(conns[j].Repr);
        assert old(conns[j].Valid());
      }
    }

    method OnConnected(c: Conn, err: bool) returns (ask: StackRequest)
      requires Valid() && !Tracked(model, c)
      modifies Repr
      ensures Valid()
      ensures model == if err then old(model) else Connect(old(model), c)
      ensures ask == AfterConnect(old(model), err)
      ensures forall frames :: old(ReplaysFrom(frames)) ==> ReplaysFrom(frames)
    {
      hide ProxyConn.Valid, LinkStep;
      if err {
        return Nothing;
      }
      var i := 0;
      while i < |conns| && conns[i].conn != None
        invariant i <= |conns|
        invariant forall k :: 0 <= k < i ==> model.slots[k].Used?
      {
        i := i + 1;
      }
      if i == |conns| {
        return Refuse;
      }
      conns[i].Alloc(c);
      activeConnCount := activeConnCount + 1;
      model := Connect(model, c);
      SlotRebuilt(i);
      ask := if activeConnCount < MAX_BLE_CONNECTIONS then Advertise else Nothing;
    }

    method OnDisconnected(c: Conn) returns (ask: StackRequest)
      requires Valid()
      modifies Repr
      ensures Valid()
      ensures model == Disconnect(old(model), c)
      ensures ask == Advertise
      ensures forall frames :: old(ReplaysFrom(frames)) ==> ReplaysFrom(frames)
    {
      hide ProxyConn.Valid, LinkStep;
      var i := FindSlot(c);
      if i < |conns| {
        conns[i].Release();
        activeConnCount := activeConnCount - 1;
        model := Disconnect(model, c);
        SlotRebuilt(i);
      }
      ask := Advertise;
    }

    /** ble_gatt_enqueue_fromradio. */
    method Enqueue(c: Conn, data: Bytes) returns (rc: Rc)
      requires Valid()
      modifies Repr
      ensures Valid()
      ensures rc == if |data| > 512 then EMsgSize
                    else if !Tracked(old(model), c) then ENoEnt
                    else if |LinkOf(old(model), c).queue| >= 8 then ENoMem
                    else Ok
      ensures model == Give(pb, old(model), c, LinkEvent.Enqueue(data))
      ensures forall frames :: old(ReplaysFrom(frames)) ==> ReplaysFrom(frames)
    {
      hide ProxyConn.Valid;
      if |data| > FROMRADIO_MAX_PKT_SIZE {
        return EMsgSize;
      }
      var i := FindSlot(c);
      if i == |conns| {
        return ENoEnt;
      }
      rc := conns[i].Push(pb, data);
      GiveKeepsDistinct(pb, model, c, LinkEvent.Enqueue(data));
      model := Give(pb, model, c, LinkEvent.Enqueue(data));
      SlotRebuilt(i);
    }

    /** ble_gatt_broadcast_fromradio: one enqueue per occupied slot. */
    method BroadcastFromRadio(data: Bytes) returns (sent: nat)
      requires Valid()
      modifies Repr
      ensures Valid()
      ensures model == Broadcast(pb, old(model), data)
      ensures sent == if |data| <= 512 then Receivers(old(model.slots)) else 0
      ensures forall frames :: old(ReplaysFrom(frames)) ==> ReplaysFrom(frames)
    {
      hide ProxyConn.Valid, LinkStep, Receivers;
      NoReceivers();
      sent := 0;
      ghost var before := model;
      var i := 0;
      while i < |conns|
        invariant i <= |conns| && Valid()
        invariant model.active == before.active && |model.slots| == |before.slots|
        invariant forall k :: 0 <= k < i ==> model.slots[k] == Touch(pb, before.slots[k], LinkEvent.Enqueue(data))
        invariant forall k :: i <= k < |conns| ==> model.slots[k] == before.slots[k]
        invariant sent == if |data| <= 512 then Receivers(before.slots[..i]) else 0
        invariant forall frames :: old(ReplaysFrom(frames)) ==> ReplaysFrom(frames)
      {
        OneMoreReceiver(before.slots, i);
        if conns[i].conn.Some? {
          FoundAt(model, i);
          var err := Enqueue(conns[i].conn.value, data);
          if err == Ok {
            sent := sent + 1;
          }
        }
        i := i + 1;
      }
      assert before.slots[..i] == before.slots;
    }

    /** ble_gatt_get_conn_by_proxy_id. */
    method GetConnByProxyId(id: Bytes) returns (c: Option<Conn>)
      requires Valid()
      ensures c == ConnByProxyId(RegistryOf(model.slots), id)
      ensures c == None <==> id == [0, 0, 0, 0] || forall i :: 0 <= i < |model.slots| ==> !HasId(model.slots[i], id)
      ensures forall i: nat :: id != [0, 0, 0, 0] && LowestWithId(model.slots, id, i)
                               ==> c == Some(model.slots[i].conn)
    {
      if id == ZERO_ID {
        return None;
      }
      FindsTheLowest(model.slots, id);
      var i := 0;
      while i < |conns|
        invariant i <= |conns|
        invariant forall k :: 0 <= k < i ==> !HasId(model.slots[k], id)
      {
        if conns[i].conn.Some? && conns[i].proxyId == id {
          assert LowestWithId(model.slots, id, i);
          return conns[i].conn;
        }
        i := i + 1;
      }
      c := None;
    }

    /** ble_gatt_register_proxy_id. */
    method RegisterProxyId(c: Conn, id: Bytes) returns (rc: Rc)
      requires Valid()
      modifies Repr
      ensures Valid()
      ensures rc == if Tracked(old(model), c) then Ok else ENoEnt
      ensures model == Give(pb, old(model), c, LinkEvent.Register(id))
      ensures forall frames :: old(ReplaysFrom(frames)) ==> ReplaysFrom(frames)
    {
      hide ProxyConn.Valid, LinkStep;
      var i := FindSlot(c);
      if i == |conns| {
        return ENoEnt;
      }
      conns[i].Register(pb, id);
      GiveKeepsDistinct(pb, model, c, LinkEvent.Register(id));
      model := Give(pb, model, c, LinkEvent.Register(id));
      SlotRebuilt(i);
      rc := Ok;
    }

    /** fromradio_read. */
    method FromRadioRead(cache: ConfigCache, c: Conn, offset: nat, len: nat) returns (r: ReadResult)
      requires Valid() && cache.Valid() && cache.Footprint() !! Repr && ReplaysFrom(cache.model.frames)
      requires forall i :: 0 <= i < |cache.model.frames| ==> |cache.model.frames[i].bytes| <= FROMRADIO_MAX_PKT_SIZE
      modifies Repr
      ensures Valid()
      ensures r == if Tracked(old(model), c) then Response(pb, LinkOf(old(model), c), offset, len) else Failed(Unlikely)
      ensures model == Give(pb, old(model), c, LinkEvent.Read(offset, len))
      ensures ReplaysFrom(cache.model.frames)
    {
      hide ProxyConn.Valid, LinkStep;
      var i := FindSlot(c);
      if i == |conns| {
        return Failed(Unlikely);
      }
      r := conns[i].Read(pb, cache, offset, len);
      GiveKeepsDistinct(pb, model, c, LinkEvent.Read(offset, len));
      model := Give(pb, model, c, LinkEvent.Read(offset, len));
      SlotRebuilt(i);
    }

    /** ble_gatt_replay_cached_burst; frames is the published cache, which the cursor will walk. */
    method ReplayCachedBurst(c: Conn, nonce: UInt32, ghost frames: seq<Frame>)
      requires Valid() && ReplaysFrom(frames)
      modifies Repr
      ensures Valid()
      ensures model == Give(pb, old(model), c, LinkEvent.Arm(nonce, frames))
      ensures ReplaysFrom(frames)
    {
      hide ProxyConn.Valid, LinkStep;
      var i := FindSlot(c);
      if i < |conns| {
        conns[i].Arm(pb, nonce, frames);
        GiveKeepsDistinct(pb, model, c, LinkEvent.Arm(nonce, frames));
        model := Give(pb, model, c, LinkEvent.Arm(nonce, frames));
        SlotRebuilt(i);
      }
    }

    /** The slot's part of ble_gatt_park_pending. */
    method MarkPending(c: Conn, nonce: UInt32) returns (tracked: bool)
      requires Valid()
      modifies Repr
      ensures Valid()
      ensures tracked == Tracked(old(model), c)
      ensures model == Give(pb, old(model), c, LinkEvent.Park(nonce))
      ensures forall frames :: old(ReplaysFrom(frames)) ==> ReplaysFrom(frames)
    {
      hide ProxyConn.Valid, LinkStep;
      var i := FindSlot(c);
      tracked := i < |conns|;
      if tracked {
        conns[i].Park(pb, nonce);
        GiveKeepsDistinct(pb, model, c, LinkEvent.Park(nonce));
        model := Give(pb, model, c, LinkEvent.Park(nonce));
        SlotRebuilt(i);
      }
    }

    /** ble_gatt_reply_queuestatus. */
    method ReplyQueueStatus(c: Conn)
      requires Valid()
      modifies Repr
      ensures Valid()
      ensures model == Give(pb, old(model), c, LinkEvent.Enqueue(pb.queueStatus))
      ensures forall frames :: old(ReplaysFrom(frames)) ==> ReplaysFrom(frames)
    {
      if synthesizedQs == [] {
        synthesizedQs := pb.queueStatus;
      }
      var rc := Enqueue(c, synthesizedQs);
    }
  }
}
