/** The proxy's own config session with the node, its list of parked phones and its keepalive. */
module SessionWithNode {
  import opened Base
  import opened Codec
  import opened CacheModel
  import opened ConfigCacheStore
  import opened TxModel
  import opened UartTransmitter
  import opened BleModel
  import opened GattServer
  import opened ProxyModel
  import opened Framing

  class UpstreamSession {
    const pb: Codec
    var state: UpState
    var nonce: UInt32
    const pending: array<Option<Conn>>
    var pendingCount: nat
    var keepaliveArmed: bool
    var dueIn: nat                // the kernel's delayable work item
    var keepaliveNonce: UInt32
    var keepalivePending: bool
    ghost var model: Upstream

    ghost predicate Valid()
      reads this, pending
      ensures Valid() ==> model.state == state
    {
      && pending.Length == MAX_BLE_CONNECTIONS
      && pendingCount == |model.parked| <= MAX_BLE_CONNECTIONS
      && (forall i :: 0 <= i < pendingCount ==> pending[i] == Some(model.parked[i]))
      && model == Upstream(state, nonce, model.parked, keepaliveNonce, keepalivePending, keepaliveArmed, dueIn)
    }

    ghost function Footprint(): set<object> {
      {this, pending}
    }

    constructor (pb: Codec)
      ensures Valid() && fresh(Footprint())
      ensures this.pb == pb && model == INITIAL.up
    {
      this.pb := pb;
      state, nonce := Boot, 0;
      pending := new Option<Conn>[MAX_BLE_CONNECTIONS](_ => None);
      pendingCount, dueIn := 0, 0;
      keepaliveArmed, keepaliveNonce, keepalivePending := false, FIRST_KEEPALIVE_NONCE, false;
      model := INITIAL.up;
    }

    method SetState(st: UpState)
      requires Valid()
      modifies this`state, this`model
      ensures Valid()
      ensures model == old(model).(state := st)
    {
      state := st;
      model := model.(state := st);
    }

    /** A fresh request: a nonce that is neither 0 nor 1, and nobody parked. */
    method PrepareRequest(rand: UInt32)
      requires Valid()
      modifies this`nonce, this`pendingCount, this`model
      ensures Valid()
      ensures model == old(model).(nonce := BootNonce(rand), parked := [])
    {
      nonce := rand;
      if nonce == 0 || nonce == 1 {
        nonce := 2;
      }
      pendingCount := 0;
      model := model.(nonce := nonce, parked := []);
    }

    method Start(rand: UInt32, cache: ConfigCache, tx: UartTx, ghost ble: Ble, ghost rx: Rx)
      requires Valid() && cache.Valid() && tx.Valid()
      modifies this, cache, tx
      ensures Valid() && cache.Valid() && tx.Valid()
      ensures Proxy(cache.model, ble, model, tx.model, rx)
              == ProxyModel.Start(pb, old(Proxy(cache.model, ble, model, tx.model, rx)), rand)
    {
      hide ConfigCache.Valid, UartTx.Valid;
      PrepareRequest(rand);
      cache.Begin();
      var rc := tx.Transmit(pb.encodeWantConfig(nonce));
      if rc == Ok {
        SetState(Fetching);
        keepaliveArmed := true;
        dueIn := KEEPALIVE_MS;
        model := model.(keepaliveArmed := true, dueIn := KEEPALIVE_MS);
      }
    }

    /** Serves every parked phone with the nonce stored for it, in the order they were parked. */
    method ServePendingPhones(ble: BleGatt, ghost frames: seq<Frame>)
      requires Valid() && ble.Valid() && Footprint() !! ble.Repr && ble.ReplaysFrom(frames)
      modifies pending, ble.Repr, this`pendingCount, this`model
      ensures Valid() && ble.Valid() && ble.ReplaysFrom(frames)
      ensures ble.model == Serve(ble.pb, old(ble.model), frames, old(model.parked))
      ensures model == old(model).(parked := [])
    {
      hide BleGatt.Valid, BleGatt.ReplaysFrom;
      ghost var parked := model.parked;
      var i := 0;
      while i < pendingCount
        invariant i <= pendingCount == |parked| && model == old(model)
        invariant ble.Valid() && ble.ReplaysFrom(frames)
        invariant ble.model == Serve(ble.pb, old(ble.model), frames, parked[..i])
        invariant forall k :: i <= k < pendingCount ==> pending[k] == Some(parked[k])
      {
        assert Front(parked[..i + 1]) == parked[..i] && Last(parked[..i + 1]) == parked[i];
        ble.ReplayCachedBurst(pending[i].value, 0, frames);
        pending[i] := None;
        i := i + 1;
      }
      assert parked[..i] == parked;
      pendingCount := 0;
      model := model.(parked := []);
    }

    /** Our terminator: publish the cache, serve the parked phones, go live. */
    method CloseBurst(cache: ConfigCache, ble: BleGatt, ghost tx: Tx, ghost rx: Rx)
      requires Valid() && cache.Valid() && ble.Valid() && ble.pb == pb
      requires Footprint() !! cache.Footprint() && Footprint() !! ble.Repr && cache.Footprint() !! ble.Repr
      requires ble.ReplaysFrom(cache.model.frames)
      modifies this, pending, cache, ble.Repr
      ensures Valid() && cache.Valid() && ble.Valid()
      ensures Proxy(cache.model, ble.model, model, tx, rx)
              == ProxyModel.CloseBurst(pb, old(Proxy(cache.model, ble.model, model, tx, rx)))
      ensures ble.ReplaysFrom(cache.model.frames)
    {
      hide BleGatt.Valid, ConfigCache.Valid;
      cache.MarkReady();
      SetState(CacheReady);
      ServePendingPhones(ble, cache.model.frames);
      SetState(Live);
    }

    /** Feeds one decoded FromRadio to the session; says whether the session consumed it. */
    method OnFromRadio(payload: Bytes, info: FromRadioInfo, cache: ConfigCache, ble: BleGatt,
                       ghost tx: Tx, ghost rx: Rx)
      returns (consumed: bool)
      requires Valid() && cache.Valid() && ble.Valid() && ble.pb == pb
      requires Footprint() !! cache.Footprint() && Footprint() !! ble.Repr && cache.Footprint() !! ble.Repr
      requires ble.ReplaysFrom(cache.model.frames)
      requires state == Fetching ==> forall frames :: ble.ReplaysFrom(frames)
      modifies this, pending, cache.Footprint(), ble.Repr
      ensures Valid() && cache.Valid() && ble.Valid()
      ensures (Proxy(cache.model, ble.model, model, tx, rx), consumed)
              == UpstreamOnFromRadio(pb, old(Proxy(cache.model, ble.model, model, tx, rx)), payload, info)
      ensures ble.ReplaysFrom(cache.model.frames)
    {
      hide BleGatt.Valid, BleGatt.ReplaysFrom, ConfigCache.Valid;
      if state != Fetching {
        return false;
      }
      if info.variant == Packet {
        return false;
      }
      if info.variant == ConfigComplete {
        var got := pb.decodeConfigComplete(payload);
        if got.None? || got.value != nonce {
          var rc := cache.AddFrame(payload, info.variant);
          return true;
        }
        CloseBurst(cache, ble, tx, rx);
        return true;
      }
      var rc := cache.AddFrame(payload, info.variant);
      consumed := true;
    }

    method OnPendingPhone(c: Conn, cache: ConfigCache, ble: BleGatt, ghost tx: Tx, ghost rx: Rx)
      requires Valid() && cache.Valid() && ble.Valid() && ble.pb == pb
      requires Footprint() !! ble.Repr && cache.Footprint() !! ble.Repr && Footprint() !! cache.Footprint()
      requires ble.ReplaysFrom(cache.model.frames)
      modifies this, pending, ble.Repr
      ensures Valid() && cache.Valid() && ble.Valid()
      ensures Proxy(cache.model, ble.model, model, tx, rx)
              == ProxyModel.OnPendingPhone(pb, old(Proxy(cache.model, ble.model, model, tx, rx)), c)
      ensures ble.ReplaysFrom(cache.model.frames)
    {
      hide BleGatt.Valid, BleGatt.ReplaysFrom, ConfigCache.Valid;
      if cache.IsReady() {
        ble.ReplayCachedBurst(c, 0, cache.model.frames);
        return;
      }
      var i := 0;
      while i < pendingCount
        invariant i <= pendingCount
        invariant forall k :: 0 <= k < i ==> model.parked[k] != c
      {
        if pending[i] == Some(c) {
          return;
        }
        i := i + 1;
      }
      if pendingCount >= MAX_BLE_CONNECTIONS {
        return;
      }
      pending[pendingCount] := Some(c);
      pendingCount := pendingCount + 1;
      model := model.(parked := model.parked + [c]);
    }

    /** Post-increments the keepalive nonce; the wrap guard never lets it be 0 or 1. */
    method TakeKeepaliveNonce() returns (n: UInt32)
      requires Valid()
      modifies this`keepaliveNonce, this`model
      ensures Valid()
      ensures n == old(model.keepaliveNonce)
      ensures model == old(model).(keepaliveNonce := NextKeepaliveNonce(n))
    {
      n := keepaliveNonce;
      keepaliveNonce := Increment(keepaliveNonce);
      if keepaliveNonce == 0 || keepaliveNonce == 1 {
        keepaliveNonce := 2;
      }
      model := model.(keepaliveNonce := keepaliveNonce);
    }

    method SetKeepalivePending(on: bool)
      requires Valid()
      modifies this`keepalivePending, this`model
      ensures Valid()
      ensures model == old(model).(keepalivePending := on)
    {
      keepalivePending := on;
      model := model.(keepalivePending := on);
    }

    method KeepaliveWork(tx: UartTx, ghost cache: Cache, ghost ble: Ble, ghost rx: Rx)
      requires Valid() && tx.Valid()
      modifies this, tx
      ensures Valid() && tx.Valid()
      ensures Proxy(cache, ble, model, tx.model, rx)
              == Keepalive(pb, old(Proxy(cache, ble, model, tx.model, rx)))
    {
      hide UartTx.Valid;
      var n := TakeKeepaliveNonce();
      SetKeepalivePending(true);
      var err := tx.Transmit(pb.encodeHeartbeat(n));
      if err != Ok {
        SetKeepalivePending(false);
      }
      dueIn := KEEPALIVE_MS;
      model := model.(dueIn := KEEPALIVE_MS);
    }

    method KeepaliveReschedule()
      requires Valid()
      modifies this`dueIn, this`model
      ensures Valid()
      ensures model == if model.keepaliveArmed then old(model).(dueIn := KEEPALIVE_MS) else old(model)
    {
      if !keepaliveArmed {
        return;
      }
      dueIn := KEEPALIVE_MS;
      model := model.(dueIn := KEEPALIVE_MS);
    }

    /** Time brings the work item closer. */
    method Elapse(ms: nat)
      requires Valid()
      modifies this`dueIn, this`model
      ensures Valid()
      ensures model == old(model).(dueIn := old(model.dueIn) - Min(ms, old(model.dueIn)))
    {
      dueIn := if dueIn <= ms then 0 else dueIn - ms;
      model := model.(dueIn := dueIn);
    }

    method SwallowLiveQueueStatus() returns (swallow: bool)
      requires Valid()
      modifies this
      ensures Valid()
      ensures swallow == old(model.keepalivePending)
      ensures model == old(model).(keepalivePending := false)
    {
      swallow := keepalivePending;
      if keepalivePending {
        keepalivePending := false;
      }
      model := model.(keepalivePending := false);
    }
  }
}
