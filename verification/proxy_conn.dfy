/**
 One slot of the connection table: a circular queue of packets, a cursor into the shared cache and a
 staging buffer.  It behaves like the ideal link of LinkModel.
 */
module ConnectionSlot {
  import opened Base
  import opened Codec
  import opened CacheModel
  import opened ConfigCacheStore
  import opened LinkModel
  import opened CircularQueue

  /** What a cursor into the burst still has to serve. */
  function Remaining(frames: seq<Frame>, cursor: nat, nonce: UInt32, cc: Bytes): seq<Bytes> {
    if cursor <= |frames| then SegmentFrom(frames, cursor, nonce) + [cc] else []
  }

  lemma SkippingServesTheSame(frames: seq<Frame>, cursor: nat, nonce: UInt32, cc: Bytes)
    requires cursor < |frames| && !InSegment(frames, cursor, nonce)
    ensures Remaining(frames, cursor, nonce, cc) == Remaining(frames, cursor + 1, nonce, cc)
  {
  }

  lemma ServingOne(frames: seq<Frame>, cursor: nat, nonce: UInt32, cc: Bytes)
    requires cursor <= |frames| && (cursor == |frames| || InSegment(frames, cursor, nonce))
    ensures Remaining(frames, cursor, nonce, cc)
            == [if cursor == |frames| then cc else frames[cursor].bytes] + Remaining(frames, cursor + 1, nonce, cc)
  {
    if cursor < |frames| {
      assert [frames[cursor].bytes] + SegmentFrom(frames, cursor + 1, nonce) + [cc]
          == [frames[cursor].bytes] + (SegmentFrom(frames, cursor + 1, nonce) + [cc]);
    }
  }

  lemma WholeReplayRemains(pb: Codec, frames: seq<Frame>, nonce: UInt32)
    ensures Remaining(frames, 0, nonce, pb.encodeConfigComplete(nonce)) == ReplayList(pb, frames, nonce)
  {
  }

  lemma NothingRemains(frames: seq<Frame>, nonce: UInt32, cc: Bytes)
    ensures Remaining(frames, |frames| + 1, nonce, cc) == []
  {
  }

  class ProxyConn {
    var conn: Option<Conn>
    var proxyId: Bytes
    var fromnum: UInt32
    var state: PhoneState
    var nonce: UInt32
    var replayCursor: nat
    const ccFrame: array<Byte>
    var ccLen: nat
    const queue: PacketQueue
    const staged: array<Byte>
    var stagedLen: nat
    ghost var model: Link
    ghost var burst: seq<Frame>     // the cache contents the current replay was armed with
    ghost const Repr: set<object>

    ghost predicate ReplayMatches()
      reads this, ccFrame
    {
      && ccFrame.Length == CC_FRAME_SIZE && ccLen <= CC_FRAME_SIZE
      && (state == Replaying ==>
            && replayCursor <= |burst| + 1
            && model.replay == Remaining(burst, replayCursor, nonce, ccFrame[..ccLen]))
      && (state != Replaying ==> model.replay == [])
    }

    ghost predicate StagedMatches()
      reads this, staged
    {
      && staged.Length == FROMRADIO_MAX_PKT_SIZE && stagedLen <= FROMRADIO_MAX_PKT_SIZE
      && model.staged == staged[..stagedLen]
    }

    ghost predicate Valid()
      reads this, Repr
      ensures Valid() ==> this in Repr && queue in Repr
    {
      && Repr == {this, ccFrame, staged} + queue.Footprint()
      && ccFrame != staged && {this, ccFrame, staged} !! queue.Footprint()
      && model.proxyId == proxyId && model.fromnum == fromnum && model.state == state && model.nonce == nonce
      && queue.Valid() && model.queue == queue.contents
      && ReplayMatches()
      && StagedMatches()
      && (conn.None? ==> model == FRESH)
    }

    constructor ()
      ensures Valid() && fresh(Repr)
      ensures conn == None && model == FRESH
    {
      conn, proxyId, fromnum, state, nonce := None, ZERO_ID, 0, Connected, 0;
      replayCursor, ccLen, stagedLen := 0, 0, 0;
      var cc, stage := new Byte[CC_FRAME_SIZE], new Byte[FROMRADIO_MAX_PKT_SIZE];
      var q := new PacketQueue();
      ccFrame, staged, queue := cc, stage, q;
      model := FRESH;
      burst := [];
      Repr := {this, cc, stage} + q.Footprint();
    }

    /** The slot's part of alloc_slot: cc_frame, cc_len and the buffers keep what was there before. */
    method Alloc(c: Conn)
      requires Valid()
      modifies this, queue
      ensures Valid()
      ensures conn == Some(c) && model == FRESH && state == Connected
    {
      hide PacketQueue.Valid;
      conn := Some(c);
      proxyId := ZERO_ID;
      fromnum := 0;
      queue.Clear();
      stagedLen := 0;
      state := Connected;
      nonce := 0;
      replayCursor := 0;
      model := FRESH;
    }

    /** free_slot. */
    method Release()
      requires Valid()
      modifies this, queue
      ensures Valid()
      ensures conn == None && model == FRESH && state == Connected
    {
      hide PacketQueue.Valid;
      conn := None;
      proxyId := ZERO_ID;
      fromnum := 0;
      queue.Clear();
      stagedLen := 0;
      state := Connected;
      nonce := 0;
      replayCursor := 0;
      model := FRESH;
    }

    /** The part of ble_gatt_enqueue_fromradio done under the slot's lock. */
    method Push(pb: Codec, data: Bytes) returns (rc: Rc)
      requires Valid() && conn.Some? && |data| <= FROMRADIO_MAX_PKT_SIZE
      modifies Repr
      ensures Valid()
      ensures rc == EnqueueRc(old(model), data)
      ensures model == LinkStep(pb, old(model), Enqueue(data))
      ensures conn == old(conn) && burst == old(burst) && (state == Replaying ==> old(state) == Replaying)
    {
      if queue.count >= FROMRADIO_QUEUE_DEPTH {
        return ENoMem;
      }
      queue.Push(data);
      fromnum := Increment(fromnum);
      model := LinkStep(pb, model, Enqueue(data));
      rc := Ok;
    }

    /** fromradio_read. */
    method Read(pb: Codec, cache: ConfigCache, offset: nat, len: nat) returns (r: ReadResult)
      requires Valid() && conn.Some? && cache.Valid() && cache.Footprint() !! Repr
      requires state == Replaying ==> burst == cache.model.frames
      requires forall i :: 0 <= i < |cache.model.frames| ==> |cache.model.frames[i].bytes| <= FROMRADIO_MAX_PKT_SIZE
      modifies Repr
      ensures Valid()
      ensures r == Response(pb, old(model), offset, len)
      ensures model == LinkStep(pb, old(model), LinkEvent.Read(offset, len))
      ensures conn == old(conn) && burst == old(burst) && (state == Replaying ==> old(state) == Replaying)
    {
      if offset == 0 {
        if state == Replaying {
          StageReplay(cache);
        } else if queue.count > 0 {
          StageQueued();
        } else {
          stagedLen := 0;
          model := model.(staged := []);
        }
      }
      if stagedLen > 0 {
        if offset > stagedLen {
          return Failed(InvalidOffset);
        }
        r := Data(staged[offset..Min(offset + len, stagedLen)]);
        assert staged[offset..Min(offset + len, stagedLen)] == model.staged[offset..Min(offset + len, stagedLen)];
      } else {
        r := Data([]);
      }
    }

    /** The cursor moves past cached frames outside this phone's segment. */
    method SkipOtherSegments(cache: ConfigCache)
      requires Valid() && cache.Valid() && state == Replaying && burst == cache.model.frames
      requires this !in cache.Footprint()
      modifies this`replayCursor
      ensures Valid() && cache.Valid()
      ensures replayCursor < |burst| ==> InSegment(burst, replayCursor, nonce)
    {
      hide PacketQueue.Valid, ConfigCache.Valid, Remaining;
      while replayCursor < cache.count && !cache.FrameInSegment(replayCursor, nonce)
        invariant Valid() && cache.Valid()
        decreases cache.count - replayCursor
      {
        SkippingServesTheSame(burst, replayCursor, nonce, ccFrame[..ccLen]);
        replayCursor := replayCursor + 1;
      }
    }

    method StageBytes(source: array<Byte>, offset: nat, len: nat)
      requires offset + len <= source.Length && len <= staged.Length && source != staged
      modifies staged, this`stagedLen
      ensures stagedLen == len && staged[..len] == source[offset..offset + len]
    {
      forall j | 0 <= j < len {
        staged[j] := source[offset + j];
      }
      stagedLen := len;
    }

    /** Copies the frame under the cursor straight from the arena; its index entry cannot be missing. */
    method StageCachedFrame(cache: ConfigCache)
      requires cache.Valid() && cache.arena != staged && staged.Length == FROMRADIO_MAX_PKT_SIZE
      requires replayCursor < |cache.model.frames|
      requires |cache.model.frames[replayCursor].bytes| <= FROMRADIO_MAX_PKT_SIZE
      modifies staged, this`stagedLen
      ensures stagedLen == |cache.model.frames[replayCursor].bytes|
      ensures staged[..stagedLen] == cache.model.frames[replayCursor].bytes
    {
      var ref := cache.FrameAt(replayCursor);
      if ref.Some? {
        StageBytes(cache.arena, ref.value.offset, ref.value.len);
      } else {
        assert false;
      }
    }

    method StoreTerminator(cc: Bytes)
      requires |cc| <= ccFrame.Length
      modifies ccFrame, this`ccLen
      ensures ccLen == |cc| && ccFrame[..ccLen] == cc
    {
      forall j | 0 <= j < |cc| {
        ccFrame[j] := cc[j];
      }
      ccLen := |cc|;
    }

    /** Serve-on-read replay: one cached frame, then the terminator, then go Active. */
    method StageReplay(cache: ConfigCache)
      requires Valid() && conn.Some? && cache.Valid() && cache.Footprint() !! Repr
      requires state == Replaying && burst == cache.model.frames
      requires forall i :: 0 <= i < |cache.model.frames| ==> |cache.model.frames[i].bytes| <= FROMRADIO_MAX_PKT_SIZE
      modifies Repr
      ensures Valid()
      ensures model == FreshRead(old(model))
      ensures conn == old(conn) && burst == old(burst) && (state == Replaying ==> old(state) == Replaying)
    {
      hide PacketQueue.Valid, ConfigCache.Valid, Remaining;
      var n := cache.count;
      SkipOtherSegments(cache);
      ghost var cc := ccFrame[..ccLen];
      if replayCursor <= n {
        ServingOne(burst, replayCursor, nonce, cc);
      } else {
        NothingRemains(burst, nonce, cc);
      }
      if replayCursor < n {
        StageCachedFrame(cache);
        replayCursor := replayCursor + 1;
      } else if replayCursor == n {
        StageBytes(ccFrame, 0, ccLen);
        replayCursor := replayCursor + 1;
      } else {
        state := Active;
        stagedLen := 0;
      }
      model := FreshRead(model);
    }

    method StageQueued()
      requires Valid() && conn.Some? && state != Replaying && queue.contents != []
      modifies Repr
      ensures Valid()
      ensures model == FreshRead(old(model))
      ensures conn == old(conn) && burst == old(burst) && (state == Replaying ==> old(state) == Replaying)
    {
      stagedLen := queue.PopInto(staged);
      model := FreshRead(model);
    }

    /** The part of ble_gatt_replay_cached_burst that concerns the slot. */
    method Arm(pb: Codec, passedNonce: UInt32, ghost frames: seq<Frame>)
      requires Valid() && conn.Some?
      modifies Repr
      ensures Valid()
      ensures model == LinkStep(pb, old(model), LinkEvent.Arm(passedNonce, frames))
      ensures conn == old(conn) && burst == frames
    {
      hide PacketQueue.Valid, Remaining, ReplayList;
      if passedNonce != 0 {
        nonce := passedNonce;
      }
      WholeReplayRemains(pb, frames, nonce);
      StoreTerminator(pb.encodeConfigComplete(nonce));
      PointAtStart(frames);
      model := LinkStep(pb, model, LinkEvent.Arm(passedNonce, frames));
    }

    /** The part of arming done under the slot's lock. */
    method PointAtStart(ghost frames: seq<Frame>)
      modifies this`replayCursor, this`state, this`fromnum, this`burst
      ensures replayCursor == 0 && state == Replaying && fromnum == Increment(old(fromnum)) && burst == frames
    {
      replayCursor := 0;
      state := Replaying;
      fromnum := Increment(fromnum);
      burst := frames;
    }

    /** The slot's part of ble_gatt_park_pending. */
    method Park(pb: Codec, askedNonce: UInt32)
      requires Valid() && conn.Some?
      modifies this
      ensures Valid()
      ensures model == LinkStep(pb, old(model), LinkEvent.Park(askedNonce))
      ensures conn == old(conn) && burst == old(burst) && (state == Replaying ==> old(state) == Replaying)
    {
      state := Pending;
      nonce := askedNonce;
      model := LinkStep(pb, model, LinkEvent.Park(askedNonce));
    }

    method Register(pb: Codec, id: Bytes)
      requires Valid() && conn.Some?
      modifies this
      ensures Valid()
      ensures model == LinkStep(pb, old(model), LinkEvent.Register(id))
      ensures conn == old(conn) && burst == old(burst) && (state == Replaying ==> old(state) == Replaying)
    {
      proxyId := id;
      model := LinkStep(pb, model, LinkEvent.Register(id));
    }
  }
}
