/** The packed arena of the config cache: frames back to back in one byte buffer, with an index beside it. */
module ConfigCacheStore {
  import opened Base
  import opened Codec
  import opened CacheModel

  /** One index entry; the frame's bytes are arena[offset..offset + len]. */
  datatype FrameRef = FrameRef(offset: nat, len: nat, variant: Variant)

  /** Entry i sits right behind the entries before it and holds frame i. */
  predicate EntryHolds(arena: Bytes, index: seq<FrameRef>, frames: seq<Frame>, i: nat)
    requires i < |frames| && i < |index|
  {
    && index[i] == FrameRef(Offset(frames, i), |frames[i].bytes|, frames[i].variant)
    && index[i].offset + index[i].len <= Total(frames)
    && index[i].offset + index[i].len <= |arena|
    && arena[index[i].offset..index[i].offset + index[i].len] == frames[i].bytes
  }

  ghost predicate LaidOut(arena: Bytes, index: seq<FrameRef>, frames: seq<Frame>) {
    |frames| <= |index| && forall i :: 0 <= i < |frames| ==> EntryHolds(arena, index, frames, i)
  }

  lemma {:induction false} TotalAppendOne(frames: seq<Frame>, f: Frame)
    ensures Total(frames + [f]) == Total(frames) + |f.bytes|
  {
    assert Front(frames + [f]) == frames;
  }

  /** Appending behind the used part keeps the layout of everything stored before. */
  lemma {:induction false} AppendKeepsLayout(arena: Bytes, index: seq<FrameRef>, frames: seq<Frame>,
                          arena': Bytes, index': seq<FrameRef>, f: Frame)
    requires LaidOut(arena, index, frames) && |arena'| == |arena| && |index'| == |index| > |frames|
    requires Total(frames) + |f.bytes| <= |arena|
    requires arena'[..Total(frames)] == arena[..Total(frames)]
    requires arena'[Total(frames)..Total(frames) + |f.bytes|] == f.bytes
    requires index'[..|frames|] == index[..|frames|]
    requires index'[|frames|] == FrameRef(Total(frames), |f.bytes|, f.variant)
    ensures LaidOut(arena', index', frames + [f])
  {
    var frames' := frames + [f];
    TotalAppend(frames, [f]);
    assert Front([f]) == [];
    forall i | 0 <= i < |frames'| ensures EntryHolds(arena', index', frames', i) {
      if i < |frames| {
        assert EntryHolds(arena, index, frames, i);
        OldEntryStays(arena, index, frames, arena', index', frames', i);
      } else {
        assert frames'[..i] == frames;
      }
    }
  }

  lemma {:induction false} OldEntryStays(arena: Bytes, index: seq<FrameRef>, frames: seq<Frame>,
                      arena': Bytes, index': seq<FrameRef>, frames': seq<Frame>, i: nat)
    requires i < |frames| <= |index| == |index'| && EntryHolds(arena, index, frames, i)
    requires frames <= frames' && Total(frames) <= Total(frames') <= |arena| == |arena'|
    requires arena'[..Total(frames)] == arena[..Total(frames)]
    requires index'[..|frames|] == index[..|frames|]
    ensures EntryHolds(arena', index', frames', i)
  {
    assert frames'[..i] == frames[..i];
    var from, to := index[i].offset, index[i].offset + index[i].len;
    assert index'[i] == index'[..|frames|][i] == index[i];
    SliceOfPrefix(arena, from, to, Total(frames));
    SliceOfPrefix(arena', from, to, Total(frames));
  }

  lemma SliceOfPrefix<T>(s: seq<T>, from: nat, to: nat, n: nat)
    requires from <= to <= n <= |s|
    ensures s[..n][from..to] == s[from..to]
  {
  }

  class ConfigCache {
    const arena: array<Byte>
    const index: array<FrameRef>
    var used: nat
    var count: nat
    var ready: bool
    var queueStatusIdx: int
    var ownNodeInfoIdx: int
    ghost var model: Cache

    ghost predicate Valid()
      reads this, arena, index
      ensures Valid() ==> count == |model.frames| && ready == model.ready
    {
      && arena.Length == CONFIG_CACHE_ARENA_BYTES && index.Length == CONFIG_CACHE_MAX_FRAMES
      && count == |model.frames| <= CONFIG_CACHE_MAX_FRAMES
      && used == Total(model.frames) <= CONFIG_CACHE_ARENA_BYTES
      && ready == model.ready
      && LaidOut(arena[..], index[..], model.frames)
      && (if queueStatusIdx < 0
          then queueStatusIdx == -1 && forall i :: 0 <= i < count ==> model.frames[i].variant != QueueStatus
          else IsLastQueueStatus(model.frames, queueStatusIdx))
      && (if ownNodeInfoIdx < 0
          then ownNodeInfoIdx == -1 && forall i :: 0 <= i < count ==> model.frames[i].variant != NodeInfo
          else IsOwnNodeInfo(model.frames, ownNodeInfoIdx))
    }

    ghost function Footprint(): set<object> {
      {this, arena, index}
    }

    constructor ()
      ensures Valid() && fresh(Footprint())
      ensures model == Cache([], false)
    {
      arena := new Byte[CONFIG_CACHE_ARENA_BYTES];
      index := new FrameRef[CONFIG_CACHE_MAX_FRAMES];
      used, count, ready := 0, 0, false;
      queueStatusIdx, ownNodeInfoIdx := -1, -1;
      model := Cache([], false);
    }

    method Begin()
      requires Valid()
      modifies this
      ensures Valid()
      ensures model == Cache([], false)
    {
      ready := false;
      used := 0;
      count := 0;
      queueStatusIdx := -1;
      ownNodeInfoIdx := -1;
      model := Cache([], false);
    }

    /** Copies raw to the first unused byte of the arena. */
    method CopyToArena(raw: Bytes)
      requires used + |raw| <= arena.Length
      modifies arena
      ensures arena[..used] == old(arena[..used])
      ensures arena[used..used + |raw|] == raw
    {
      forall j | 0 <= j < |raw| {
        arena[used + j] := raw[j];
      }
    }

    /** Stores the frame if it fits, and leaves every frame stored before where it is. */
    method AddFrame(raw: Bytes, variant: Variant) returns (rc: Rc)
      requires Valid()
      modifies this, arena, index
      ensures Valid()
      ensures rc == if Fits(old(model.frames), Frame(raw, variant)) then Ok else ENoMem
      ensures model == old(model).(frames := Add(old(model.frames), Frame(raw, variant)))
      ensures arena[..old(used)] == old(arena[..used])
      ensures index[..old(count)] == old(index[..count])
    {
      hide LaidOut, EntryHolds, Total;
      if count >= CONFIG_CACHE_MAX_FRAMES {
        return ENoMem;
      }
      if used + |raw| > CONFIG_CACHE_ARENA_BYTES {
        return ENoMem;
      }
      ghost var before, f := model.frames, Frame(raw, variant);
      CopyToArena(raw);
      index[count] := FrameRef(used, |raw|, variant);
      if variant == QueueStatus {
        queueStatusIdx := count;
      }
      if variant == NodeInfo && ownNodeInfoIdx < 0 {
        ownNodeInfoIdx := count;
      }
      used := used + |raw|;
      count := count + 1;
      model := model.(frames := before + [f]);
      TotalAppendOne(before, f);
      AppendKeepsLayout(old(arena[..]), old(index[..]), before, arena[..], index[..], f);
      rc := Ok;
    }

    method MarkReady()
      requires Valid()
      modifies this
      ensures Valid()
      ensures model == old(model).(ready := true)
    {
      ready := true;
      model := model.(ready := true);
    }

    predicate IsReady()
      reads this
    {
      ready
    }

    method FrameAt(idx: nat) returns (ref: Option<FrameRef>)
      requires Valid()
      ensures ref.Some? <==> idx < |model.frames|
      ensures ref.Some? ==>
                && ref.value.offset + ref.value.len <= arena.Length
                && ref.value.variant == model.frames[idx].variant
                && arena[ref.value.offset..ref.value.offset + ref.value.len] == model.frames[idx].bytes
    {
      if idx >= count {
        return None;
      }
      assert EntryHolds(arena[..], index[..], model.frames, idx);
      ref := Some(index[idx]);
    }

    /** The last stored queueStatus, straight from the arena. */
    method GetQueueStatus() returns (frame: Option<Bytes>)
      requires Valid()
      ensures frame.Some? <==> exists i :: 0 <= i < |model.frames| && model.frames[i].variant == QueueStatus
      ensures frame.Some? ==>
                exists i :: && 0 <= i < |model.frames| && frame.value == model.frames[i].bytes
                            && model.frames[i].variant == QueueStatus
                            && forall j :: i < j < |model.frames| ==> model.frames[j].variant != QueueStatus
    {
      if queueStatusIdx < 0 {
        return None;
      }
      assert EntryHolds(arena[..], index[..], model.frames, queueStatusIdx);
      var ref := index[queueStatusIdx];
      frame := Some(arena[ref.offset..ref.offset + ref.len]);
    }

    /** The segment test as the firmware computes it, on indices and the remembered own node_info. */
    function FrameInSegment(idx: nat, nonce: UInt32): (inside: bool)
      requires Valid()
      reads this, arena, index
      ensures inside == InSegment(model.frames, idx, nonce)
    {
      if idx >= count then false
      else
        assert EntryHolds(arena[..], index[..], model.frames, idx);
        var variant := index[idx].variant;
        var isNodeInfo := variant == NodeInfo;
        if variant == ConfigComplete then false
        else if nonce == MESH_NONCE_ONLY_NODES then isNodeInfo
        else if nonce == MESH_NONCE_ONLY_CONFIG then !(isNodeInfo && idx != ownNodeInfoIdx)
        else true
    }
  }
}
