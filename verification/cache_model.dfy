/**
 The config cache seen as a plain list of frames: the greedy storing rule, the per-nonce segments of a
 replay, and what both of them promise.
 */
module CacheModel {
  import opened Base
  import opened Codec

  const CONFIG_CACHE_ARENA_BYTES: nat := 4096
  const CONFIG_CACHE_MAX_FRAMES: nat := 128

  const MESH_NONCE_ONLY_CONFIG: UInt32 := 69420
  const MESH_NONCE_ONLY_NODES: UInt32 := 69421

  datatype Frame = Frame(bytes: Bytes, variant: Variant)

  datatype Cache = Cache(frames: seq<Frame>, ready: bool)

  // ------------------------------------------------------------------ storing

  function Total(fs: seq<Frame>): nat {
    if fs == [] then 0 else Total(Front(fs)) + |Last(fs).bytes|
  }

  predicate Fits(stored: seq<Frame>, f: Frame) {
    |stored| < CONFIG_CACHE_MAX_FRAMES && Total(stored) + |f.bytes| <= CONFIG_CACHE_ARENA_BYTES
  }

  predicate WithinLimits(fs: seq<Frame>) {
    |fs| <= CONFIG_CACHE_MAX_FRAMES && Total(fs) <= CONFIG_CACHE_ARENA_BYTES
  }

  function Add(stored: seq<Frame>, f: Frame): seq<Frame> {
    if Fits(stored, f) then stored + [f] else stored
  }

  /** The frames kept out of those offered, one by one, to an empty cache. */
  function Stored(offered: seq<Frame>): seq<Frame> {
    if offered == [] then [] else Add(Stored(Front(offered)), Last(offered))
  }

  lemma {:induction false} TotalAppend(a: seq<Frame>, b: seq<Frame>)
    ensures Total(a + b) == Total(a) + Total(b)
  {
    if b == [] {
      assert a + b == a;
    } else {
      assert Front(a + b) == a + Front(b);
      TotalAppend(a, Front(b));
    }
  }

  lemma {:induction false} StoredWithinLimits(offered: seq<Frame>)
    ensures WithinLimits(Stored(offered)) && |Stored(offered)| <= |offered|
  {
    if offered != [] {
      StoredWithinLimits(Front(offered));
      var kept := Stored(Front(offered));
      assert Front(kept + [Last(offered)]) == kept;
    }
  }

  /** Later frames never disturb the ones already stored. */
  lemma {:induction false} StoredExtends(a: seq<Frame>, b: seq<Frame>)
    ensures Stored(a) <= Stored(a + b)
    ensures |Stored(a + b)| <= |Stored(a)| + |b|
  {
    if b == [] {
      assert a + b == a;
    } else {
      assert Front(a + b) == a + Front(b);
      StoredExtends(a, Front(b));
    }
  }

  /** Nothing is lost exactly when the whole burst respects both limits. */
  lemma {:induction false} NothingLostIffFits(offered: seq<Frame>)
    ensures Stored(offered) == offered <==> WithinLimits(offered)
    ensures WithinLimits(offered) <==> |offered| <= 128 && Total(offered) <= 4096
  {
    StoredWithinLimits(offered);
    if WithinLimits(offered) && offered != [] {
      NothingLostIffFits(Front(offered));
      assert Front(offered) + [Last(offered)] == offered;
    }
  }

  /**
   The storing rule keeps a greedy subsequence: a frame after a rejected one may still be kept.  When
   frame r is the first rejected one, the kept frames are a prefix of the burst exactly when no later
   frame fits into the room that was left at that point.
   */
  lemma {:induction false} KeepsPrefixIffNothingLaterFits(offered: seq<Frame>, r: nat)
    requires r < |offered|
    requires WithinLimits(offered[..r]) && !Fits(offered[..r], offered[r])
    ensures Stored(offered) <= offered <==> forall k :: r < k < |offered| ==> !Fits(offered[..r], offered[k])
  {
    NothingLostIffFits(offered[..r]);
    if k :| r < k < |offered| && Fits(offered[..r], offered[k]) {
      SecondKeptFrameBreaksThePrefix(offered, r, k);
    } else {
      RejectedTail(offered, r, |offered|);
    }
  }

  lemma {:induction false} RejectedTail(offered: seq<Frame>, r: nat, n: nat)
    requires r < n <= |offered|
    requires Stored(offered[..r]) == offered[..r] && !Fits(offered[..r], offered[r])
    requires forall k :: r < k < n ==> !Fits(offered[..r], offered[k])
    ensures Stored(offered[..n]) == offered[..r]
    ensures n == |offered| ==> Stored(offered) == offered[..r]
    decreases n
  {
    assert Front(offered[..n]) == offered[..n - 1] && Last(offered[..n]) == offered[n - 1];
    if n > r + 1 {
      RejectedTail(offered, r, n - 1);
    }
    assert n == |offered| ==> offered[..n] == offered;
  }

  lemma {:induction false} SecondKeptFrameBreaksThePrefix(offered: seq<Frame>, r: nat, k: nat)
    requires r < k < |offered|
    requires Stored(offered[..r]) == offered[..r] && !Fits(offered[..r], offered[r])
    requires Fits(offered[..r], offered[k])
    ensures !(Stored(offered) <= offered)
    decreases k
  {
    if j :| r < j < k && Fits(offered[..r], offered[j]) {
      SecondKeptFrameBreaksThePrefix(offered, r, j);
    } else {
      RejectedTail(offered, r, k);
      var upTo := offered[..k + 1];
      assert Front(upTo) == offered[..k] && Last(upTo) == offered[k];
      assert Stored(upTo) == offered[..r] + [offered[k]];
      assert upTo + offered[k + 1..] == offered;
      StoredExtends(upTo, offered[k + 1..]);
      assert Stored(offered)[r] == Stored(upTo)[r] == offered[k];
    }
  }

  /** n copies of a frame. */
  function Copies(f: Frame, n: nat): seq<Frame> {
    if n == 0 then [] else Copies(f, n - 1) + [f]
  }

  lemma {:induction false} CopiesTotal(f: Frame, n: nat)
    requires |f.bytes| == MAX_PAYLOAD
    ensures |Copies(f, n)| == n && Total(Copies(f, n)) == n * MAX_PAYLOAD
    ensures forall i :: 0 <= i < n ==> Copies(f, n)[i] == f
  {
    if n > 0 {
      CopiesTotal(f, n - 1);
      assert Front(Copies(f, n)) == Copies(f, n - 1);
    }
  }

  predicate Receivable(f: Frame) {
    1 <= |f.bytes| <= MAX_PAYLOAD
  }

  /**
   A burst of frames the UART can deliver whose ninth frame is rejected for want of two bytes and whose
   tenth, of one byte, is kept: the promised prefix does not hold.
   */
  lemma GreedyNotPrefixExample(full: Frame, almost: Frame, two: Frame, one: Frame)
    requires |full.bytes| == MAX_PAYLOAD && |almost.bytes| == MAX_PAYLOAD - 1 && |two.bytes| == 2 && |one.bytes| == 1
    ensures var burst := Copies(full, 7) + [almost, two, one];
            && (forall i :: 0 <= i < |burst| ==> Receivable(burst[i]))
            && Stored(burst) == Copies(full, 7) + [almost, one]
            && !(Stored(burst) <= burst)
  {
    var burst := Copies(full, 7) + [almost, two, one];
    var kept := Copies(full, 7) + [almost];
    CopiesTotal(full, 7);
    TotalAppend(Copies(full, 7), [almost]);
    assert Front([almost]) == [];
    assert Front(kept + [one]) == kept;
    assert burst[..8] == kept && burst[..9] == kept + [two] && burst[..10] == burst;
    NothingLostIffFits(kept);
    assert Front(burst[..9]) == kept && Front(burst) == burst[..9];
    assert Stored(burst[..9]) == kept;
    assert Stored(burst) == kept + [one] == Copies(full, 7) + [almost, one];
    assert Stored(burst)[8] == one != two == burst[8];
  }

  // ------------------------------------------------------------------ layout

  /** Where frame i starts in the packed arena. */
  function Offset(fs: seq<Frame>, i: nat): nat
    requires i <= |fs|
  {
    Total(fs[..i])
  }

  lemma {:induction false} OffsetMonotone(fs: seq<Frame>, i: nat, j: nat)
    requires i <= j <= |fs|
    ensures Offset(fs, i) <= Offset(fs, j) <= Total(fs)
    decreases |fs| - i, |fs| - j
  {
    assert fs[..i] + fs[i..] == fs && fs[..j] + fs[j..] == fs;
    TotalAppend(fs[..j], fs[j..]);
    assert fs[..i] + fs[i..j] == fs[..j];
    TotalAppend(fs[..i], fs[i..j]);
  }

  predicate Holds(fs: seq<Frame>, i: nat, p: nat) {
    i < |fs| && Offset(fs, i) <= p < Offset(fs, i + 1)
  }

  /** Index entries tile the used part of the arena: every byte belongs to exactly one frame. */
  lemma {:induction false} EveryByteInExactlyOneFrame(fs: seq<Frame>, p: nat)
    requires p < Total(fs)
    ensures exists i: nat :: Holds(fs, i, p)
    ensures forall i: nat, j: nat :: Holds(fs, i, p) && Holds(fs, j, p) ==> i == j
  {
    assert fs[..|fs|] == fs;
    var k := FrameHolding(fs, p, |fs|);
    forall i: nat, j: nat | Holds(fs, i, p) && Holds(fs, j, p) ensures i == j {
      HolderIsUnique(fs, p, i, j);
    }
  }

  lemma HolderIsUnique(fs: seq<Frame>, p: nat, i: nat, j: nat)
    requires Holds(fs, i, p) && Holds(fs, j, p)
    ensures i == j
  {
    if i < j {
      OffsetMonotone(fs, i + 1, j);
    } else if j < i {
      OffsetMonotone(fs, j + 1, i);
    }
  }

  lemma {:induction false} FrameHolding(fs: seq<Frame>, p: nat, n: nat) returns (i: nat)
    requires n <= |fs| && p < Offset(fs, n)
    ensures Holds(fs, i, p)
  {
    assert n > 0;
    if Offset(fs, n - 1) <= p {
      i := n - 1;
    } else {
      i := FrameHolding(fs, p, n - 1);
    }
  }

  // ----------------------------------------------------------------- segments

  /** The least stored node_info: the node's own, because the burst sends it first. */
  predicate IsOwnNodeInfo(fs: seq<Frame>, i: int) {
    && 0 <= i < |fs| && fs[i].variant == NodeInfo
    && forall j :: 0 <= j < i ==> fs[j].variant != NodeInfo
  }

  /** The greatest stored queueStatus. */
  predicate IsLastQueueStatus(fs: seq<Frame>, i: int) {
    && 0 <= i < |fs| && fs[i].variant == QueueStatus
    && forall j :: i < j < |fs| ==> fs[j].variant != QueueStatus
  }

  /** Whether a replay answering nonce includes frame idx. */
  predicate InSegment(fs: seq<Frame>, idx: nat, nonce: UInt32) {
    && idx < |fs|
    && fs[idx].variant != ConfigComplete
    && (nonce == MESH_NONCE_ONLY_NODES ==> fs[idx].variant == NodeInfo)
    && (nonce == MESH_NONCE_ONLY_CONFIG && fs[idx].variant == NodeInfo ==> IsOwnNodeInfo(fs, idx))
  }

  function SegmentFrom(fs: seq<Frame>, cursor: nat, nonce: UInt32): seq<Bytes>
    requires cursor <= |fs|
    decreases |fs| - cursor
  {
    if cursor == |fs| then []
    else (if InSegment(fs, cursor, nonce) then [fs[cursor].bytes] else []) + SegmentFrom(fs, cursor + 1, nonce)
  }

  /** The frames a phone that sent nonce is given, in order. */
  function Segment(fs: seq<Frame>, nonce: UInt32): seq<Bytes> {
    SegmentFrom(fs, 0, nonce)
  }

  /** The burst without terminators. */
  function Contents(fs: seq<Frame>): seq<Bytes> {
    if fs == [] then []
    else Contents(Front(fs)) + (if Last(fs).variant == ConfigComplete then [] else [Last(fs).bytes])
  }

  /** An ordinary nonce is answered with the whole burst, in the node's order. */
  lemma {:induction false} OrdinaryNonceGetsEverything(fs: seq<Frame>, nonce: UInt32)
    requires nonce != MESH_NONCE_ONLY_CONFIG && nonce != MESH_NONCE_ONLY_NODES
    ensures Segment(fs, nonce) == Contents(fs)
  {
    SegmentIsContentsOfRest(fs, 0, nonce);
    assert fs[..0] == [];
  }

  lemma {:induction false} SegmentIsContentsOfRest(fs: seq<Frame>, cursor: nat, nonce: UInt32)
    requires cursor <= |fs|
    requires nonce != MESH_NONCE_ONLY_CONFIG && nonce != MESH_NONCE_ONLY_NODES
    ensures Contents(fs[..cursor]) + SegmentFrom(fs, cursor, nonce) == Contents(fs)
    decreases |fs| - cursor
  {
    if cursor == |fs| {
      assert fs[..cursor] == fs;
    } else {
      SegmentIsContentsOfRest(fs, cursor + 1, nonce);
      var upTo := fs[..cursor + 1];
      assert Front(upTo) == fs[..cursor] && Last(upTo) == fs[cursor];
      var one := if fs[cursor].variant == ConfigComplete then [] else [fs[cursor].bytes];
      assert Contents(upTo) == Contents(fs[..cursor]) + one;
      assert SegmentFrom(fs, cursor, nonce) == one + SegmentFrom(fs, cursor + 1, nonce);
    }
  }

  /** The node_info frames. */
  function NodeInfos(fs: seq<Frame>): seq<Bytes> {
    if fs == [] then []
    else NodeInfos(Front(fs)) + (if Last(fs).variant == NodeInfo then [Last(fs).bytes] else [])
  }

  /** The burst without terminators and without any node_info but the first. */
  function ConfigPart(fs: seq<Frame>): seq<Bytes> {
    if fs == [] then []
    else
      var other := Last(fs).variant == NodeInfo && NodeInfos(Front(fs)) != [];
      ConfigPart(Front(fs)) + (if Last(fs).variant == ConfigComplete || other then [] else [Last(fs).bytes])
  }

  /** What a phone that sent nonce is promised of a burst. */
  function Selected(fs: seq<Frame>, nonce: UInt32): seq<Bytes> {
    if nonce == 69420 then ConfigPart(fs)
    else if nonce == 69421 then NodeInfos(fs)
    else Contents(fs)
  }

  lemma {:induction false} NoNodeInfos(fs: seq<Frame>)
    ensures NodeInfos(fs) == [] <==> forall i :: 0 <= i < |fs| ==> fs[i].variant != NodeInfo
  {
    if fs != [] {
      NoNodeInfos(Front(fs));
      assert forall i :: 0 <= i < |fs| - 1 ==> fs[i] == Front(fs)[i];
      assert Last(fs) == fs[|fs| - 1];
    }
  }

  /** 69421 is answered with the node_info frames and nothing else, in order. */
  lemma {:induction false} OnlyNodesGetsTheNodeInfos(fs: seq<Frame>)
    ensures Segment(fs, 69421) == NodeInfos(fs)
  {
    NodesOfRest(fs, 0);
    assert fs[..0] == [];
  }

  lemma {:induction false} NodesOfRest(fs: seq<Frame>, cursor: nat)
    requires cursor <= |fs|
    ensures NodeInfos(fs[..cursor]) + SegmentFrom(fs, cursor, 69421) == NodeInfos(fs)
    decreases |fs| - cursor
  {
    if cursor == |fs| {
      assert fs[..cursor] == fs;
    } else {
      NodesOfRest(fs, cursor + 1);
      var upTo := fs[..cursor + 1];
      assert Front(upTo) == fs[..cursor] && Last(upTo) == fs[cursor];
      var one := if fs[cursor].variant == NodeInfo then [fs[cursor].bytes] else [];
      assert NodeInfos(upTo) == NodeInfos(fs[..cursor]) + one;
      assert SegmentFrom(fs, cursor, 69421) == one + SegmentFrom(fs, cursor + 1, 69421);
    }
  }

  /** 69420 is answered with everything else and the first node_info, in order. */
  lemma {:induction false} OnlyConfigGetsTheRest(fs: seq<Frame>)
    ensures Segment(fs, 69420) == ConfigPart(fs)
  {
    ConfigOfRest(fs, 0);
    assert fs[..0] == [];
  }

  lemma {:induction false} ConfigOfRest(fs: seq<Frame>, cursor: nat)
    requires cursor <= |fs|
    ensures ConfigPart(fs[..cursor]) + SegmentFrom(fs, cursor, 69420) == ConfigPart(fs)
    decreases |fs| - cursor
  {
    if cursor == |fs| {
      assert fs[..cursor] == fs;
    } else {
      ConfigOfRest(fs, cursor + 1);
      var upTo := fs[..cursor + 1];
      assert Front(upTo) == fs[..cursor] && Last(upTo) == fs[cursor];
      NoNodeInfos(fs[..cursor]);
      assert forall i :: 0 <= i < cursor ==> fs[..cursor][i] == fs[i];
      var one := if InSegment(fs, cursor, 69420) then [fs[cursor].bytes] else [];
      assert ConfigPart(upTo) == ConfigPart(fs[..cursor]) + one;
      assert SegmentFrom(fs, cursor, 69420) == one + SegmentFrom(fs, cursor + 1, 69420);
    }
  }

  /** The cursor's test selects for every nonce what is promised. */
  lemma {:induction false} SegmentIsSelected(fs: seq<Frame>, nonce: UInt32)
    ensures Segment(fs, nonce) == Selected(fs, nonce)
  {
    if nonce == 69420 {
      OnlyConfigGetsTheRest(fs);
    } else if nonce == 69421 {
      OnlyNodesGetsTheNodeInfos(fs);
    } else {
      OrdinaryNonceGetsEverything(fs, nonce);
    }
  }

  /** Every frame of a segment is a stored frame that is no terminator. */
  lemma {:induction false} SegmentServesNoTerminator(fs: seq<Frame>, cursor: nat, nonce: UInt32)
    requires cursor <= |fs|
    ensures forall b :: b in SegmentFrom(fs, cursor, nonce) ==>
              exists i :: 0 <= i < |fs| && fs[i].bytes == b && fs[i].variant != ConfigComplete
    decreases |fs| - cursor
  {
    if cursor < |fs| {
      SegmentServesNoTerminator(fs, cursor + 1, nonce);
    }
  }

  /** The first stored node_info at or after cursor, when it is the own one. */
  function OwnFrom(fs: seq<Frame>, cursor: nat): multiset<Bytes>
    requires cursor <= |fs|
    decreases |fs| - cursor
  {
    if cursor == |fs| then multiset{}
    else if IsOwnNodeInfo(fs, cursor) then multiset{fs[cursor].bytes}
    else OwnFrom(fs, cursor + 1)
  }

  lemma {:induction false} NoOwnAfter(fs: seq<Frame>, i: nat, cursor: nat)
    requires i < cursor <= |fs| && fs[i].variant == NodeInfo
    ensures OwnFrom(fs, cursor) == multiset{}
    decreases |fs| - cursor
  {
    if cursor < |fs| {
      NoOwnAfter(fs, i, cursor + 1);
    }
  }

  /**
   The two special rounds together cover the full replay, with one extra copy of the own node_info
   and nothing else.
   */
  lemma {:induction false} TwoRoundCoverage(fs: seq<Frame>, nonce: UInt32)
    requires nonce != MESH_NONCE_ONLY_CONFIG && nonce != MESH_NONCE_ONLY_NODES
    ensures multiset(Segment(fs, MESH_NONCE_ONLY_CONFIG)) + multiset(Segment(fs, MESH_NONCE_ONLY_NODES))
            == multiset(Segment(fs, nonce)) + OwnFrom(fs, 0)
    ensures forall i :: IsOwnNodeInfo(fs, i) ==> OwnFrom(fs, 0) == multiset{fs[i].bytes}
    ensures (forall i :: 0 <= i < |fs| ==> fs[i].variant != NodeInfo) ==> OwnFrom(fs, 0) == multiset{}
  {
    TwoRoundCoverageFrom(fs, 0, nonce);
    forall i | IsOwnNodeInfo(fs, i) ensures OwnFrom(fs, 0) == multiset{fs[i].bytes} {
      OwnFound(fs, 0, i);
    }
    if forall i :: 0 <= i < |fs| ==> fs[i].variant != NodeInfo {
      OwnMissing(fs, 0);
    }
  }

  lemma {:induction false} OwnFound(fs: seq<Frame>, cursor: nat, i: nat)
    requires IsOwnNodeInfo(fs, i) && cursor <= i
    ensures OwnFrom(fs, cursor) == multiset{fs[i].bytes}
    decreases i - cursor
  {
    if cursor < i {
      OwnFound(fs, cursor + 1, i);
    }
  }

  lemma {:induction false} OwnMissing(fs: seq<Frame>, cursor: nat)
    requires cursor <= |fs| && forall i :: 0 <= i < |fs| ==> fs[i].variant != NodeInfo
    ensures OwnFrom(fs, cursor) == multiset{}
    decreases |fs| - cursor
  {
    if cursor < |fs| {
      OwnMissing(fs, cursor + 1);
    }
  }

  lemma {:induction false} TwoRoundCoverageFrom(fs: seq<Frame>, cursor: nat, nonce: UInt32)
    requires cursor <= |fs|
    requires nonce != MESH_NONCE_ONLY_CONFIG && nonce != MESH_NONCE_ONLY_NODES
    ensures multiset(SegmentFrom(fs, cursor, MESH_NONCE_ONLY_CONFIG))
            + multiset(SegmentFrom(fs, cursor, MESH_NONCE_ONLY_NODES))
            == multiset(SegmentFrom(fs, cursor, nonce)) + OwnFrom(fs, cursor)
    decreases |fs| - cursor
  {
    hide SegmentFrom, OwnFrom, Head;
    if cursor == |fs| {
      NothingLeft(fs, nonce);
    } else {
      TwoRoundCoverageFrom(fs, cursor + 1, nonce);
      SegmentSplit(fs, cursor, MESH_NONCE_ONLY_CONFIG);
      SegmentSplit(fs, cursor, MESH_NONCE_ONLY_NODES);
      SegmentSplit(fs, cursor, nonce);
      OneFrameCoverage(fs, cursor, nonce);
      Regroup(Head(fs, cursor, MESH_NONCE_ONLY_CONFIG), multiset(SegmentFrom(fs, cursor + 1, MESH_NONCE_ONLY_CONFIG)),
              Head(fs, cursor, MESH_NONCE_ONLY_NODES), multiset(SegmentFrom(fs, cursor + 1, MESH_NONCE_ONLY_NODES)),
              Head(fs, cursor, nonce), multiset(SegmentFrom(fs, cursor + 1, nonce)),
              OwnFrom(fs, cursor + 1), OwnFrom(fs, cursor));
    }
  }

  lemma {:induction false} NothingLeft(fs: seq<Frame>, nonce: UInt32)
    ensures multiset(SegmentFrom(fs, |fs|, MESH_NONCE_ONLY_CONFIG))
            + multiset(SegmentFrom(fs, |fs|, MESH_NONCE_ONLY_NODES))
            == multiset(SegmentFrom(fs, |fs|, nonce)) + OwnFrom(fs, |fs|)
  {
  }

  lemma Regroup<T>(ha: multiset<T>, a: multiset<T>, hb: multiset<T>, b: multiset<T>, hc: multiset<T>, c: multiset<T>,
                   o: multiset<T>, o': multiset<T>)
    requires a + b == c + o && ha + hb + o == hc + o'
    ensures (ha + a) + (hb + b) == (hc + c) + o'
  {
    assert (ha + a) + (hb + b) == (ha + hb) + (a + b);
    assert (ha + hb) + (c + o) == (ha + hb + o) + c;
    assert (hc + o') + c == (hc + c) + o';
  }

  function Head(fs: seq<Frame>, cursor: nat, nonce: UInt32): multiset<Bytes>
    requires cursor < |fs|
  {
    if InSegment(fs, cursor, nonce) then multiset{fs[cursor].bytes} else multiset{}
  }

  lemma SegmentSplit(fs: seq<Frame>, cursor: nat, nonce: UInt32)
    requires cursor < |fs|
    ensures multiset(SegmentFrom(fs, cursor, nonce))
            == Head(fs, cursor, nonce) + multiset(SegmentFrom(fs, cursor + 1, nonce))
  {
  }

  lemma OneFrameCoverage(fs: seq<Frame>, cursor: nat, nonce: UInt32)
    requires cursor < |fs|
    requires nonce != MESH_NONCE_ONLY_CONFIG && nonce != MESH_NONCE_ONLY_NODES
    ensures Head(fs, cursor, MESH_NONCE_ONLY_CONFIG) + Head(fs, cursor, MESH_NONCE_ONLY_NODES)
            + OwnFrom(fs, cursor + 1)
            == Head(fs, cursor, nonce) + OwnFrom(fs, cursor)
  {
    if IsOwnNodeInfo(fs, cursor) {
      NoOwnAfter(fs, cursor, cursor + 1);
    }
  }
}
