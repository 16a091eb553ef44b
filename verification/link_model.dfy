/**
 One phone's link as an ideal one-to-one device: an explicit list of frames still to be replayed, a
 bounded FIFO of live packets and the packet staged for long reads.  ProxyConn, with its cursor, circular
 buffer and shared arena, is proved to behave like this.
 */
module LinkModel {
  import opened Base
  import opened Codec
  import opened CacheModel

  datatype PhoneState = Connected | Pending | Replaying | Active

  datatype Link = Link(
    proxyId: Bytes,
    fromnum: UInt32,
    state: PhoneState,
    nonce: UInt32,
    replay: seq<Bytes>,         // what fresh reads still serve before the live queue
    queue: seq<Bytes>,
    staged: Bytes)

  /** A phone that has just connected. */
  const FRESH := Link(ZERO_ID, 0, Connected, 0, [], [], [])

  datatype LinkEvent =
    | Enqueue(p: Bytes)
    | Read(offset: nat, len: nat)
    | Arm(armNonce: UInt32, frames: seq<Frame>)
    | Park(parkNonce: UInt32)
    | Register(id: Bytes)

  datatype AttError = Unlikely | InvalidOffset | InvalidAttributeLength
  datatype ReadResult = Data(bytes: Bytes) | Failed(error: AttError)

  function EnqueueRc(l: Link, p: Bytes): Rc {
    if |p| > FROMRADIO_MAX_PKT_SIZE then EMsgSize
    else if |l.queue| >= FROMRADIO_QUEUE_DEPTH then ENoMem
    else Ok
  }

  /** A passed nonce of 0 means: the one stored when the phone was parked. */
  function EffectiveNonce(l: Link, nonce: UInt32): UInt32 {
    if nonce != 0 then nonce else l.nonce
  }

  function ReplayList(pb: Codec, frames: seq<Frame>, nonce: UInt32): seq<Bytes> {
    Segment(frames, nonce) + [pb.encodeConfigComplete(nonce)]
  }

  /** A read at offset 0: stage the next packet, or nothing. */
  function FreshRead(l: Link): Link {
    if l.state == Replaying then
      if l.replay != [] then l.(staged := l.replay[0], replay := l.replay[1..])
      else l.(staged := [], state := Active)
    else if l.queue != [] then l.(staged := l.queue[0], queue := l.queue[1..])
    else l.(staged := [])
  }

  function LinkStep(pb: Codec, l: Link, e: LinkEvent): Link {
    match e
    case Enqueue(p) =>
      if EnqueueRc(l, p) == Ok then l.(queue := l.queue + [p], fromnum := Increment(l.fromnum)) else l
    case Read(offset, _) => if offset == 0 then FreshRead(l) else l
    case Arm(nonce, frames) =>
      var n := EffectiveNonce(l, nonce);
      l.(nonce := n, replay := ReplayList(pb, frames, n), state := Replaying, fromnum := Increment(l.fromnum))
    case Park(nonce) => l.(nonce := nonce, replay := [], state := Pending)
    case Register(id) => l.(proxyId := id)
  }

  /** The part of a value an attribute read returns. */
  function AttRead(value: Bytes, offset: nat, len: nat): ReadResult {
    if value == [] then Data([])
    else if offset > |value| then Failed(InvalidOffset)
    else Data(value[offset..Min(offset + len, |value|)])
  }

  function Response(pb: Codec, l: Link, offset: nat, len: nat): ReadResult {
    AttRead(LinkStep(pb, l, Read(offset, len)).staged, offset, len)
  }

  predicate LinkInv(l: Link) {
    && |l.proxyId| == PROXY_ID_SIZE
    && (l.state != Replaying ==> l.replay == [])
    && |l.queue| <= FROMRADIO_QUEUE_DEPTH
    && (forall i :: 0 <= i < |l.queue| ==> 1 <= |l.queue[i]| <= FROMRADIO_MAX_PKT_SIZE)
    && (forall i :: 0 <= i < |l.replay| ==> 1 <= |l.replay[i]| <= FROMRADIO_MAX_PKT_SIZE)
    && |l.staged| <= FROMRADIO_MAX_PKT_SIZE
  }

  // -------------------------------------------------------------------- runs

  function LinkRun(pb: Codec, l: Link, es: seq<LinkEvent>): Link {
    if es == [] then l else LinkStep(pb, LinkRun(pb, l, Front(es)), Last(es))
  }

  predicate IsFreshRead(e: LinkEvent) {
    e.Read? && e.offset == 0
  }

  /** The packets staged by the fresh reads of a run. */
  function Served(pb: Codec, l: Link, es: seq<LinkEvent>): seq<Bytes> {
    if es == [] then []
    else Served(pb, l, Front(es)) + (if IsFreshRead(Last(es)) then [LinkRun(pb, l, es).staged] else [])
  }

  /** The packets a run accepted into the live queue. */
  function Accepted(pb: Codec, l: Link, es: seq<LinkEvent>): seq<Bytes> {
    if es == [] then []
    else
      var e := Last(es);
      Accepted(pb, l, Front(es))
      + (if e.Enqueue? && |e.p| <= 512 && |LinkRun(pb, l, Front(es)).queue| < 8 then [e.p] else [])
  }

  function Arms(es: seq<LinkEvent>): nat {
    if es == [] then 0 else Arms(Front(es)) + if Last(es).Arm? then 1 else 0
  }

  predicate NoEmptyPacket(ps: seq<Bytes>) {
    forall i :: 0 <= i < |ps| ==> |ps[i]| > 0
  }

  /** No config request of the phone starts or restarts a session. */
  predicate Undisturbed(es: seq<LinkEvent>) {
    forall i :: 0 <= i < |es| ==> !es[i].Arm? && !es[i].Park? && (es[i].Enqueue? ==> |es[i].p| > 0)
  }

  /** What fresh reads serve before the live queue: the replay list and one empty answer. */
  function Script(l: Link): seq<Bytes> {
    if l.state == Replaying then l.replay + [[]] else []
  }

  /** The packets a run took out of the live queue. */
  function Dequeued(pb: Codec, l: Link, es: seq<LinkEvent>): seq<Bytes> {
    if es == [] then []
    else
      var before := LinkRun(pb, l, Front(es));
      Dequeued(pb, l, Front(es))
      + (if IsFreshRead(Last(es)) && before.state != Replaying && before.queue != [] then [before.queue[0]] else [])
  }

  /** Up to eight packets of up to 512 bytes wait; an enqueue appends or changes nothing, and says which. */
  lemma EnqueueAppendsOrRefuses(pb: Codec, l: Link, p: Bytes)
    ensures LinkStep(pb, l, Enqueue(p)).queue == if |p| <= 512 && |l.queue| < 8 then l.queue + [p] else l.queue
    ensures !(|p| <= 512 && |l.queue| < 8) ==> LinkStep(pb, l, Enqueue(p)) == l
    ensures EnqueueRc(l, p) == if |p| > 512 then EMsgSize else if |l.queue| >= 8 then ENoMem else Ok
  {
  }

  /** Packets leave the live queue in the order they were accepted, whatever the phone's state. */
  lemma {:induction false} QueueIsFifo(pb: Codec, l: Link, es: seq<LinkEvent>)
    ensures Dequeued(pb, l, es) + LinkRun(pb, l, es).queue == l.queue + Accepted(pb, l, es)
  {
    if es != [] {
      QueueIsFifo(pb, l, Front(es));
      var before, after := LinkRun(pb, l, Front(es)), LinkRun(pb, l, es);
      var out, acc := Dequeued(pb, l, Front(es)), Accepted(pb, l, Front(es));
      if IsFreshRead(Last(es)) && before.state != Replaying && before.queue != [] {
        assert before.queue == [before.queue[0]] + after.queue;
        assert out + [before.queue[0]] + after.queue == out + before.queue;
        assert Accepted(pb, l, es) == acc;
      } else if Last(es).Enqueue? && |Last(es).p| <= 512 && |before.queue| < 8 {
        assert Dequeued(pb, l, es) == out;
        assert out + (before.queue + [Last(es).p]) == (out + before.queue) + [Last(es).p];
        assert l.queue + (acc + [Last(es).p]) == (l.queue + acc) + [Last(es).p];
      } else {
        assert Dequeued(pb, l, es) == out && Accepted(pb, l, es) == acc;
      }
    }
  }

  lemma OneMoreServed<T>(served: seq<T>, script: seq<T>, x: T)
    requires served[..Min(|served|, |script|)] == script[..Min(|served|, |script|)]
    requires |served| < |script| ==> x == script[|served|]
    ensures var k := Min(|served|, |script|); var k' := Min(|served| + 1, |script|);
            && (served + [x])[..k'] == script[..k']
            && script[k'..] == (if k < |script| then script[k..][1..] else script[k..])
            && (served + [x])[k'..] == (if k < |script| then [] else served[k..] + [x])
  {
  }

  lemma ScriptStep(pb: Codec, l: Link, e: LinkEvent)
    requires !e.Arm? && !e.Park?
    ensures var l' := LinkStep(pb, l, e);
            && Script(l') == (if IsFreshRead(e) && Script(l) != [] then Script(l)[1..] else Script(l))
            && (IsFreshRead(e) && Script(l) != [] ==> l'.staged == Script(l)[0])
            && (IsFreshRead(e) && Script(l) == [] ==> l'.staged == if l.queue != [] then l.queue[0] else [])
    ensures Script(l) == [] <==> l.state != Replaying
  {
  }

  lemma {:induction false} QueueHasNoEmptyPacket(pb: Codec, l: Link, es: seq<LinkEvent>)
    requires Undisturbed(es)
    requires NoEmptyPacket(l.queue)
    ensures NoEmptyPacket(LinkRun(pb, l, es).queue)
  {
    if es != [] {
      assert Last(es) == es[|es| - 1];
      QueueHasNoEmptyPacket(pb, l, Front(es));
    }
  }

  /**
   Whatever is interleaved, the first fresh reads serve the script in order, and the later ones serve
   what is taken out of the live queue (or nothing).
   */
  lemma {:induction false} ServesScriptThenQueue(pb: Codec, l: Link, es: seq<LinkEvent>)
    requires Undisturbed(es)
    requires NoEmptyPacket(l.queue)
    ensures var k := Min(|Served(pb, l, es)|, |Script(l)|);
            && Served(pb, l, es)[..k] == Script(l)[..k]
            && Script(LinkRun(pb, l, es)) == Script(l)[k..]
            && NonEmpty(Served(pb, l, es)[k..]) == Dequeued(pb, l, es)
  {
    if es != [] {
      var e := Last(es);
      assert e == es[|es| - 1];
      ServesScriptThenQueue(pb, l, Front(es));
      QueueHasNoEmptyPacket(pb, l, Front(es));
      var before, served := LinkRun(pb, l, Front(es)), Served(pb, l, Front(es));
      ScriptStep(pb, before, e);
      hide LinkStep, Script, Undisturbed;
      if IsFreshRead(e) {
        var x := LinkStep(pb, before, e).staged;
        OneMoreServed(served, Script(l), x);
        assert Served(pb, l, es) == served + [x];
        if |served| >= |Script(l)| {
          OneMoreNonEmpty(served[|Script(l)|..], x);
        }
      } else {
        assert Served(pb, l, es) == served;
      }
    }
  }

  /**
   Replay is exact: once armed, and whatever is interleaved, the fresh reads serve precisely the frames of
   the phone's segment in order, then its own terminator, then one empty answer that makes it Active.
   That takes two reads more than the segment has frames; until then the live queue only grows.
   */
  lemma {:induction false} ReplayIsExact(pb: Codec, l: Link, nonce: UInt32, frames: seq<Frame>, es: seq<LinkEvent>)
    requires Undisturbed(es)
    requires NoEmptyPacket(l.queue)
    ensures var n := EffectiveNonce(l, nonce);
            var script := Segment(frames, n) + [pb.encodeConfigComplete(n)] + [[]];
            var armed := LinkStep(pb, l, Arm(nonce, frames));
            var served := Served(pb, armed, es);
            var k := Min(|served|, |script|);
            var l' := LinkRun(pb, armed, es);
            && |script| == |Segment(frames, n)| + 2
            && served[..k] == script[..k]
            && (l'.state == Replaying <==> |served| < |script|)
            && (l'.state == Active <==> |served| >= |script|)
            && NonEmpty(served[k..]) + l'.queue == l.queue + Accepted(pb, armed, es)
            && (|served| < |script| ==> l'.queue == l.queue + Accepted(pb, armed, es))
  {
    var armed := LinkStep(pb, l, Arm(nonce, frames));
    ServesScriptThenQueue(pb, armed, es);
    QueueIsFifo(pb, armed, es);
    StateWithoutArms(pb, armed, es);
  }

  lemma {:induction false} StateWithoutArms(pb: Codec, l: Link, es: seq<LinkEvent>)
    requires Undisturbed(es) && (l.state == Replaying || l.state == Active)
    ensures LinkRun(pb, l, es).state == Replaying || LinkRun(pb, l, es).state == Active
  {
    if es != [] {
      StateWithoutArms(pb, l, Front(es));
      assert !es[|es| - 1].Park?;
    }
  }

  /** Outside a replay a fresh read is empty exactly when the live queue is. */
  lemma EmptyReadMeansEmptyQueue(pb: Codec, l: Link, len: nat)
    requires LinkInv(l) && len > 0
    ensures (Response(pb, l, 0, len) == Data([]))
            <==> if l.state == Replaying then l.replay == [] else l.queue == []
  {
    if l.state != Replaying && l.queue != [] {
      assert 1 <= |l.queue[0]|;
    }
    if l.state == Replaying && l.replay != [] {
      assert 1 <= |l.replay[0]|;
    }
  }

  /** A phone that asks with 5 and then with 0 is replayed to with the terminator of 5 again. */
  lemma {:induction false} ZeroRepeatsTheNonce(pb: Codec, frames: seq<Frame>)
    ensures var l := LinkRun(pb, FRESH, [Arm(5, frames), Arm(0, frames)]);
            && l.state == Replaying && l.replay == ReplayList(pb, frames, 5)
            && pb.decodeConfigComplete(Last(l.replay)) == Some(5)
  {
    var first, second := Arm(5, frames), Arm(0, frames);
    assert Front([first, second]) == [first] && Front([first]) == [];
    assert LinkRun(pb, FRESH, [first]).nonce == 5;
  }

  /** The read that ends a replay is empty even while a packet waits. */
  lemma {:induction false} EmptyReadWhileAPacketWaits(pb: Codec, nonce: UInt32, p: Bytes)
    requires 1 <= |p| <= FROMRADIO_MAX_PKT_SIZE
    ensures var l := LinkRun(pb, FRESH, [Arm(nonce, []), Read(0, FROMRADIO_MAX_PKT_SIZE), Enqueue(p)]);
            && LinkInv(l) && l.queue == [p]
            && Response(pb, l, 0, FROMRADIO_MAX_PKT_SIZE) == Data([])
            && LinkStep(pb, l, Read(0, FROMRADIO_MAX_PKT_SIZE)).queue == [p]
  {
    var arm, read, put := Arm(nonce, []), Read(0, FROMRADIO_MAX_PKT_SIZE), Enqueue(p);
    assert Front([arm, read, put]) == [arm, read] && Front([arm, read]) == [arm] && Front([arm]) == [];
    assert LinkRun(pb, FRESH, [arm]) == LinkStep(pb, FRESH, arm);
    var terminator := pb.encodeConfigComplete(EffectiveNonce(FRESH, nonce));
    assert LinkRun(pb, FRESH, [arm]).replay == [terminator];
    assert LinkRun(pb, FRESH, [arm, read]).staged == terminator;
  }

  /** FROMNUM counts accepted packets and replay kicks, modulo 2^32. */
  lemma {:induction false} FromnumCounts(pb: Codec, l: Link, es: seq<LinkEvent>)
    ensures LinkRun(pb, l, es).fromnum == (l.fromnum + |Accepted(pb, l, es)| + Arms(es)) % 0x1_0000_0000
  {
    if es != [] {
      FromnumCounts(pb, l, Front(es));
      var before, after := LinkRun(pb, l, Front(es)), LinkRun(pb, l, es);
      var n, n' := |Accepted(pb, l, Front(es))| + Arms(Front(es)), |Accepted(pb, l, es)| + Arms(es);
      IncrementCounts(l.fromnum + n);
      if n' == n {
        assert after.fromnum == before.fromnum;
      } else {
        assert after.fromnum == Increment(before.fromnum);
      }
    }
  }

  lemma IncrementCounts(n: nat)
    ensures Increment(n % UINT32_MODULUS) == (n + 1) % UINT32_MODULUS
  {
  }

  lemma {:induction false} LinkStepKeepsInv(pb: Codec, l: Link, e: LinkEvent)
    requires LinkInv(l)
    requires e.Enqueue? ==> e.p != []
    requires e.Register? ==> |e.id| == PROXY_ID_SIZE
    requires e.Arm? ==> forall i :: 0 <= i < |e.frames| ==> 1 <= |e.frames[i].bytes| <= FROMRADIO_MAX_PKT_SIZE
    ensures LinkInv(LinkStep(pb, l, e))
  {
    if e.Arm? {
      var n := EffectiveNonce(l, e.armNonce);
      SegmentServesNoTerminator(e.frames, 0, n);
      forall i | 0 <= i < |Segment(e.frames, n)|
        ensures 1 <= |Segment(e.frames, n)[i]| <= FROMRADIO_MAX_PKT_SIZE
      {
        assert Segment(e.frames, n)[i] in Segment(e.frames, n);
      }
    }
  }

  // -------------------------------------------------------------- long reads

  /** A read past the end of what is staged is an error; at the end it is empty. */
  lemma ReadsPastTheEndFail(pb: Codec, l: Link, offset: nat, len: nat)
    requires offset > 0
    ensures Response(pb, l, offset, len) == Failed(InvalidOffset) <==> l.staged != [] && offset > |l.staged|
    ensures offset == |l.staged| ==> Response(pb, l, offset, len) == Data([])
  {
  }

  /** A continued read: what happens to the link in between, and the room in the answer. */
  datatype Chunk = Chunk(between: seq<LinkEvent>, len: nat)

  predicate NoFreshRead(es: seq<LinkEvent>) {
    forall i :: 0 <= i < |es| ==> !IsFreshRead(es[i])
  }

  lemma {:induction false} StagedIsStable(pb: Codec, l: Link, es: seq<LinkEvent>)
    requires NoFreshRead(es)
    ensures LinkRun(pb, l, es).staged == l.staged
  {
    if es != [] {
      StagedIsStable(pb, l, Front(es));
      assert !IsFreshRead(es[|es| - 1]);
    }
  }

  /** What a client collects by reading on from offset, each time by as much as it got. */
  function ReadOn(pb: Codec, l: Link, offset: nat, chunks: seq<Chunk>): Bytes
    decreases |chunks|
  {
    if chunks == [] then []
    else
      var l' := LinkRun(pb, l, chunks[0].between);
      match Response(pb, l', offset, chunks[0].len)
      case Failed(_) => []
      case Data(part) =>
        part + ReadOn(pb, LinkStep(pb, l', Read(offset, chunks[0].len)), offset + |part|, chunks[1..])
  }

  function Room(chunks: seq<Chunk>): nat {
    if chunks == [] then 0 else chunks[0].len + Room(chunks[1..])
  }

  lemma {:induction false} ReadOnCollects(pb: Codec, l: Link, offset: nat, chunks: seq<Chunk>)
    requires 0 < offset <= |l.staged|
    requires forall i :: 0 <= i < |chunks| ==> NoFreshRead(chunks[i].between)
    ensures ReadOn(pb, l, offset, chunks) == l.staged[offset..Min(offset + Room(chunks), |l.staged|)]
    decreases |chunks|
  {
    hide LinkStep, LinkRun, Response, NoFreshRead;
    if chunks != [] {
      var l' := LinkRun(pb, l, chunks[0].between);
      StagedIsStable(pb, l, chunks[0].between);
      ReadContinues(pb, l', offset, chunks[0].len);
      var mid := Min(offset + chunks[0].len, |l.staged|);
      ReadOnCollects(pb, l', mid, chunks[1..]);
      SlicesMeet(l.staged, offset, mid, Min(mid + Room(chunks[1..]), |l.staged|));
    }
  }

  lemma ReadContinues(pb: Codec, l: Link, offset: nat, len: nat)
    requires 0 < offset <= |l.staged|
    ensures LinkStep(pb, l, Read(offset, len)) == l
    ensures Response(pb, l, offset, len) == Data(l.staged[offset..Min(offset + len, |l.staged|)])
  {
  }

  lemma SlicesMeet<T>(s: seq<T>, a: nat, b: nat, c: nat)
    requires a <= b <= c <= |s|
    ensures s[a..b] + s[b..c] == s[a..c]
  {
  }

  /**
   Long reads (Bluetooth Core Specification Vol 3 Part F section 3.4.4.5): a fresh read and the reads
   continuing it, of any sizes, collect exactly the packet the fresh read staged, whatever else happens
   to the link in between.
   */
  lemma {:induction false} LongReadReassembles(pb: Codec, l: Link, len: nat, chunks: seq<Chunk>)
    requires len > 0
    requires forall i :: 0 <= i < |chunks| ==> NoFreshRead(chunks[i].between)
    ensures var packet := FreshRead(l).staged;
            var first := Response(pb, l, 0, len);
            && first.Data?
            && (packet == [] <==> first.bytes == [])
            && (packet != [] ==>
                  first.bytes + ReadOn(pb, FreshRead(l), |first.bytes|, chunks)
                  == packet[..Min(len + Room(chunks), |packet|)])
  {
    var packet := FreshRead(l).staged;
    if packet != [] {
      var mid := Min(len, |packet|);
      ReadOnCollects(pb, FreshRead(l), mid, chunks);
      SlicesMeet(packet, 0, mid, Min(mid + Room(chunks), |packet|));
      hide ReadOn, NoFreshRead, FreshRead, Room;
    }
  }
}
