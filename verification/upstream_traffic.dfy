/** What reaches the node, and the proxy's own keepalive. */
module UpstreamTraffic {
  import opened Base
  import opened Codec
  import opened Framing
  import opened TxModel
  import opened ProxyModel
  import opened Routing
  import opened Invariants

  // -------------------------------------------------------------- isolation

  predicate OwnConfigRequest(pb: Codec, es: seq<Event>, p: Bytes) {
    exists i :: 0 <= i < |es| && es[i].StartSession? && p == pb.encodeWantConfig(BootNonce(es[i].rand))
  }

  predicate OwnHeartbeat(pb: Codec, es: seq<Event>, p: Bytes) {
    exists i :: 0 <= i < |es| && es[i].KeepaliveFires?
                && p == pb.encodeHeartbeat(KeepaliveNonce(KeepalivesFired(es[..i])))
  }

  /** A phone's write that decodes as neither a config request nor a heartbeat, or does not decode. */
  predicate ForwardedWrite(pb: Codec, es: seq<Event>, p: Bytes) {
    && (pb.decodeToRadio(p).None? || pb.decodeToRadio(p).value.OtherToRadio?)
    && exists i :: 0 <= i < |es| && es[i].WriteToRadio? && es[i].data == p && es[i].offset == 0
  }

  predicate MayReachNode(pb: Codec, es: seq<Event>, p: Bytes) {
    OwnConfigRequest(pb, es, p) || OwnHeartbeat(pb, es, p) || ForwardedWrite(pb, es, p)
  }

  lemma MayReachNodeMonotone(pb: Codec, es: seq<Event>, e: Event, p: Bytes)
    requires MayReachNode(pb, es, p)
    ensures MayReachNode(pb, es + [e], p)
  {
    var es' := es + [e];
    if OwnConfigRequest(pb, es, p) {
      var i :| 0 <= i < |es| && es[i].StartSession? && p == pb.encodeWantConfig(BootNonce(es[i].rand));
      assert es'[i] == es[i];
    } else if OwnHeartbeat(pb, es, p) {
      var i :| 0 <= i < |es| && es[i].KeepaliveFires?
               && p == pb.encodeHeartbeat(KeepaliveNonce(KeepalivesFired(es[..i])));
      assert es'[i] == es[i] && es'[..i] == es[..i];
    } else {
      var i :| 0 <= i < |es| && es[i].WriteToRadio? && es[i].data == p && es[i].offset == 0;
      assert es'[i] == es[i];
    }
  }

  lemma SentByLastStep(pb: Codec, s: Proxy, es: seq<Event>, p: Bytes)
    requires es != []
    requires s.up.keepaliveNonce == KeepaliveNonce(KeepalivesFired(Front(es)))
    requires Sends(pb, s, Last(es)) == Some(p)
    ensures MayReachNode(pb, es, p)
  {
    var i := |es| - 1;
    assert es[..i] == Front(es) && es[i] == Last(es);
    match Last(es)
    case StartSession(_) => assert OwnConfigRequest(pb, es, p);
    case KeepaliveFires => assert OwnHeartbeat(pb, es, p);
    case WriteToRadio(_, _, _) => assert ForwardedWrite(pb, es, p);
  }

  /**
   Isolation: over every run from boot, everything accepted for the node is the proxy's own config
   request, one of its keepalives, or a phone's write that is neither a config request nor a heartbeat.
   */
  lemma {:induction false} OnlyAllowedTrafficIsAccepted(pb: Codec, es: seq<Event>)
    requires Legal(pb, INITIAL, es)
    ensures forall k :: 0 <= k < |Run(pb, INITIAL, es).tx.accepted| ==>
              MayReachNode(pb, es, Run(pb, INITIAL, es).tx.accepted[k])
  {
    hide Step, MayReachNode, KeepaliveNonce, PutRc;
    if es != [] {
      OnlyAllowedTrafficIsAccepted(pb, Front(es));
      NthKeepaliveNonce(pb, Front(es));
      var before, after := Run(pb, INITIAL, Front(es)), Run(pb, INITIAL, es);
      StepTx(pb, before, Last(es));
      assert Front(es) + [Last(es)] == es;
      forall k | 0 <= k < |after.tx.accepted| ensures MayReachNode(pb, es, after.tx.accepted[k]) {
        if k < |before.tx.accepted| {
          assert after.tx.accepted[k] == before.tx.accepted[k];
          MayReachNodeMonotone(pb, Front(es), Last(es), before.tx.accepted[k]);
        } else {
          SentByLastStep(pb, before, es, after.tx.accepted[k]);
        }
      }
    }
  }

  /**
   What is passed to uart_tx and decodes as a config request is the proxy's own, and so is what decodes as
   a heartbeat.
   */
  lemma {:induction false} NoPhoneConfigRequestReachesNode(pb: Codec, es: seq<Event>, k: nat)
    requires Legal(pb, INITIAL, es) && k < |Run(pb, INITIAL, es).tx.calls|
    ensures var p := Run(pb, INITIAL, es).tx.calls[k].entry;
            match pb.decodeToRadio(p)
            case Some(WantConfig(_)) => OwnConfigRequest(pb, es, p)
            case Some(Heartbeat) => OwnHeartbeat(pb, es, p)
            case _ => ForwardedWrite(pb, es, p)
  {
    OnlyAllowedTrafficIsAccepted(pb, es);
    InitialInv(pb);
    RunKeepsInv(pb, INITIAL, es);
    var t := Run(pb, INITIAL, es).tx;
    EntryAt(t.calls, k);
    assert t.accepted[k] == t.calls[k].entry;
    hide Run, Legal, OwnHeartbeat;
    OwnTrafficDecodes(pb, es, t.accepted[k]);
  }

  lemma {:induction false} OwnTrafficDecodes(pb: Codec, es: seq<Event>, p: Bytes)
    ensures OwnConfigRequest(pb, es, p) ==> pb.decodeToRadio(p).Some? && pb.decodeToRadio(p).value.WantConfig?
    ensures OwnHeartbeat(pb, es, p) ==> pb.decodeToRadio(p) == Some(Heartbeat)
  {
  }

  // ------------------------------------------------ one session with the node

  predicate IsConfigRequest(pb: Codec, p: Bytes) {
    pb.decodeToRadio(p).Some? && pb.decodeToRadio(p).value.WantConfig?
  }

  function ConfigRequests(pb: Codec, ps: seq<Bytes>): seq<Bytes> {
    if ps == [] then []
    else ConfigRequests(pb, Front(ps)) + if IsConfigRequest(pb, Last(ps)) then [Last(ps)] else []
  }

  lemma {:induction false} OneMoreRequest(pb: Codec, ps: seq<Bytes>, p: Bytes)
    ensures ConfigRequests(pb, ps + [p]) == ConfigRequests(pb, ps) + if IsConfigRequest(pb, p) then [p] else []
  {
    assert Front(ps + [p]) == ps;
  }

  /** The step that starts the session is the only one that queues a config request. */
  lemma {:induction false} StepRequests(pb: Codec, s: Proxy, e: Event)
    requires SessionInv(s) && Enabled(s, e)
    ensures var s' := Step(pb, s, e);
            var starts := s.up.state == Boot && s'.up.state != Boot;
            && ConfigRequests(pb, s'.tx.accepted)
               == ConfigRequests(pb, s.tx.accepted) + (if starts then [pb.encodeWantConfig(s'.up.nonce)] else [])
            && (s.up.state != Boot ==> s'.up.state != Boot && s'.up.nonce == s.up.nonce)
  {
    hide RxStep, ConfigRequests, FateOf, PutRc;
    StepTx(pb, s, e);
    if Sends(pb, s, e).Some? {
      OneMoreRequest(pb, s.tx.accepted, Sends(pb, s, e).value);
    }
    if e.RxByte? && RxStep(s.rx, e.b).1.Some? {
      SingleFate(pb, s, RxStep(s.rx, e.b).1.value);
    }
  }

  /**
   The node has one client: whatever the phones write, of everything accepted for the node in any run
   exactly one packet is a config request, the proxy's own, and none before the session is started.
   */
  lemma {:induction false} NodeSeesOneConfigRequest(pb: Codec, es: seq<Event>)
    requires Legal(pb, INITIAL, es)
    ensures var t := Run(pb, INITIAL, es);
            ConfigRequests(pb, t.tx.accepted) == if t.up.state == Boot then [] else [pb.encodeWantConfig(t.up.nonce)]
  {
    hide Step, ConfigRequests;
    if es == [] {
      NoRequests(pb);
    } else {
      NodeSeesOneConfigRequest(pb, Front(es));
      InitialInv(pb);
      RunKeepsInv(pb, INITIAL, Front(es));
      StepRequests(pb, Run(pb, INITIAL, Front(es)), Last(es));
    }
  }

  lemma {:induction false} NoRequests(pb: Codec)
    ensures ConfigRequests(pb, []) == []
  {
  }

  lemma {:induction false} EntryAt(calls: seq<Call>, k: nat)
    requires k < |calls|
    ensures |Entries(calls)| == |calls| && Entries(calls)[k] == calls[k].entry
  {
    if |calls| > 1 {
      EntryAt(Front(calls), if k < |calls| - 1 then k else 0);
    }
  }

  // -------------------------------------------------------------- keepalive

  function KeepalivesFired(es: seq<Event>): nat {
    if es == [] then 0 else KeepalivesFired(Front(es)) + if Last(es).KeepaliveFires? then 1 else 0
  }

  /** The nonce of the keepalive that fires after n others. */
  function KeepaliveNonce(n: nat): UInt32 {
    2 + n % 0xFFFF_FFFE
  }

  /** The n-th keepalive nonce, across every wrap of the counter; it is never 0 or 1. */
  lemma {:induction false} NthKeepaliveNonce(pb: Codec, es: seq<Event>)
    requires Legal(pb, INITIAL, es)
    ensures Run(pb, INITIAL, es).up.keepaliveNonce == KeepaliveNonce(KeepalivesFired(es)) >= 2
  {
    if es != [] {
      NthKeepaliveNonce(pb, Front(es));
      var before := Run(pb, INITIAL, Front(es));
      NextNonce(KeepalivesFired(Front(es)));
      KeepaliveNonceStep(pb, before, Last(es));
    }
  }

  lemma NextNonce(n: nat)
    ensures NextKeepaliveNonce(KeepaliveNonce(n)) == KeepaliveNonce(n + 1)
  {
    var m := UINT32_MODULUS - 2;
    if n % m == m - 1 {
      assert (n + 1) % m == 0;
    } else {
      assert (n + 1) % m == n % m + 1;
    }
  }

  lemma KeepaliveNonceStep(pb: Codec, s: Proxy, e: Event)
    requires Enabled(s, e)
    ensures Step(pb, s, e).up.keepaliveNonce
            == if e.KeepaliveFires? then NextKeepaliveNonce(s.up.keepaliveNonce) else s.up.keepaliveNonce
    ensures Step(pb, s, e).up.keepalivePending ==
            if e.KeepaliveFires? then PutRc(s.tx, pb.encodeHeartbeat(s.up.keepaliveNonce)) == Ok
            else s.up.keepalivePending && !Swallows(pb, s, e)
    ensures Swallows(pb, s, e) ==> s.up.keepalivePending
  {
    hide RxStep;
    if e.RxByte? && RxStep(s.rx, e.b).1.Some? {
      SingleFate(pb, s, RxStep(s.rx, e.b).1.value);
    }
  }

  /** The step drops a queueStatus of the node as the reply to a keepalive. */
  predicate Swallows(pb: Codec, s: Proxy, e: Event) {
    e.RxByte? && RxStep(s.rx, e.b).1.Some? && FateOf(pb, SharedOf(s), RxStep(s.rx, e.b).1.value) == Swallowed
  }

  function SwallowCount(pb: Codec, s: Proxy, es: seq<Event>): nat
    requires Legal(pb, s, es)
  {
    if es == [] then 0
    else SwallowCount(pb, s, Front(es)) + if Swallows(pb, Run(pb, s, Front(es)), Last(es)) then 1 else 0
  }

  /** The keepalives of a run that were accepted for transmission. */
  function KeepalivesQueued(pb: Codec, s: Proxy, es: seq<Event>): nat
    requires Legal(pb, s, es)
  {
    if es == [] then 0
    else
      var before := Run(pb, s, Front(es));
      KeepalivesQueued(pb, s, Front(es))
      + if Last(es).KeepaliveFires? && PutRc(before.tx, pb.encodeHeartbeat(before.up.keepaliveNonce)) == Ok
        then 1 else 0
  }

  /** A queueStatus of the node comes in outside the fetch. */
  predicate QueueStatusComes(pb: Codec, s: Proxy, e: Event) {
    && e.RxByte? && RxStep(s.rx, e.b).1.Some? && s.up.state != Fetching
    && pb.decodeFromRadio(RxStep(s.rx, e.b).1.value).Some?
    && pb.decodeFromRadio(RxStep(s.rx, e.b).1.value).value.variant == QueueStatus
  }

  /** The latest keepalive was queued, and no queueStatus has come in since. */
  predicate ReplyOutstanding(pb: Codec, s: Proxy, es: seq<Event>)
    requires Legal(pb, s, es)
  {
    es != []
    && var before := Run(pb, s, Front(es));
       if Last(es).KeepaliveFires? then |before.tx.queue| < 4
       else !QueueStatusComes(pb, before, Last(es)) && ReplyOutstanding(pb, s, Front(es))
  }

  lemma StepPending(pb: Codec, s: Proxy, e: Event)
    requires Enabled(s, e)
    ensures Step(pb, s, e).up.keepalivePending
            == if e.KeepaliveFires? then |s.tx.queue| < 4 else s.up.keepalivePending && !QueueStatusComes(pb, s, e)
  {
    hide RxStep;
    if e.RxByte? && RxStep(s.rx, e.b).1.Some? {
      SingleFate(pb, s, RxStep(s.rx, e.b).1.value);
    }
  }

  /**
   In every run a queueStatus that comes in outside the fetch is kept from the phones if and only if it is
   the first one since a keepalive that was queued; any other goes to all of them.
   */
  lemma {:induction false} SwallowedIffOutstanding(pb: Codec, es: seq<Event>, payload: Bytes)
    requires Legal(pb, INITIAL, es)
    ensures var s := Run(pb, INITIAL, es);
            var fate := FateOf(pb, SharedOf(s), payload);
            && (s.up.keepalivePending <==> ReplyOutstanding(pb, INITIAL, es))
            && (pb.decodeFromRadio(payload).Some? && pb.decodeFromRadio(payload).value.variant == QueueStatus
                && s.up.state != Fetching
                ==> fate == if ReplyOutstanding(pb, INITIAL, es) then Swallowed else Everyone)
            && (fate == Swallowed ==>
                  && pb.decodeFromRadio(payload).Some? && s.up.state != Fetching
                  && pb.decodeFromRadio(payload).value.variant == QueueStatus)
  {
    hide Step, QueueStatusComes, Enabled;
    if es != [] {
      SwallowedIffOutstanding(pb, Front(es), payload);
      StepPending(pb, Run(pb, INITIAL, Front(es)), Last(es));
    }
  }

  /** The ledger: replies swallowed, plus the one still awaited, never exceed the keepalives queued. */
  lemma {:induction false} SwallowsNeverExceedKeepalives(pb: Codec, es: seq<Event>)
    requires Legal(pb, INITIAL, es)
    ensures SwallowCount(pb, INITIAL, es) + (if Run(pb, INITIAL, es).up.keepalivePending then 1 else 0)
            <= KeepalivesQueued(pb, INITIAL, es)
  {
    if es != [] {
      SwallowsNeverExceedKeepalives(pb, Front(es));
      KeepaliveNonceStep(pb, Run(pb, INITIAL, Front(es)), Last(es));
    }
  }

  // ------------------------------------------------------- to the node's end

  /** What a step has for the node: the request, the keepalive, or a write that is no request and no heartbeat. */
  function HasForNode(pb: Codec, s: Proxy, e: Event): Option<Bytes> {
    match e
    case StartSession(rand) => Some(pb.encodeWantConfig(if rand >= 2 then rand else 2))
    case KeepaliveFires => Some(pb.encodeHeartbeat(s.up.keepaliveNonce))
    case WriteToRadio(_, data, 0) =>
      (match pb.decodeToRadio(data)
       case Some(WantConfig(_)) => None
       case Some(Heartbeat) => None
       case _ => Some(data))
    case _ => None
  }

  /** All of that is queued, as long as it is of at most 512 bytes and fewer than four packets are waiting. */
  function QueuedNow(pb: Codec, s: Proxy, e: Event): seq<Bytes> {
    var p := HasForNode(pb, s, e);
    if p.Some? && |p.value| <= 512 && |s.tx.queue| < 4 then [p.value] else []
  }

  function QueuedForNode(pb: Codec, s: Proxy, es: seq<Event>): seq<Bytes>
    requires Legal(pb, s, es)
  {
    if es == [] then [] else QueuedForNode(pb, s, Front(es)) + QueuedNow(pb, Run(pb, s, Front(es)), Last(es))
  }

  /** What a step adds to the packets accepted for the node. */
  lemma StepQueues(pb: Codec, s: Proxy, e: Event)
    requires Enabled(s, e)
    ensures Step(pb, s, e).tx.accepted == s.tx.accepted + QueuedNow(pb, s, e)
  {
    hide Step;
    StepTx(pb, s, e);
    if Sends(pb, s, e).Some? {
      PutAppendsOrRefuses(s.tx, Sends(pb, s, e).value);
    }
  }

  lemma {:induction false} AcceptedIsQueued(pb: Codec, s: Proxy, es: seq<Event>)
    requires Legal(pb, s, es)
    ensures Run(pb, s, es).tx.accepted == s.tx.accepted + QueuedForNode(pb, s, es)
  {
    hide Step, QueuedNow, Enabled;
    if es != [] {
      AcceptedIsQueued(pb, s, Front(es));
      StepQueues(pb, Run(pb, s, Front(es)), Last(es));
    }
  }

  /** Every call of uart_tx for a packet that is not empty was taken by the hardware. */
  predicate AllTaken(calls: seq<Call>) {
    forall i :: 0 <= i < |calls| ==> calls[i].ok || |calls[i].entry| == 0
  }

  lemma {:induction false} AllTakenIff(calls: seq<Call>)
    ensures |NonEmpty(HandedOver(calls))| <= |NonEmpty(Entries(calls))|
    ensures AllTaken(calls) ==> NonEmpty(HandedOver(calls)) == NonEmpty(Entries(calls))
    ensures AllTaken(calls) || |NonEmpty(HandedOver(calls))| < |NonEmpty(Entries(calls))|
  {
    if calls != [] {
      var front, last := Front(calls), Last(calls);
      AllTakenIff(front);
      LastTaken(calls);
      OneMoreNonEmpty(Entries(front), last.entry);
      OneMoreNonEmpty(HandedOver(front), last.entry);
      assert |last.entry| == 0 <==> last.entry == [];
      assert HandedOver(front) + [] == HandedOver(front);
      hide NonEmpty, AllTaken;
    }
  }

  lemma LastTaken(calls: seq<Call>)
    requires calls != []
    ensures AllTaken(calls) <==> AllTaken(Front(calls)) && (Last(calls).ok || |Last(calls).entry| == 0)
  {
    assert forall i :: 0 <= i < |Front(calls)| ==> Front(calls)[i] == calls[i];
  }

  /**
   From the phones to the node.  Once the driver is quiet, a parser at the node's end of the wire is idle
   and has delivered, in order, everything queued for the node that is not empty, and nothing else, if and
   only if the hardware took every such packet.
   */
  lemma {:induction false} NodeGetsEverythingIff(pb: Codec, es: seq<Event>)
    requires Legal(pb, INITIAL, es)
    requires forall d :: !Enabled(Run(pb, INITIAL, es), Driver(d))
    ensures var t := Run(pb, INITIAL, es).tx;
            && Feed(WaitMagic1, t.wire).0 == WaitMagic1
            && (Feed(WaitMagic1, t.wire).1 == NonEmpty(QueuedForNode(pb, INITIAL, es)) <==> AllTaken(t.calls))
  {
    InitialInv(pb);
    RunKeepsInv(pb, INITIAL, es);
    AcceptedIsQueued(pb, INITIAL, es);
    var t := Run(pb, INITIAL, es);
    assert [] + QueuedForNode(pb, INITIAL, es) == QueuedForNode(pb, INITIAL, es);
    forall d | TxEnabled(t.tx, d) ensures d.Put? {
      assert !Enabled(t, Driver(d));
    }
    NothingLeftToSend(t.tx);
    WireRoundTrip(HandedOver(t.tx.calls));
    AllTakenIff(t.tx.calls);
  }
}
