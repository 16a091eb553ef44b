/** When the keepalive fires, and how long the link to the node can stay silent. */
module KeepaliveTimer {
  import opened Base
  import opened Codec
  import opened Framing
  import opened TxModel
  import opened ProxyModel
  import opened Routing
  import opened Invariants

  // ----------------------------------------------------- the timer's interval

  /** The steps that give the keepalive its full interval again. */
  predicate Restarts(pb: Codec, s: Proxy, e: Event) {
    match e
    case StartSession(rand) => PutRc(s.tx, pb.encodeWantConfig(BootNonce(rand))) == Ok
    case KeepaliveFires => true
    case WriteToRadio(_, data, offset) =>
      && offset == 0 && pb.decodeToRadio(data) == Some(OtherToRadio)
      && PutRc(s.tx, data) == Ok && s.up.keepaliveArmed
    case _ => false
  }

  function Elapsed(e: Event): nat {
    if e.TimePasses? then e.ms else 0
  }

  /** The milliseconds that passed since the latest such step. */
  function SinceRestart(pb: Codec, s: Proxy, es: seq<Event>): nat
    requires Legal(pb, s, es)
  {
    if es == [] || Restarts(pb, Run(pb, s, Front(es)), Last(es)) then 0
    else SinceRestart(pb, s, Front(es)) + Elapsed(Last(es))
  }

  lemma StepTimer(pb: Codec, s: Proxy, e: Event)
    requires SessionInv(s) && Enabled(s, e)
    ensures var up, up' := s.up, Step(pb, s, e).up;
            && (up'.keepaliveArmed <==> up.keepaliveArmed || (e.StartSession? && Restarts(pb, s, e)))
            && (up'.keepaliveArmed ==>
                  up'.dueIn == if Restarts(pb, s, e) then KEEPALIVE_MS
                               else if e.TimePasses? then up.dueIn - Min(e.ms, up.dueIn) else up.dueIn)
  {
    hide RxStep;
    if e.RxByte? && RxStep(s.rx, e.b).1.Some? {
      SingleFate(pb, s, RxStep(s.rx, e.b).1.value);
    }
  }

  /**
   In every run a keepalive may fire exactly when the session was started and the full interval has passed
   since a phone's packet that decodes was last queued, the last keepalive, queued or refused, or the start.
   */
  lemma {:induction false} KeepaliveFiresWhenDue(pb: Codec, es: seq<Event>)
    requires Legal(pb, INITIAL, es)
    ensures var t, since := Run(pb, INITIAL, es), SinceRestart(pb, INITIAL, es);
            && (Enabled(t, KeepaliveFires) <==> t.up.state != Boot && since >= 300_000)
            && (t.up.state != Boot ==> t.up.dueIn == KEEPALIVE_MS - Min(since, KEEPALIVE_MS))
  {
    hide Step, Restarts, LinkAgrees;
    InitialInv(pb);
    RunKeepsInv(pb, INITIAL, es);
    if es != [] {
      KeepaliveFiresWhenDue(pb, Front(es));
      RunKeepsInv(pb, INITIAL, Front(es));
      StepTimer(pb, Run(pb, INITIAL, Front(es)), Last(es));
    }
  }

  /** The timer is served on time: no time passes beyond the moment a keepalive is due. */
  predicate OnTime(pb: Codec, s: Proxy, es: seq<Event>)
    requires Legal(pb, s, es)
  {
    es == []
    || (OnTime(pb, s, Front(es))
        && var before := Run(pb, s, Front(es)).up;
           Last(es).TimePasses? && before.keepaliveArmed ==> Last(es).ms <= before.dueIn)
  }

  /** With a punctual timer the interval is never exceeded. */
  lemma {:induction false} KeepaliveIsNeverOverdue(pb: Codec, es: seq<Event>)
    requires Legal(pb, INITIAL, es) && OnTime(pb, INITIAL, es) && Run(pb, INITIAL, es).up.state != Boot
    ensures SinceRestart(pb, INITIAL, es) <= KEEPALIVE_MS
  {
    hide Step, LinkAgrees;
    InitialInv(pb);
    RunKeepsInv(pb, INITIAL, es);
    RunKeepsInv(pb, INITIAL, Front(es));
    var before := Run(pb, INITIAL, Front(es));
    StepTimer(pb, before, Last(es));
    if before.up.state != Boot {
      KeepaliveIsNeverOverdue(pb, Front(es));
      KeepaliveFiresWhenDue(pb, Front(es));
    }
  }

  // ------------------------------------------------------------ true silence

  /** The step queues a write that does not decode. */
  predicate QueuesUndecodable(pb: Codec, s: Proxy, e: Event) {
    Queues(pb, s, e) && e.WriteToRadio? && pb.decodeToRadio(e.data).None?
  }

  /** The milliseconds since anything was queued for the node. */
  function Quiet(pb: Codec, s: Proxy, es: seq<Event>): nat
    requires Legal(pb, s, es)
  {
    if es == [] || Queues(pb, Run(pb, s, Front(es)), Last(es)) then 0
    else Quiet(pb, s, Front(es)) + Elapsed(Last(es))
  }

  function Later(since: Option<nat>, e: Event): Option<nat> {
    if since.Some? then Some(since.value + Elapsed(e)) else None
  }

  /** The milliseconds since a write that does not decode was queued, if one was since the session was started. */
  function SinceUndecodable(pb: Codec, s: Proxy, es: seq<Event>): Option<nat>
    requires Legal(pb, s, es)
  {
    if es == [] then None
    else
      var before := Run(pb, s, Front(es));
      if QueuesUndecodable(pb, before, Last(es)) then Some(0)
      else if Last(es).StartSession? && Queues(pb, before, Last(es)) then None
      else Later(SinceUndecodable(pb, s, Front(es)), Last(es))
  }

  /** Which of the two intervals a step starts again. */
  lemma RestartsOrUndecodable(pb: Codec, s: Proxy, e: Event)
    requires SessionInv(s) && Enabled(s, e) && (s.up.state != Boot || e.StartSession?)
    ensures Queues(pb, s, e) ==> Restarts(pb, s, e) || QueuesUndecodable(pb, s, e)
    ensures QueuesUndecodable(pb, s, e) ==> !Restarts(pb, s, e)
    ensures e.StartSession? ==> (Queues(pb, s, e) <==> Restarts(pb, s, e))
    ensures Restarts(pb, s, e) && !Queues(pb, s, e) ==> e.KeepaliveFires?
    ensures e.TimePasses? ==> !Queues(pb, s, e) && !Restarts(pb, s, e)
  {
  }

  lemma {:induction false} QuietBetween(pb: Codec, es: seq<Event>)
    requires Legal(pb, INITIAL, es) && Run(pb, INITIAL, es).up.state != Boot
    ensures var quiet, since := Quiet(pb, INITIAL, es), SinceUndecodable(pb, INITIAL, es);
            && (quiet >= SinceRestart(pb, INITIAL, es) || (since.Some? && quiet >= since.value))
            && (since.Some? ==> quiet <= since.value)
  {
    var before, e := Run(pb, INITIAL, Front(es)), Last(es);
    InitialInv(pb);
    RunKeepsInv(pb, INITIAL, es);
    RunKeepsInv(pb, INITIAL, Front(es));
    StepTimer(pb, before, e);
    hide Step, Restarts, Queues, QueuesUndecodable, LinkAgrees, Enabled;
    if before.up.state == Boot {
      StartedBy(pb, before, e);
    } else {
      QuietBetween(pb, Front(es));
    }
    RestartsOrUndecodable(pb, before, e);
  }

  lemma StartedBy(pb: Codec, s: Proxy, e: Event)
    requires SessionInv(s) && Enabled(s, e) && s.up.state == Boot && Step(pb, s, e).up.state != Boot
    ensures e.StartSession? && Queues(pb, s, e)
  {
    hide RxStep;
    if e.RxByte? && RxStep(s.rx, e.b).1.Some? {
      SingleFate(pb, s, RxStep(s.rx, e.b).1.value);
    }
  }

  /**
   A keepalive that is about to fire follows true silence, nothing queued for the node for the whole
   interval, if and only if no write that does not decode was queued within it.
   */
  lemma {:induction false} FiresAfterTrueSilenceIff(pb: Codec, es: seq<Event>)
    requires Legal(pb, INITIAL, es) && Enabled(Run(pb, INITIAL, es), KeepaliveFires)
    ensures var since := SinceUndecodable(pb, INITIAL, es);
            Quiet(pb, INITIAL, es) >= KEEPALIVE_MS <==> (since.Some? ==> since.value >= KEEPALIVE_MS)
  {
    KeepaliveFiresWhenDue(pb, es);
    QuietBetween(pb, es);
  }

  /** A run in which a keepalive is due one millisecond after a phone's write went to the node. */
  lemma {:induction false} FiresAfterRecentTraffic(pb: Codec, rand: UInt32, c: Conn, data: Bytes)
    requires |data| <= MAX_PAYLOAD && pb.decodeToRadio(data) == None
    ensures var es := [StartSession(rand), TimePasses(KEEPALIVE_MS - 1), WriteToRadio(c, data, 0), TimePasses(1)];
            && Legal(pb, INITIAL, es)
            && Enabled(Run(pb, INITIAL, es), KeepaliveFires)
            && Run(pb, INITIAL, es).tx.accepted == [pb.encodeWantConfig(BootNonce(rand)), data]
            && Quiet(pb, INITIAL, es) == 1
  {
    var e1, e2, e3, e4 := StartSession(rand), TimePasses(KEEPALIVE_MS - 1), WriteToRadio(c, data, 0), TimePasses(1);
    FourEvents(pb, INITIAL, e1, e2, e3, e4);
    assert Queues(pb, Run(pb, INITIAL, [e1, e2]), e3);
    assert Quiet(pb, INITIAL, [e1, e2, e3]) == 0;
  }

  // --------------------------------------------- how long the link stays silent

  /** How long the link had been silent when a keepalive was refused, if one was since anything was queued. */
  function QuietAtRefusal(pb: Codec, s: Proxy, es: seq<Event>): Option<nat>
    requires Legal(pb, s, es)
  {
    if es == [] || Queues(pb, Run(pb, s, Front(es)), Last(es)) then None
    else if Last(es).KeepaliveFires? then Some(Quiet(pb, s, Front(es)))
    else QuietAtRefusal(pb, s, Front(es))
  }

  lemma OnlyKeepalivesAreRefused(pb: Codec, s: Proxy, e: Event)
    ensures e.KeepaliveFires? ==> Restarts(pb, s, e)
    ensures Restarts(pb, s, e) && !Queues(pb, s, e) ==> e.KeepaliveFires?
  {
  }

  lemma {:induction false} QuietAndRefusals(pb: Codec, es: seq<Event>)
    requires Legal(pb, INITIAL, es)
    ensures var quiet, since := Quiet(pb, INITIAL, es), SinceRestart(pb, INITIAL, es);
            var refused := QuietAtRefusal(pb, INITIAL, es);
            if refused.Some? then quiet == refused.value + since else quiet <= since
  {
    hide Step, Restarts, Queues, Enabled;
    if es != [] {
      QuietAndRefusals(pb, Front(es));
      OnlyKeepalivesAreRefused(pb, Run(pb, INITIAL, Front(es)), Last(es));
    }
  }

  /**
   With a punctual timer the node never waits longer than the interval for something to be queued for it,
   if and only if no keepalive was refused meanwhile, or the link had been silent then for no longer than
   the time that is left until the next one.
   */
  lemma {:induction false} QuietIsBoundedIff(pb: Codec, es: seq<Event>)
    requires Legal(pb, INITIAL, es) && OnTime(pb, INITIAL, es) && Run(pb, INITIAL, es).up.state != Boot
    ensures var t, refused := Run(pb, INITIAL, es), QuietAtRefusal(pb, INITIAL, es);
            Quiet(pb, INITIAL, es) <= KEEPALIVE_MS <==> (refused.Some? ==> refused.value <= t.up.dueIn)
  {
    KeepaliveFiresWhenDue(pb, es);
    KeepaliveIsNeverOverdue(pb, es);
    QuietAndRefusals(pb, es);
  }

  /** A keepalive is refused exactly when four packets are already waiting for the node. */
  lemma KeepaliveIsRefusedIffFull(pb: Codec, s: Proxy)
    ensures Queues(pb, s, KeepaliveFires) <==> |s.tx.queue| < TX_QUEUE_DEPTH
  {
  }

  /** A run whose keepalive is refused because the driver has not sent anything, and whose link stays silent. */
  lemma {:induction false} RefusedKeepaliveProlongsSilence(pb: Codec, rand: UInt32, c: Conn, data: Bytes)
    requires |data| <= MAX_PAYLOAD && pb.decodeToRadio(data) == None
    ensures var write := WriteToRadio(c, data, 0);
            var es := [StartSession(rand), write, write, write]
                      + [TimePasses(KEEPALIVE_MS)] + [KeepaliveFires] + [TimePasses(1)];
            && Legal(pb, INITIAL, es) && OnTime(pb, INITIAL, es)
            && Quiet(pb, INITIAL, es) == KEEPALIVE_MS + 1
            && QuietAtRefusal(pb, INITIAL, es) == Some(KEEPALIVE_MS)
  {
    var start, write := StartSession(rand), WriteToRadio(c, data, 0);
    FourEvents(pb, INITIAL, start, write, write, write);
    var full := [start, write, write, write];
    assert Queues(pb, Run(pb, INITIAL, Front(full)), Last(full));
    assert OnTime(pb, INITIAL, [start]);
    assert OnTime(pb, INITIAL, [start, write]);
    assert OnTime(pb, INITIAL, [start, write, write]);
    OneMoreEventOnTime(pb, INITIAL, full, TimePasses(KEEPALIVE_MS));
    OneMoreEventOnTime(pb, INITIAL, full + [TimePasses(KEEPALIVE_MS)], KeepaliveFires);
    OneMoreEventOnTime(pb, INITIAL, full + [TimePasses(KEEPALIVE_MS)] + [KeepaliveFires], TimePasses(1));
  }

  lemma {:induction false} OneMoreEventOnTime(pb: Codec, s: Proxy, es: seq<Event>, e: Event)
    requires Legal(pb, s, es) && Enabled(Run(pb, s, es), e) && OnTime(pb, s, es)
    requires e.TimePasses? && Run(pb, s, es).up.keepaliveArmed ==> e.ms <= Run(pb, s, es).up.dueIn
    ensures Legal(pb, s, es + [e]) && Run(pb, s, es + [e]) == Step(pb, Run(pb, s, es), e) && OnTime(pb, s, es + [e])
    ensures Quiet(pb, s, es + [e]) == if Queues(pb, Run(pb, s, es), e) then 0 else Quiet(pb, s, es) + Elapsed(e)
    ensures QuietAtRefusal(pb, s, es + [e])
            == if Queues(pb, Run(pb, s, es), e) then None
               else if e.KeepaliveFires? then Some(Quiet(pb, s, es)) else QuietAtRefusal(pb, s, es)
  {
    assert Front(es + [e]) == es;
  }
}
