/**
 The UART transmit driver as a state machine whose atomic steps are finer than its handlers: producers
 may be stopped between queueing a packet and submitting the work item, and completion interrupts may
 land anywhere, in particular between setting the in-progress flag and the return of uart_tx.
 */
module TxModel {
  import opened Base
  import opened Framing

  const TX_QUEUE_DEPTH: nat := 4

  /** Where the one running instance of the work handler is. */
  datatype Pc =
    | Idle
    | Started                   // work item begun, in-progress flag not yet looked at
    | Fetched(entry: Bytes)     // one entry taken from the queue
    | Built(entry: Bytes)       // frame written to the frame buffer
    | Flagged(entry: Bytes)     // in-progress flag set, uart_tx not yet called
    | Returning(ok: bool)       // uart_tx took effect; its result not yet looked at

  /** One call of uart_tx: the entry it was for and whether the hardware took it. */
  datatype Call = Call(entry: Bytes, ok: bool)

  /** accepted, calls and wire are histories; the other fields are the driver's variables. */
  datatype Tx = Tx(
    queue: seq<Bytes>,
    unsubmitted: nat,           // producers between k_msgq_put and k_work_submit
    work: bool,                 // work item submitted
    pc: Pc,
    inProgress: bool,
    frameBuf: Bytes,
    hardware: Option<Bytes>,    // frame being transmitted out of the frame buffer
    accepted: seq<Bytes>,       // payloads taken from callers
    calls: seq<Call>,           // calls of uart_tx
    wire: Bytes)                // bytes handed to the hardware

  const TX_INITIAL := Tx([], 0, false, Idle, false, [], None, [], [], [])

  datatype TxEvent =
    | Put(p: Bytes)
    | Submit
    | StartWork
    | Check
    | Build
    | SetFlag
    | CallUart(ok: bool)
    | Return
    | Complete                  // UART_TX_DONE or UART_TX_ABORTED

  /** What uart_meshtastic_tx answers. */
  function PutRc(t: Tx, p: Bytes): Rc {
    if |p| > MAX_PAYLOAD then EMsgSize
    else if |t.queue| >= TX_QUEUE_DEPTH then ENoMem
    else Ok
  }

  predicate TxEnabled(t: Tx, e: TxEvent) {
    match e
    case Put(_) => true
    case Submit => t.unsubmitted > 0
    case StartWork => t.pc.Idle? && t.work
    case Check => t.pc.Started?
    case Build => t.pc.Fetched?
    case SetFlag => t.pc.Built?
    case CallUart(_) => t.pc.Flagged?
    case Return => t.pc.Returning?
    case Complete => t.hardware.Some?
  }

  function FrameOf(entry: Bytes): Bytes {
    if |entry| <= MAX_PAYLOAD then Frame(entry) else []
  }

  function TxStep(t: Tx, e: TxEvent): Tx
    requires TxEnabled(t, e)
  {
    match e
    case Put(p) =>
      if PutRc(t, p) == Ok
      then t.(queue := t.queue + [p], accepted := t.accepted + [p], unsubmitted := t.unsubmitted + 1)
      else t
    case Submit => t.(work := true, unsubmitted := t.unsubmitted - 1)
    case StartWork => t.(work := false, pc := Started)
    case Check =>
      if t.inProgress || t.queue == [] then t.(pc := Idle)
      else t.(queue := t.queue[1..], pc := Fetched(t.queue[0]))
    case Build => t.(frameBuf := FrameOf(t.pc.entry), pc := Built(t.pc.entry))
    case SetFlag => t.(inProgress := true, pc := Flagged(t.pc.entry))
    case CallUart(ok) =>
      var t' := t.(calls := t.calls + [Call(t.pc.entry, ok)], pc := Returning(ok));
      if ok then t'.(hardware := Some(t.frameBuf), wire := t.wire + t.frameBuf) else t'
    case Return =>
      if t.pc.ok then t.(pc := Idle) else t.(pc := Idle, inProgress := false, work := true)
    case Complete => t.(hardware := None, inProgress := false, work := true)
  }

  /** Up to four payloads of up to 512 bytes wait; a put appends or changes nothing, and says which. */
  lemma PutAppendsOrRefuses(t: Tx, p: Bytes)
    ensures PutRc(t, p) == if |p| > 512 then EMsgSize else if |t.queue| >= 4 then ENoMem else Ok
    ensures TxStep(t, Put(p)).queue == if |p| <= 512 && |t.queue| < 4 then t.queue + [p] else t.queue
    ensures TxStep(t, Put(p)).accepted == if |p| <= 512 && |t.queue| < 4 then t.accepted + [p] else t.accepted
  {
  }

  predicate InHand(t: Tx) {
    t.pc.Fetched? || t.pc.Built? || t.pc.Flagged?
  }

  /** The entry taken from the queue whose uart_tx call is still to come. */
  function Held(t: Tx): seq<Bytes> {
    if InHand(t) then [t.pc.entry] else []
  }

  function Entries(calls: seq<Call>): seq<Bytes> {
    if calls == [] then [] else Entries(Front(calls)) + [Last(calls).entry]
  }

  /** The entries the hardware took. */
  function HandedOver(calls: seq<Call>): seq<Bytes> {
    if calls == [] then []
    else HandedOver(Front(calls)) + (if Last(calls).ok then [Last(calls).entry] else [])
  }

  /** Something is bound to look at the queue again. */
  predicate Awake(t: Tx) {
    t.work || t.unsubmitted > 0 || t.hardware.Some? || t.pc.Started? || InHand(t) || t.pc == Returning(false)
  }

  predicate Short(ps: seq<Bytes>) {
    forall i :: 0 <= i < |ps| ==> |ps[i]| <= MAX_PAYLOAD
  }

  ghost predicate TxInv(t: Tx) {
    // Conservation and order: what was accepted was sent off, is in hand, or waits.
    && t.accepted == Entries(t.calls) + Held(t) + t.queue
    && |t.queue| <= TX_QUEUE_DEPTH
    && Short(t.accepted)
    // A transfer owns the frame buffer only under the flag, and the buffer still holds what it started with.
    && (t.hardware.Some? ==> t.inProgress && t.hardware.value == t.frameBuf && !InHand(t))
    && (t.pc.Idle? || t.pc.Started? || t.pc == Returning(true) ==> (t.inProgress <==> t.hardware.Some?))
    && (t.pc.Fetched? || t.pc.Built? ==> !t.inProgress)
    && (t.pc.Flagged? || t.pc == Returning(false) ==> t.inProgress && t.hardware.None?)
    && (InHand(t) && !t.pc.Fetched? ==> t.frameBuf == FrameOf(t.pc.entry))
    // No lost wakeup.
    && (t.queue != [] ==> Awake(t))
    // The wire carries the frames of the entries handed over, back to back.
    && Short(HandedOver(t.calls))
    && t.wire == Wire(HandedOver(t.calls))
  }

  lemma InitialTxInv()
    ensures TxInv(TX_INITIAL)
  {
  }

  lemma HeldIsShort(t: Tx)
    requires TxInv(t) && InHand(t)
    ensures |t.pc.entry| <= MAX_PAYLOAD
  {
    assert t.accepted[|Entries(t.calls)|] == t.pc.entry;
  }

  lemma PutKeepsInv(t: Tx, p: Bytes)
    requires TxInv(t)
    ensures TxInv(TxStep(t, Put(p)))
  {
    hide Wire, Entries, HandedOver, FrameOf;
    var sent := Entries(t.calls) + Held(t);
    assert sent + (t.queue + [p]) == (sent + t.queue) + [p];
  }

  lemma CheckKeepsInv(t: Tx)
    requires TxInv(t) && TxEnabled(t, Check)
    ensures TxInv(TxStep(t, Check))
  {
    hide Wire, Entries, HandedOver, FrameOf;
    if !t.inProgress && t.queue != [] {
      assert t.queue == [t.queue[0]] + t.queue[1..];
    }
  }

  lemma {:induction false} OneMoreCall(calls: seq<Call>, c: Call)
    ensures Entries(calls + [c]) == Entries(calls) + [c.entry]
    ensures HandedOver(calls + [c]) == if c.ok then HandedOver(calls) + [c.entry] else HandedOver(calls)
  {
    assert Front(calls + [c]) == calls;
  }

  lemma {:induction false} OneMoreFrame(ps: seq<Bytes>, p: Bytes)
    requires Short(ps) && |p| <= MAX_PAYLOAD
    ensures Short(ps + [p]) && Wire(ps + [p]) == Wire(ps) + FrameOf(p)
  {
    assert Front(ps + [p]) == ps;
  }

  lemma CallKeepsOrder(t: Tx, ok: bool)
    requires t.accepted == Entries(t.calls) + Held(t) + t.queue && t.pc.Flagged?
    ensures var t' := TxStep(t, CallUart(ok));
            t'.accepted == Entries(t'.calls) + Held(t') + t'.queue
  {
    hide Entries, HandedOver, Wire, FrameOf;
    OneMoreCall(t.calls, Call(t.pc.entry, ok));
    var sent := Entries(t.calls) + [t.pc.entry];
    assert sent + [] == sent;
  }

  lemma CallKeepsWire(t: Tx, ok: bool)
    requires Short(HandedOver(t.calls)) && t.wire == Wire(HandedOver(t.calls))
    requires t.pc.Flagged? && |t.pc.entry| <= MAX_PAYLOAD && t.frameBuf == FrameOf(t.pc.entry)
    ensures var t' := TxStep(t, CallUart(ok));
            Short(HandedOver(t'.calls)) && t'.wire == Wire(HandedOver(t'.calls))
  {
    OneMoreCall(t.calls, Call(t.pc.entry, ok));
    OneMoreFrame(HandedOver(t.calls), t.pc.entry);
  }

  lemma CallUartKeepsInv(t: Tx, ok: bool)
    requires TxInv(t) && TxEnabled(t, CallUart(ok))
    ensures TxInv(TxStep(t, CallUart(ok)))
  {
    HeldIsShort(t);
    CallKeepsOrder(t, ok);
    CallKeepsWire(t, ok);
  }

  /** Every step of every interleaving keeps the driver invariant. */
  lemma TxStepKeepsInv(t: Tx, e: TxEvent)
    requires TxInv(t) && TxEnabled(t, e)
    ensures TxInv(TxStep(t, e))
  {
    hide Wire, Entries, HandedOver;
    match e
    case Put(p) => PutKeepsInv(t, p);
    case Check => CheckKeepsInv(t);
    case CallUart(ok) => CallUartKeepsInv(t, ok);
    case _ =>
  }

  /** An uninterrupted call of uart_meshtastic_tx. */
  function Transmit(t: Tx, p: Bytes): Tx {
    if PutRc(t, p) == Ok then TxStep(TxStep(t, Put(p)), Submit) else t
  }

  /** An accepted packet leaves the work item submitted, whatever the driver does; a refused one changes nothing. */
  lemma TransmitSubmits(t: Tx, p: Bytes)
    ensures var t' := Transmit(t, p);
            if |p| <= 512 && |t.queue| < 4
            then t' == t.(queue := t.queue + [p], accepted := t.accepted + [p], work := true)
            else t' == t
  {
  }

  lemma TransmitKeepsInv(t: Tx, p: Bytes)
    requires TxInv(t)
    ensures TxInv(Transmit(t, p))
  {
    if PutRc(t, p) == Ok {
      TxStepKeepsInv(t, Put(p));
      TxStepKeepsInv(TxStep(t, Put(p)), Submit);
    }
  }

  // -------------------------------------------------------------------- runs

  predicate TxLegal(t: Tx, es: seq<TxEvent>)
    decreases |es|, 0
  {
    es == [] || (TxLegal(t, Front(es)) && TxEnabled(TxRun(t, Front(es)), Last(es)))
  }

  function TxRun(t: Tx, es: seq<TxEvent>): Tx
    requires TxLegal(t, es)
    decreases |es|, 1
  {
    if es == [] then t else TxStep(TxRun(t, Front(es)), Last(es))
  }

  // ------------------------------------------------------ the whole handler

  /** The look at the flag; the previous transfer may complete just before it. */
  function CheckSteps(doneEarly: bool): seq<TxEvent> {
    [StartWork] + (if doneEarly then [Complete] else []) + [Check]
  }

  /** From an entry in hand to the return of uart_tx; the new transfer may complete before that. */
  function SendSteps(accepted: bool, doneInside: bool): seq<TxEvent> {
    [Build, SetFlag, CallUart(accepted)] + (if doneInside then [Complete] else []) + [Return]
  }

  /** One run of the work handler, interrupted at most where it can meet a completion. */
  function HandlerSteps(t: Tx, accepted: bool, doneEarly: bool, doneInside: bool): seq<TxEvent> {
    CheckSteps(doneEarly)
    + if t.queue == [] || (t.inProgress && !doneEarly) then [] else SendSteps(accepted, doneInside)
  }

  predicate Performs(t: Tx, es: seq<TxEvent>, t': Tx) {
    TxLegal(t, es) && TxRun(t, es) == t'
  }

  lemma {:induction false} OneMoreStep(t: Tx, es: seq<TxEvent>, t': Tx, e: TxEvent)
    requires Performs(t, es, t') && TxEnabled(t', e)
    ensures Performs(t, es + [e], TxStep(t', e))
  {
    assert Front(es + [e]) == es;
  }

  lemma {:induction false} PerformsInParts(t: Tx, a: seq<TxEvent>, t': Tx, b: seq<TxEvent>, t'': Tx)
    requires Performs(t, a, t') && Performs(t', b, t'')
    ensures Performs(t, a + b, t'')
  {
    if b == [] {
      assert a + b == a;
    } else {
      PerformsInParts(t, a, t', Front(b), TxRun(t', Front(b)));
      assert Front(a + b) == a + Front(b);
    }
  }

  lemma {:induction false} CheckPerforms(t: Tx, doneEarly: bool, t1: Tx, t2: Tx, t3: Tx)
    requires TxEnabled(t, StartWork) && t1 == TxStep(t, StartWork)
    requires if doneEarly then TxEnabled(t1, Complete) && t2 == TxStep(t1, Complete) else t2 == t1
    requires TxEnabled(t2, Check) && t3 == TxStep(t2, Check)
    ensures Performs(t, CheckSteps(doneEarly), t3)
  {
    hide TxStep, TxEnabled;
    assert Performs(t, [], t);
    OneMoreStep(t, [], t, StartWork);
    var es := [] + [StartWork];
    if doneEarly {
      OneMoreStep(t, es, t1, Complete);
      es := es + [Complete];
    }
    OneMoreStep(t, es, t2, Check);
    assert es + [Check] == CheckSteps(doneEarly);
  }

  lemma {:induction false} SendPerforms(t: Tx, accepted: bool, doneInside: bool, t1: Tx, t2: Tx, t3: Tx, t4: Tx, t5: Tx)
    requires TxEnabled(t, Build) && t1 == TxStep(t, Build)
    requires TxEnabled(t1, SetFlag) && t2 == TxStep(t1, SetFlag)
    requires TxEnabled(t2, CallUart(accepted)) && t3 == TxStep(t2, CallUart(accepted))
    requires if doneInside then TxEnabled(t3, Complete) && t4 == TxStep(t3, Complete) else t4 == t3
    requires TxEnabled(t4, Return) && t5 == TxStep(t4, Return)
    ensures Performs(t, SendSteps(accepted, doneInside), t5)
  {
    hide TxStep, TxEnabled;
    assert Performs(t, [], t);
    OneMoreStep(t, [], t, Build);
    OneMoreStep(t, [] + [Build], t1, SetFlag);
    var es := [] + [Build] + [SetFlag];
    OneMoreStep(t, es, t2, CallUart(accepted));
    es := es + [CallUart(accepted)];
    if doneInside {
      OneMoreStep(t, es, t3, Complete);
      es := es + [Complete];
    }
    OneMoreStep(t, es, t4, Return);
    assert es + [Return] == SendSteps(accepted, doneInside);
  }

  lemma {:induction false} TxRunKeepsInv(t: Tx, es: seq<TxEvent>)
    requires TxInv(t) && TxLegal(t, es)
    ensures TxInv(TxRun(t, es))
  {
    if es != [] {
      TxRunKeepsInv(t, Front(es));
      TxStepKeepsInv(TxRun(t, Front(es)), Last(es));
    }
  }

  /** While the hardware owns the frame buffer, no step changes it and no second transfer starts. */
  lemma {:induction false} BufferStableWhileOwned(es: seq<TxEvent>, e: TxEvent)
    requires TxLegal(TX_INITIAL, es) && TxEnabled(TxRun(TX_INITIAL, es), e)
    requires TxRun(TX_INITIAL, es).hardware.Some?
    ensures var t := TxRun(TX_INITIAL, es);
            && TxStep(t, e).frameBuf == t.frameBuf == t.hardware.value
            && !e.CallUart?
            && (TxStep(t, e).hardware == t.hardware || e.Complete?)
  {
    InitialTxInv();
    TxRunKeepsInv(TX_INITIAL, es);
  }

  /** How many steps the driver can still take by itself. */
  function StepsLeft(t: Tx): nat {
    9 * |t.queue| + 3 * t.unsubmitted + (if t.work then 2 else 0) + (if t.hardware.Some? then 3 else 0)
    + match t.pc
      case Idle => 0
      case Started => 1
      case Returning(_) => 3
      case Flagged(_) => 7
      case Built(_) => 8
      case Fetched(_) => 9
  }

  /** Between two calls of uart_meshtastic_tx the driver takes a bounded number of steps ... */
  lemma {:induction false} DriverStepsAreBounded(t: Tx, es: seq<TxEvent>)
    requires TxLegal(t, es)
    requires forall i :: 0 <= i < |es| ==> !es[i].Put?
    ensures |es| + StepsLeft(TxRun(t, es)) <= StepsLeft(t)
  {
    if es != [] {
      DriverStepsAreBounded(t, Front(es));
      assert !Last(es).Put?;
    }
  }

  /** ... and when it can take none, everything it accepted has been sent off, in order. */
  lemma {:induction false} QuietDriverHasSentEverything(es: seq<TxEvent>)
    requires TxLegal(TX_INITIAL, es)
    requires forall e :: TxEnabled(TxRun(TX_INITIAL, es), e) ==> e.Put?
    ensures Entries(TxRun(TX_INITIAL, es).calls) == TxRun(TX_INITIAL, es).accepted
  {
    InitialTxInv();
    TxRunKeepsInv(TX_INITIAL, es);
    NothingLeftToSend(TxRun(TX_INITIAL, es));
  }

  lemma NothingLeftToSend(t: Tx)
    requires TxInv(t) && forall e :: TxEnabled(t, e) ==> e.Put?
    ensures Entries(t.calls) == t.accepted
  {
    hide Entries, HandedOver, Wire, Short;
    assert !TxEnabled(t, Submit) && !TxEnabled(t, StartWork) && !TxEnabled(t, Check);
    assert !TxEnabled(t, Build) && !TxEnabled(t, SetFlag);
    assert !TxEnabled(t, CallUart(true)) && !TxEnabled(t, Return) && !TxEnabled(t, Complete);
  }

  /** A parser at the other end of the wire delivers the non-empty payloads handed over, in order. */
  lemma {:induction false} WireParsesBack(es: seq<TxEvent>)
    requires TxLegal(TX_INITIAL, es)
    ensures var t := TxRun(TX_INITIAL, es);
            && Feed(WaitMagic1, t.wire).0 == WaitMagic1
            && Feed(WaitMagic1, t.wire).1 == NonEmpty(HandedOver(t.calls))
            && Entries(t.calls) <= t.accepted
  {
    InitialTxInv();
    TxRunKeepsInv(TX_INITIAL, es);
    WireRoundTrip(HandedOver(TxRun(TX_INITIAL, es).calls));
  }
}
