/** The transmit side of the UART driver: message queue, work handler and completion interrupt. */
module UartTransmitter {
  import opened Base
  import opened Framing
  import opened TxModel

  class UartTx {
    var queue: seq<Bytes>         // the kernel message queue
    var workSubmitted: bool
    var inProgress: bool
    const frameBuf: array<Byte>
    ghost var model: Tx

    ghost predicate BufferHolds(bytes: Bytes)
      reads frameBuf
    {
      |bytes| <= frameBuf.Length && frameBuf[..|bytes|] == bytes
    }

    /** The fields agree with the model at every atomic step, also in the middle of the work handler. */
    ghost predicate Valid()
      reads this, frameBuf
    {
      && frameBuf.Length == MAX_PAYLOAD + 4
      && model.unsubmitted == 0
      && queue == model.queue
      && workSubmitted == model.work
      && inProgress == model.inProgress
      && BufferHolds(model.frameBuf)
    }

    ghost function Footprint(): set<object> {
      {this, frameBuf}
    }

    constructor ()
      ensures Valid() && fresh(Footprint())
      ensures model == TX_INITIAL
    {
      queue := [];
      workSubmitted, inProgress := false, false;
      frameBuf := new Byte[MAX_PAYLOAD + 4];
      model := TX_INITIAL;
    }

    /** uart_meshtastic_tx. */
    method Transmit(payload: Bytes) returns (rc: Rc)
      requires Valid()
      modifies this
      ensures Valid()
      ensures rc == PutRc(old(model), payload)
      ensures model == TxModel.Transmit(old(model), payload)
    {
      if |payload| > MAX_PAYLOAD {
        return EMsgSize;
      }
      if |queue| >= TX_QUEUE_DEPTH {
        return ENoMem;
      }
      queue := queue + [payload];
      workSubmitted := true;
      model := TxModel.Transmit(model, payload);
      rc := Ok;
    }

    /** Writes the frame of entry to the start of the frame buffer. */
    method BuildFrame(entry: Bytes)
      requires |entry| <= MAX_PAYLOAD && frameBuf.Length == MAX_PAYLOAD + 4
      modifies frameBuf
      ensures BufferHolds(Frame(entry))
    {
      frameBuf[0], frameBuf[1] := MAGIC1, MAGIC2;
      frameBuf[2], frameBuf[3] := |entry| / 256, |entry| % 256;
      forall j | 0 <= j < |entry| {
        frameBuf[4 + j] := entry[j];
      }
      assert frameBuf[..|entry| + 4] == Frame(entry);
    }

    /**
     tx_work_handler.  accepted is what uart_tx answers if it is called; doneEarly and doneInside say
     whether a completion interrupt lands at the two places where the handler can meet one.
     */
    method WorkHandler(accepted: bool, doneEarly: bool, doneInside: bool)
      requires Valid() && TxInv(model) && TxEnabled(model, StartWork)
      requires doneEarly ==> model.hardware.Some?
      requires doneInside ==> accepted
      modifies this, frameBuf
      ensures Valid() && TxInv(model) && model.pc == Idle
      ensures Performs(old(model), HandlerSteps(old(model), accepted, doneEarly, doneInside), model)
    {
      hide TxInv, Performs, CheckSteps, SendSteps;
      var entry := NextEntry(doneEarly);
      ghost var checked := model;
      if entry.Some? {
        Send(entry.value, accepted, doneInside);
        PerformsInParts(old(model), CheckSteps(doneEarly), checked, SendSteps(accepted, doneInside), model);
      } else {
        assert CheckSteps(doneEarly) + [] == CheckSteps(doneEarly);
      }
    }

    /** The head of tx_work_handler: the entry to send, unless a transfer is running or none waits. */
    method NextEntry(doneEarly: bool) returns (entry: Option<Bytes>)
      requires Valid() && TxInv(model) && TxEnabled(model, StartWork)
      requires doneEarly ==> model.hardware.Some?
      modifies this
      ensures Valid() && TxInv(model)
      ensures Performs(old(model), CheckSteps(doneEarly), model)
      ensures entry.None? <==> old(model.queue) == [] || (old(model.inProgress) && !doneEarly)
      ensures model.pc == if entry.None? then Idle else Fetched(entry.value)
    {
      hide TxInv, Performs;
      ghost var t := model;
      workSubmitted := false;
      TakeStep(StartWork);
      ghost var t1 := model;
      if doneEarly {
        OnComplete();
      }
      ghost var t2 := model;
      if inProgress || |queue| == 0 {
        entry := None;
      } else {
        entry := Some(queue[0]);
        queue := queue[1..];
      }
      TakeStep(Check);
      CheckPerforms(t, doneEarly, t1, t2, model);
    }

    /** The rest of tx_work_handler, with an entry in hand. */
    method Send(entry: Bytes, accepted: bool, doneInside: bool)
      requires Valid() && TxInv(model) && model.pc == Fetched(entry)
      requires doneInside ==> accepted
      modifies this, frameBuf
      ensures Valid() && TxInv(model) && model.pc == Idle
      ensures Performs(old(model), SendSteps(accepted, doneInside), model)
    {
      hide TxInv, Performs, Frame, UartTx.BufferHolds;
      HeldIsShort(model);
      ghost var t := model;
      BuildFrame(entry);
      TakeStep(Build);
      ghost var t1 := model;
      inProgress := true;
      TakeStep(SetFlag);
      ghost var t2 := model;
      TakeStep(CallUart(accepted));
      ghost var t3 := model;
      if doneInside {
        OnComplete();
      }
      ghost var t4 := model;
      if !accepted {
        inProgress := false;
        workSubmitted := true;
      }
      TakeStep(Return);
      SendPerforms(t, accepted, doneInside, t1, t2, t3, t4, model);
    }

    /** The model takes the atomic step the handler has just taken. */
    ghost method TakeStep(e: TxEvent)
      requires TxInv(model) && TxEnabled(model, e)
      modifies this`model
      ensures model == TxStep(old(model), e) && TxInv(model)
    {
      TxStepKeepsInv(model, e);
      model := TxStep(model, e);
    }

    /** UART_TX_DONE and UART_TX_ABORTED. */
    method OnComplete()
      requires Valid() && TxInv(model) && TxEnabled(model, Complete)
      modifies this
      ensures Valid() && TxInv(model)
      ensures model == TxStep(old(model), Complete)
    {
      TxStepKeepsInv(model, Complete);
      inProgress := false;
      workSubmitted := true;
      model := TxStep(model, Complete);
    }
  }
}
