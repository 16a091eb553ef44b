/** The phone's side of the FROMRADIO protocol: what a client makes of the answers to its own reads. */
module PhoneClient {
  import opened Base
  import opened Codec
  import opened LinkModel

  datatype Reading = Reading(offset: nat, len: nat, answer: ReadResult)

  /** The packets read to their end, and what has been read of the next one. */
  datatype Inbox = Inbox(done: seq<Bytes>, part: Bytes)

  /** An answer shorter than the room for it ends a packet. */
  function Note(inbox: Inbox, r: Reading): Inbox {
    match r.answer
    case Failed(_) => inbox
    case Data(bytes) =>
      if |bytes| < r.len then Inbox(inbox.done + [inbox.part + bytes], [])
      else Inbox(inbox.done, inbox.part + bytes)
  }

  function Collect(readings: seq<Reading>): Inbox {
    if readings == [] then Inbox([], []) else Note(Collect(Front(readings)), Last(readings))
  }

  /** The client reads every packet on to its end, each time from where it got to, with any room for the answer. */
  predicate Orderly(readings: seq<Reading>) {
    readings == []
    || (Orderly(Front(readings)) && Last(readings).len > 0
        && Last(readings).offset == |Collect(Front(readings)).part|)
  }

  /** The readings taken from a link that is alone. */
  function LinkReadings(pb: Codec, l: Link, es: seq<LinkEvent>): seq<Reading> {
    if es == [] then []
    else
      var e := Last(es);
      LinkReadings(pb, l, Front(es))
      + if e.Read? then [Reading(e.offset, e.len, Response(pb, LinkRun(pb, l, Front(es)), e.offset, e.len))] else []
  }

  /** One reading of an orderly client: it never fails, and it is short exactly when it reaches the end. */
  lemma ReadingContinues(value: Bytes, part: Bytes, len: nat)
    requires part <= value && len > 0
    ensures var answer := AttRead(value, |part|, len);
            && answer.Data? && part + answer.bytes <= value
            && (|answer.bytes| < len ==> part + answer.bytes == value)
            && (|answer.bytes| >= len ==> answer.bytes != [])
  {
    if value != [] {
      var end := Min(|part| + len, |value|);
      assert value[..|part|] + value[|part|..end] == value[..end];
    }
  }

  /**
   What an orderly client collects, whatever happens to the link between its reads, is what the link
   served: every packet but the last one whole, and of that one as much as has been read.
   */
  lemma {:induction false} CollectsWhatIsServed(pb: Codec, l: Link, es: seq<LinkEvent>)
    requires Orderly(LinkReadings(pb, l, es))
    ensures var inbox := Collect(LinkReadings(pb, l, es));
            var staged := LinkRun(pb, l, es).staged;
            && Served(pb, l, es) == inbox.done + (if inbox.part == [] then [] else [staged])
            && inbox.part <= staged
  {
    if es != [] {
      var before, e, sofar := LinkRun(pb, l, Front(es)), Last(es), LinkReadings(pb, l, Front(es));
      if e.Read? {
        assert Front(LinkReadings(pb, l, es)) == sofar;
        CollectsWhatIsServed(pb, l, Front(es));
        var inbox := Collect(sofar);
        ReadingContinues(LinkStep(pb, before, e).staged, inbox.part, e.len);
      } else {
        assert LinkReadings(pb, l, es) == sofar;
        CollectsWhatIsServed(pb, l, Front(es));
      }
    }
  }

  /**
   The replay as an orderly client sees it: the frames still to be replayed, then one empty packet, then
   the live packets; the link is Active exactly when the client has the empty one.
   */
  lemma {:induction false} ClientGetsTheReplay(pb: Codec, l: Link, es: seq<LinkEvent>)
    requires l.state == Replaying && NoEmptyPacket(l.queue)
    requires Undisturbed(es) && Orderly(LinkReadings(pb, l, es))
    ensures var script := l.replay + [[]];
            var inbox := Collect(LinkReadings(pb, l, es));
            var k := Min(|inbox.done|, |script|);
            var l' := LinkRun(pb, l, es);
            && inbox.done[..k] == script[..k]
            && l'.state == (if |inbox.done| < |script| then Replaying else Active)
            && NonEmpty(inbox.done[k..]) + InReading(inbox, script, l'.staged) + l'.queue
               == l.queue + Accepted(pb, l, es)
  {
    ServesScriptThenQueue(pb, l, es);
    QueueIsFifo(pb, l, es);
    StateWithoutArms(pb, l, es);
    CollectsWhatIsServed(pb, l, es);
    InTermsOfWholePackets(Served(pb, l, es), Collect(LinkReadings(pb, l, es)), LinkRun(pb, l, es).staged, l.replay);
  }

  /** Outside a replay an orderly client drains the live queue, in order. */
  lemma {:induction false} ClientDrainsTheQueue(pb: Codec, l: Link, es: seq<LinkEvent>)
    requires l.state != Replaying && NoEmptyPacket(l.queue)
    requires Undisturbed(es) && Orderly(LinkReadings(pb, l, es))
    ensures var inbox, l' := Collect(LinkReadings(pb, l, es)), LinkRun(pb, l, es);
            NonEmpty(inbox.done) + InReading(inbox, [], l'.staged) + l'.queue == l.queue + Accepted(pb, l, es)
  {
    ServesScriptThenQueue(pb, l, es);
    QueueIsFifo(pb, l, es);
    CollectsWhatIsServed(pb, l, es);
    var inbox, staged := Collect(LinkReadings(pb, l, es)), LinkRun(pb, l, es).staged;
    assert Served(pb, l, es)[0..] == Served(pb, l, es);
    hide Served, Dequeued, Accepted, LinkRun, LinkReadings, Collect, Orderly, NonEmpty, Undisturbed;
    if inbox.part == [] {
      assert Served(pb, l, es) == inbox.done;
      assert NonEmpty(inbox.done) + [] == NonEmpty(inbox.done);
    } else {
      OneMoreNonEmpty(inbox.done, staged);
    }
  }

  lemma {:induction false} InTermsOfWholePackets(served: seq<Bytes>, inbox: Inbox, staged: Bytes, replay: seq<Bytes>)
    requires served == inbox.done + (if inbox.part == [] then [] else [staged]) && inbox.part <= staged
    requires var script := replay + [[]]; var k := Min(|served|, |script|); served[..k] == script[..k]
    ensures var script := replay + [[]];
            var k, k' := Min(|served|, |script|), Min(|inbox.done|, |script|);
            && inbox.done[..k'] == script[..k']
            && (|served| < |script| <==> |inbox.done| < |script|)
            && NonEmpty(served[k..]) == NonEmpty(inbox.done[k'..]) + InReading(inbox, script, staged)
  {
    var script := replay + [[]];
    if inbox.part == [] {
      assert served == inbox.done;
      assert NonEmpty(served[Min(|served|, |script|)..]) + [] == NonEmpty(served[Min(|served|, |script|)..]);
    } else if |inbox.done| < |script| {
      assert served[|inbox.done|] == staged && |staged| > 0;
      assert script[|inbox.done|] == served[..|inbox.done| + 1][|inbox.done|] == staged;
      assert |script[|replay|]| == 0;
      assert served[Min(|served|, |script|)..] == [] == inbox.done[|inbox.done|..];
    } else {
      OneMoreNonEmpty(inbox.done[|script|..], staged);
      assert served[|script|..] == inbox.done[|script|..] + [staged];
    }
  }

  /** The live packet the client is in the middle of. */
  function InReading(inbox: Inbox, script: seq<Bytes>, staged: Bytes): seq<Bytes> {
    if inbox.part != [] && |inbox.done| >= |script| then [staged] else []
  }
}
