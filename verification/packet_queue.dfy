/** The circular queue of outbound packets inside a connection slot. */
module CircularQueue {
  import opened Base

  /** Where entry k of a queue starting at head lies in the buffer. */
  function Position(head: nat, k: nat): (i: nat)
    ensures i < FROMRADIO_QUEUE_DEPTH
  {
    (head + k) % FROMRADIO_QUEUE_DEPTH
  }

  lemma PositionsDiffer(head: nat, j: nat, k: nat)
    requires head < FROMRADIO_QUEUE_DEPTH && j < k < FROMRADIO_QUEUE_DEPTH
    ensures Position(head, j) != Position(head, k)
  {
  }

  lemma NextPosition(head: nat, k: nat)
    requires head < FROMRADIO_QUEUE_DEPTH && k < FROMRADIO_QUEUE_DEPTH
    ensures Position(head, k + 1) == (Position(head, k) + 1) % FROMRADIO_QUEUE_DEPTH
    ensures Position(head, k + 1) == Position((head + 1) % FROMRADIO_QUEUE_DEPTH, k)
  {
  }

  class PacketQueue {
    const data: array2<Byte>
    const lens: array<nat>
    var head: nat
    var tail: nat
    var count: nat
    ghost var contents: seq<Bytes>

    /** Entry i of the buffer holds packet p. */
    ghost predicate EntryIs(i: nat, p: Bytes)
      requires i < data.Length0 && i < lens.Length
      reads data, lens
    {
      && lens[i] == |p| <= data.Length1
      && forall j :: 0 <= j < |p| ==> data[i, j] == p[j]
    }

    ghost predicate Valid()
      reads this, data, lens
    {
      && data.Length0 == lens.Length == FROMRADIO_QUEUE_DEPTH && data.Length1 == FROMRADIO_MAX_PKT_SIZE
      && head < FROMRADIO_QUEUE_DEPTH && count == |contents| <= FROMRADIO_QUEUE_DEPTH
      && tail == Position(head, count)
      && forall k :: 0 <= k < count ==> EntryIs(Position(head, k), contents[k])
    }

    ghost function Footprint(): set<object> {
      {this, data, lens}
    }

    constructor ()
      ensures Valid() && fresh(Footprint())
      ensures contents == []
    {
      data := new Byte[FROMRADIO_QUEUE_DEPTH, FROMRADIO_MAX_PKT_SIZE];
      lens := new nat[FROMRADIO_QUEUE_DEPTH];
      head, tail, count := 0, 0, 0;
      contents := [];
    }

    method Clear()
      requires Valid()
      modifies this
      ensures Valid()
      ensures contents == []
    {
      head, tail, count := 0, 0, 0;
      contents := [];
    }

    method CopyIn(i: nat, p: Bytes)
      requires i < data.Length0 && i < lens.Length && |p| <= data.Length1
      modifies data, lens
      ensures EntryIs(i, p)
      ensures forall k, q :: 0 <= k < data.Length0 && k < lens.Length && k != i && old(EntryIs(k, q)) ==> EntryIs(k, q)
    {
      forall j | 0 <= j < |p| {
        data[i, j] := p[j];
      }
      lens[i] := |p|;
    }

    method Push(p: Bytes)
      requires Valid() && |contents| < FROMRADIO_QUEUE_DEPTH && |p| <= FROMRADIO_MAX_PKT_SIZE
      modifies this, data, lens
      ensures Valid()
      ensures contents == old(contents) + [p]
    {
      forall k | 0 <= k < count ensures Position(head, k) != tail {
        PositionsDiffer(head, k, count);
      }
      NextPosition(head, count);
      CopyIn(tail, p);
      hide EntryIs, Position;
      tail := (tail + 1) % FROMRADIO_QUEUE_DEPTH;
      count := count + 1;
      contents := contents + [p];
    }

    /** Copies the oldest packet to the start of buf and removes it. */
    method PopInto(buf: array<Byte>) returns (len: nat)
      requires Valid() && contents != [] && buf.Length == FROMRADIO_MAX_PKT_SIZE
      requires buf !in Footprint()
      modifies this, buf
      ensures Valid()
      ensures contents == old(contents)[1..]
      ensures len <= buf.Length && buf[..len] == old(contents)[0]
    {
      assert Position(head, 0) == head;
      assert EntryIs(head, contents[0]);
      len := lens[head];
      forall j | 0 <= j < len {
        buf[j] := data[head, j];
      }
      assert forall i, q :: 0 <= i < FROMRADIO_QUEUE_DEPTH && old(EntryIs(i, q)) ==> EntryIs(i, q);
      NextPosition(head, count - 1);
      hide EntryIs, Position;
      ghost var first, was := head, contents;
      head := (head + 1) % FROMRADIO_QUEUE_DEPTH;
      count := count - 1;
      contents := contents[1..];
      forall k | 0 <= k < count ensures EntryIs(Position(head, k), contents[k]) {
        NextPosition(first, k);
        assert old(EntryIs(Position(first, k + 1), was[k + 1]));
      }
    }
  }
}
