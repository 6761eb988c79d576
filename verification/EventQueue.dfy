/**
  * The queue between the node and its caller: bounded in bytes, drained in whole records into the caller's
  * buffer. Records there is no room for are only counted; a poll hands out that count first.
  */
module EventQueues {
  import opened Types
  import opened Codec
  import opened Records

  const EV_OVERFLOW: nat := 12
  const ERR_BUFFER_TOO_SMALL: int := -2

  /** Besides the queue, what was accepted, how many were not, and what was handed to the caller. */
  datatype Queue = Queue(
    maxBytes: nat,
    entries: seq<Entry>,
    dropped: nat,
    closed: Option<int>,
    accepted: seq<Entry>,
    rejected: nat,
    delivered: seq<Entry>)

  function Empty(maxBytes: nat): Queue {
    Queue(maxBytes, [], 0, None, [], 0, [])
  }

  /** The bytes of all records in the queue. */
  function Total(es: seq<Entry>): nat {
    |Encodings(es)|
  }

  function Push(q: Queue, e: Entry): Queue {
    if Total(q.entries) + |Encode(e)| > q.maxBytes then q.(dropped := q.dropped + 1, rejected := q.rejected + 1)
    else q.(entries := q.entries + [e], accepted := q.accepted + [e])
  }

  function Close(q: Queue, status: int): Queue {
    if q.closed.Some? then q else q.(closed := Some(status))
  }

  // -------- poll

  /** The id of an overflow record counts the events that were dropped, in 64 bits. */
  function Overflow(dropped: nat): Entry {
    Entry(EV_OVERFLOW, 0, dropped % 0x1_0000_0000_0000_0000, ZERO_KEY, ZERO_KEY, 0, 0, [])
  }

  function Report(dropped: nat): seq<Entry> {
    if dropped > 0 then [Overflow(dropped)] else []
  }

  /** How many records from the front fit into `room` bytes. */
  function Fitting(es: seq<Entry>, room: nat): (n: nat)
    ensures n <= |es|
  {
    if es == [] || |Encode(es[0])| > room then 0
    else 1 + Fitting(es[1..], room - |Encode(es[0])|)
  }

  datatype Reply =
    | Nothing          // still empty when the timeout was over
    | TooSmall         // the first record does not fit
    | Closed(status: int)
    | Wrote(count: nat)

  datatype Polled = Polled(queue: Queue, written: seq<Entry>, reply: Reply)

  function Poll(q: Queue, room: nat): Polled {
    if q.entries == [] && q.dropped == 0 && q.closed.None? then Polled(q, [], Nothing)
    else
      var report := Report(q.dropped);
      if Total(report) > room then Polled(q, [], TooSmall)
      else
        var n := Fitting(q.entries, room - Total(report));
        var written := report + q.entries[..n];
        if written == [] then
          if q.entries != [] then Polled(q, [], TooSmall)
          else Polled(q, [], if q.closed.Some? then Closed(q.closed.value) else Nothing)
        else
          Polled(q.(entries := q.entries[n..], dropped := 0, delivered := q.delivered + written),
                 written, Wrote(|Encodings(written)|))
  }

  /** The status as the C interface returns it: the count is cut to 32 bits with a sign. */
  function AsStatus(reply: Reply): int {
    match reply
    case Nothing => 0
    case TooSmall => ERR_BUFFER_TOO_SMALL
    case Closed(status) => status
    case Wrote(count) =>
      var low := count % 0x1_0000_0000;
      if low < 0x8000_0000 then low else low - 0x1_0000_0000
  }

  // -------- the queue as a class

  lemma {:induction false} FittingFits(es: seq<Entry>, room: nat)
    ensures var n := Fitting(es, room);
            && Total(es[..n]) <= room
            && (n < |es| ==> Total(es[..n]) + |Encode(es[n])| > room)
  {
    if es != [] && |Encode(es[0])| <= room {
      FittingFits(es[1..], room - |Encode(es[0])|);
      var n := Fitting(es[1..], room - |Encode(es[0])|);
      assert es[..n + 1][1..] == es[1..][..n];
      assert Fitting(es, room) == n + 1;
    }
  }

  ghost predicate AreRecords(records: seq<Bytes>, es: seq<Entry>) {
    |records| == |es| && forall i :: 0 <= i < |records| ==> records[i] == Encode(es[i])
  }

  /** One more record behind what was put into a buffer from `start` on. */
  lemma Spliced(before: Bytes, start: nat, put: Bytes, record: Bytes)
    requires start + |put| + |record| <= |before|
    ensures var end := start + |put|;
            var now := before[..start] + put + before[end..];
            now[..end] + record + now[end + |record|..] == before[..start] + (put + record) + before[end + |record|..]
  {
    var end := start + |put|;
    var now := before[..start] + put + before[end..];
    assert now[..end] == before[..start] + put;
    assert now[end + |record|..] == before[end + |record|..];
  }

  lemma NoneYet(es: seq<Entry>)
    ensures es[..0] == [] && Encodings(es[..0]) == [] && es[0..] == es
  {
  }

  lemma OneMore(es: seq<Entry>, k: nat)
    requires k < |es|
    ensures Encodings(es[..k + 1]) == Encodings(es[..k]) + Encode(es[k])
    ensures Encodings(es[k..]) == Encode(es[k]) + Encodings(es[k + 1..])
  {
    assert es[..k + 1] == es[..k] + [es[k]];
    EncodingsOfConcat(es[..k], [es[k]]);
    assert Encodings([es[k]]) == Encode(es[k]);
    assert es[k..][1..] == es[k + 1..];
  }

  class EventQueue {
    const maxBytes: nat
    var records: seq<Bytes>
    var bytes: nat
    var dropped: nat
    var closed: Option<int>

    /** The abstract value: the events behind the records, and the history. */
    ghost var queue: Queue

    ghost predicate Valid()
      reads this
    {
      && queue.maxBytes == maxBytes && queue.dropped == dropped && queue.closed == closed
      && bytes == Total(queue.entries) && AreRecords(records, queue.entries)
    }

    constructor (maxBytes: nat)
      ensures Valid() && queue == Empty(maxBytes)
    {
      this.maxBytes := maxBytes;
      records, bytes, dropped, closed := [], 0, 0, None;
      queue := Empty(maxBytes);
    }

    method Enqueue(e: Entry)
      requires Valid()
      modifies this
      ensures Valid() && queue == Push(old(queue), e)
    {
      var record := Build(e);
      if bytes + |record| > maxBytes {
        dropped := dropped + 1;
      } else {
        bytes := bytes + |record|;
        records := records + [record];
      }
      EncodingsOfConcat(queue.entries, [e]);
      assert Encodings([e]) == Encode(e);
      queue := Push(queue, e);
    }

    method Shut(status: int)
      requires Valid()
      modifies this
      ensures Valid() && queue == Close(old(queue), status)
    {
      if closed.None? {
        closed := Some(status);
      }
      queue := Close(queue, status);
    }

    /** Copies a record into the buffer. */
    method Copy(record: Bytes, buf: array<byte>, at: nat)
      requires at + |record| <= buf.Length
      modifies buf
      ensures buf[..] == old(buf[..at]) + record + old(buf[at + |record|..])
    {
      forall i | 0 <= i < |record| {
        buf[at + i] := record[i];
      }
    }

    /** Takes records off the front as long as they fit behind `start`. */
    method TakeRecords(buf: array<byte>, start: nat, ghost es: seq<Entry>) returns (written: nat)
      requires start <= buf.Length && bytes == Total(es) && AreRecords(records, es)
      modifies this`records, this`bytes, buf
      ensures var n := Fitting(es, buf.Length - start);
              && written == start + Total(es[..n]) <= buf.Length
              && bytes == Total(es[n..]) && AreRecords(records, es[n..])
              && buf[..] == old(buf[..start]) + Encodings(es[..n]) + old(buf[written..])
    {
      hide Encode, Encodings;
      written := start;
      ghost var k := 0;
      ghost var before := buf[..];
      NoneYet(es);
      assert buf[..] == before[..start] + [] + before[start..];
      while records != [] && written + |records[0]| <= buf.Length
        invariant k <= |es| && AreRecords(records, es[k..]) && bytes == Total(es[k..])
        invariant written == start + Total(es[..k]) <= buf.Length
        invariant Fitting(es, buf.Length - start) == k + Fitting(es[k..], buf.Length - written)
        invariant buf[..] == before[..start] + Encodings(es[..k]) + before[written..]
        decreases |records|
      {
        var record := records[0];
        assert record == Encode(es[k]) && es[k..][1..] == es[k + 1..];
        OneMore(es, k);
        Spliced(before, start, Encodings(es[..k]), record);
        ghost var now := buf[..];
        assert now[..written] == buf[..written] && now[written + |record|..] == buf[written + |record|..];
        Copy(record, buf, written);
        written := written + |record|;
        bytes := bytes - |record|;
        records := records[1..];
        k := k + 1;
      }
      assert Fitting(es[k..], buf.Length - written) == 0;
      assert before[..start] == old(buf[..start]) && before[written..] == old(buf[written..]);
    }

    /** The count of dropped events goes first, if there is one and it fits. */
    method WriteReport(buf: array<byte>) returns (fits: bool, written: nat)
      modifies this`dropped, buf
      ensures fits <==> Total(Report(old(dropped))) <= buf.Length
      ensures !fits ==> dropped == old(dropped) && buf[..] == old(buf[..])
      ensures fits ==>
                && dropped == 0 && written == Total(Report(old(dropped)))
                && buf[..written] == Encodings(Report(old(dropped))) && buf[written..] == old(buf[written..])
    {
      if dropped == 0 {
        return true, 0;
      }
      var overflow := Build(Overflow(dropped));
      assert Encodings([Overflow(dropped)]) == Encode(Overflow(dropped));
      if |overflow| > buf.Length {
        return false, 0;
      }
      Copy(overflow, buf, 0);
      dropped := 0;
      return true, |overflow|;
    }

    /** Whole records into the buffer: the reply, and nothing of the buffer touched beyond what it counts. */
    method Drain(buf: array<byte>) returns (status: int)
      requires Valid()
      modifies this, buf
      ensures Valid()
      ensures var r := Poll(old(queue), buf.Length);
              && queue == r.queue && status == AsStatus(r.reply)
              && |Encodings(r.written)| <= buf.Length
              && buf[..|Encodings(r.written)|] == Encodings(r.written)
              && buf[|Encodings(r.written)|..] == old(buf[|Encodings(r.written)|..])
    {
      if records == [] && dropped == 0 && closed.None? {
        return 0;
      }
      var fits, start := WriteReport(buf);
      if !fits {
        return ERR_BUFFER_TOO_SMALL;
      }
      ghost var rest := buf[start..];
      status := WriteRecords(buf, start, queue);
      ghost var end := |Encodings(Poll(old(queue), buf.Length).written)|;
      assert buf[end..] == rest[end - start..];
    }

    /** Behind the report come the records that fit; without either the reply says why there is nothing. */
    method WriteRecords(buf: array<byte>, start: nat, ghost q: Queue) returns (status: int)
      requires dropped == 0 && closed == q.closed && maxBytes == q.maxBytes
      requires bytes == Total(q.entries) && AreRecords(records, q.entries)
      requires q.entries != [] || q.dropped != 0 || q.closed.Some?
      requires start == Total(Report(q.dropped)) <= buf.Length && buf[..start] == Encodings(Report(q.dropped))
      modifies this, buf
      ensures Valid()
      ensures var r := Poll(q, buf.Length);
              && queue == r.queue && status == AsStatus(r.reply)
              && start <= |Encodings(r.written)| <= buf.Length
              && buf[..|Encodings(r.written)|] == Encodings(r.written)
              && buf[|Encodings(r.written)|..] == old(buf[|Encodings(r.written)|..])
    {
      hide Poll, Encodings, Fitting;
      ghost var n := Fitting(q.entries, buf.Length - start);
      var written := TakeRecords(buf, start, q.entries);
      PollWrites(q, buf.Length, start, n);
      assert buf[..written] == buf[..][..written] && buf[written..] == buf[..][written..];
      queue := Poll(q, buf.Length).queue;
      if written == 0 && records != [] {
        return ERR_BUFFER_TOO_SMALL;
      }
      if written == 0 && closed.Some? {
        return closed.value;
      }
      return AsStatus(Wrote(written));
    }
  }

  /** What poll does when there is something and the report fits. */
  lemma PollWrites(q: Queue, room: nat, start: nat, n: nat)
    requires q.entries != [] || q.dropped != 0 || q.closed.Some?
    requires start == Total(Report(q.dropped)) <= room && n == Fitting(q.entries, room - start)
    ensures var r, count := Poll(q, room), start + Total(q.entries[..n]);
            && Encodings(r.written) == Encodings(Report(q.dropped)) + Encodings(q.entries[..n])
            && |Encodings(r.written)| == count
            && (count == 0 ==> q.dropped == 0 && r.queue == q && n == 0)
            && (count != 0 ==> r.queue.entries == q.entries[n..] && r.queue.dropped == 0)
            && r.queue.closed == q.closed && r.queue.maxBytes == q.maxBytes
            && r.reply == (if count != 0 then Wrote(count)
                           else if q.entries != [] then TooSmall
                           else Closed(q.closed.value))
  {
    EncodingsOfConcat(Report(q.dropped), q.entries[..n]);
    var written := Report(q.dropped) + q.entries[..n];
    if written == [] {
      assert Report(q.dropped) == [] && q.entries[..n] == [];
    }
  }
}
