/**
  * Whatever is pushed and however it is polled: no event is lost unsaid, and what the caller reads is what was
  * pushed.
  */
module QueueRuns {
  import opened Types
  import opened Records
  import opened EventQueues

  datatype Op =
    | Pushing(e: Entry)
    | Closing(status: int)
    | Polling(room: nat)

  function Apply(q: Queue, op: Op): Queue {
    match op
    case Pushing(e) => Push(q, e)
    case Closing(status) => Close(q, status)
    case Polling(room) => Poll(q, room).queue
  }

  function After(q: Queue, ops: seq<Op>): Queue
    decreases |ops|
  {
    if ops == [] then q else After(Apply(q, ops[0]), ops[1..])
  }

  /** The bytes handed out by each poll of the run. */
  function Outputs(q: Queue, ops: seq<Op>): seq<Bytes>
    decreases |ops|
  {
    if ops == [] then []
    else
      (if ops[0].Polling? then [Encodings(Poll(q, ops[0].room).written)] else [])
      + Outputs(Apply(q, ops[0]), ops[1..])
  }

  /** What a caller reads who walks each buffer it got. */
  function ReadAll(outputs: seq<Bytes>): seq<Entry> {
    if outputs == [] then []
    else
      (match Walk(outputs[0])
       case Some(w) => w.entries
       case None => [])
      + ReadAll(outputs[1..])
  }

  // -------- reports and events

  function Others(es: seq<Entry>): seq<Entry> {
    Filter(es, (e: Entry) => e.kind != EV_OVERFLOW)
  }

  /** The sum of all reported counts. */
  function Counts(es: seq<Entry>): nat {
    if es == [] then 0
    else Counts(es[..|es| - 1]) + (if es[|es| - 1].kind == EV_OVERFLOW then es[|es| - 1].id else 0)
  }

  ghost predicate NoReports(es: seq<Entry>) {
    forall i :: 0 <= i < |es| ==> es[i].kind != EV_OVERFLOW
  }

  lemma {:induction false} CountsOfConcat(a: seq<Entry>, b: seq<Entry>)
    ensures Counts(a + b) == Counts(a) + Counts(b)
  {
    if b == [] {
      assert a + b == a;
    } else {
      assert (a + b)[..|a + b| - 1] == a + b[..|b| - 1];
      CountsOfConcat(a, b[..|b| - 1]);
    }
  }

  lemma {:induction false} OnlyEvents(es: seq<Entry>)
    requires NoReports(es)
    ensures Others(es) == es && Counts(es) == 0
  {
    if es != [] {
      OnlyEvents(es[..|es| - 1]);
    }
  }

  lemma OnlyReport(dropped: nat)
    ensures Others(Report(dropped)) == []
    ensures dropped < 0x1_0000_0000_0000_0000 ==> Counts(Report(dropped)) == dropped
  {
    if dropped > 0 {
      LastOfOthers(Report(dropped));
      assert Report(dropped)[..0] == [];
    }
  }

  lemma LastOfOthers(es: seq<Entry>)
    requires es != []
    ensures var last := es[|es| - 1];
            Others(es) == Others(es[..|es| - 1]) + (if last.kind == EV_OVERFLOW then [] else [last])
  {
  }

  lemma ReportAndEvents(dropped: nat, es: seq<Entry>)
    requires NoReports(es)
    ensures Others(Report(dropped) + es) == es
    ensures dropped < 0x1_0000_0000_0000_0000 ==> Counts(Report(dropped) + es) == dropped
  {
    hide Filter, Counts, Report, NoReports;
    OnlyEvents(es);
    OnlyReport(dropped);
    FilterOfConcat(Report(dropped), es, (e: Entry) => e.kind != EV_OVERFLOW);
    CountsOfConcat(Report(dropped), es);
    assert [] + es == es;
  }

  // -------- what every operation keeps

  ghost predicate Kept(q: Queue) {
    && q.accepted == Others(q.delivered) + q.entries
    && (q.rejected < 0x1_0000_0000_0000_0000 ==> Counts(q.delivered) + q.dropped == q.rejected)
    && q.dropped <= q.rejected
    && Total(q.entries) <= q.maxBytes
    && NoReports(q.entries)
  }

  lemma PushKeeps(q: Queue, e: Entry)
    requires Kept(q) && e.kind != EV_OVERFLOW
    ensures Kept(Push(q, e))
  {
    EncodingsOfConcat(q.entries, [e]);
    assert Encodings([e]) == Encode(e);
    assert Others(q.delivered) + (q.entries + [e]) == q.accepted + [e] by {
      assert (Others(q.delivered) + q.entries) + [e] == Others(q.delivered) + (q.entries + [e]);
    }
  }

  /** The queue after a poll that handed out the report and the first `n` events. */
  function Taken(q: Queue, n: nat): Queue
    requires n <= |q.entries|
  {
    q.(entries := q.entries[n..], dropped := 0, delivered := q.delivered + (Report(q.dropped) + q.entries[..n]))
  }

  lemma WroteShape(q: Queue, room: nat) returns (n: nat)
    requires Poll(q, room).reply.Wrote?
    ensures n <= |q.entries|
    ensures var r := Poll(q, room);
            && r.written == Report(q.dropped) + q.entries[..n] != []
            && r.queue == Taken(q, n) && r.reply == Wrote(|Encodings(r.written)|)
  {
    n := Fitting(q.entries, room - Total(Report(q.dropped)));
  }

  lemma TakenKeeps(q: Queue, n: nat)
    requires Kept(q) && n <= |q.entries|
    ensures Kept(Taken(q, n))
  {
    hide Filter, Counts, Report, Encodings;
    var taken, left := q.entries[..n], q.entries[n..];
    assert q.entries == taken + left;
    ReportAndEvents(q.dropped, taken);
    FilterOfConcat(q.delivered, Report(q.dropped) + taken, (e: Entry) => e.kind != EV_OVERFLOW);
    CountsOfConcat(q.delivered, Report(q.dropped) + taken);
    assert Others(q.delivered) + (taken + left) == (Others(q.delivered) + taken) + left;
    EncodingsOfConcat(taken, left);
  }

  lemma PollKeeps(q: Queue, room: nat)
    requires Kept(q)
    ensures Kept(Poll(q, room).queue)
  {
    if Poll(q, room).reply.Wrote? {
      var n := WroteShape(q, room);
      TakenKeeps(q, n);
    }
  }

  lemma ApplyKeeps(q: Queue, op: Op)
    requires Kept(q) && (op.Pushing? ==> op.e.kind != EV_OVERFLOW)
    ensures Kept(Apply(q, op))
  {
    match op
    case Pushing(e) => PushKeeps(q, e);
    case Closing(_) =>
    case Polling(room) => PollKeeps(q, room);
  }

  /** Only the queue itself makes overflow records. */
  ghost predicate PushesEvents(ops: seq<Op>) {
    forall i :: 0 <= i < |ops| && ops[i].Pushing? ==> ops[i].e.kind != EV_OVERFLOW
  }

  lemma {:induction false} RunKeeps(q: Queue, ops: seq<Op>)
    requires Kept(q) && PushesEvents(ops)
    ensures Kept(After(q, ops))
    decreases |ops|
  {
    if ops != [] {
      ApplyKeeps(q, ops[0]);
      assert forall i :: 0 <= i < |ops[1..]| ==> ops[1..][i] == ops[i + 1];
      RunKeeps(Apply(q, ops[0]), ops[1..]);
    }
  }

  // -------- what the caller gets

  /** Every record fits a 32-bit size when the buffer's length does. */
  lemma {:induction false} FitsItsBuffer(es: seq<Entry>)
    requires |Encodings(es)| < 0x1_0000_0000
    ensures Representable(es)
  {
    if es != [] {
      FitsItsBuffer(es[1..]);
      forall i | 0 <= i < |es|
        ensures |Encode(es[i])| < 0x1_0000_0000
      {
        if i > 0 {
          assert es[i] == es[1..][i - 1];
        }
      }
    }
  }

  lemma PollFits(q: Queue, room: nat)
    ensures |Encodings(Poll(q, room).written)| <= room
  {
    var report := Report(q.dropped);
    if Total(report) <= room {
      var n := Fitting(q.entries, room - Total(report));
      FittingFits(q.entries, room - Total(report));
      EncodingsOfConcat(report, q.entries[..n]);
    }
  }

  /**
    * Walking what a poll wrote recovers exactly the overflow report, if one was due, and the events taken from
    * the queue, and ends exactly at the count returned.
    */
  lemma WalkOfPoll(q: Queue, room: nat)
    requires room < 0x8000_0000 && Poll(q, room).reply.Wrote?
    ensures var r := Poll(q, room);
            && AsStatus(r.reply) > 0
            && Walk(Encodings(r.written)) == Some(Walked(r.written, AsStatus(r.reply)))
            && exists n :: 0 <= n <= |q.entries| && r.queue == Taken(q, n)
                           && r.written == Report(q.dropped) + q.entries[..n]
  {
    hide Poll, Walk, Encodings, Encode;
    var r := Poll(q, room);
    var n := WroteShape(q, room);
    PollFits(q, room);
    FitsItsBuffer(r.written);
    WalkRecovers(r.written);
    NotEmpty(r.written);
    assert r.written == Report(q.dropped) + q.entries[..n] && r.queue == Taken(q, n);
  }

  lemma NotEmpty(es: seq<Entry>)
    requires es != []
    ensures |Encodings(es)| >= |Encode(es[0])| >= HEADER_BYTES
  {
    assert Encodings(es) == Encode(es[0]) + Encodings(es[1..]);
  }

  /** When a poll answers what: each reply stands for exactly one situation. */
  lemma PollReplies(q: Queue, room: nat)
    ensures var r := Poll(q, room);
            var first := Report(q.dropped) + q.entries;
            && (r.reply.Nothing? <==> first == [] && q.closed.None?)
            && (r.reply.Closed? <==> first == [] && q.closed.Some?)
            && (r.reply.Closed? ==> q.closed == Some(r.reply.status))
            && (r.reply.TooSmall? <==> first != [] && |Encode(first[0])| > room)
            && (!r.reply.Wrote? ==> r.queue == q && r.written == [])
            && (r.reply.Wrote? ==> r.reply.count == |Encodings(r.written)| > 0
                                   && (r.queue.entries != [] ==>
                                         r.reply.count + |Encode(r.queue.entries[0])| > room))
  {
    hide Encodings, Encode, Fitting;
    var report := Report(q.dropped);
    ReportSize(q.dropped);
    if Total(report) <= room {
      var n := Fitting(q.entries, room - Total(report));
      FittingFits(q.entries, room - Total(report));
      EncodingsOfConcat(report, q.entries[..n]);
      var written := report + q.entries[..n];
      if written != [] {
        NotEmpty(written);
      }
      if n > 0 {
        NotEmpty(q.entries[..n]);
      } else {
        assert q.entries[..n] == [];
      }
    }
  }

  lemma ReportSize(dropped: nat)
    ensures Total(Report(dropped)) == if dropped > 0 then |Encode(Overflow(dropped))| else 0
  {
    assert dropped > 0 ==> Encodings(Report(dropped)) == Encode(Overflow(dropped)) + Encodings(Report(dropped)[1..]);
  }

  lemma {:induction false} OutputsAreDelivered(q: Queue, ops: seq<Op>)
    requires forall i :: 0 <= i < |ops| && ops[i].Polling? ==> ops[i].room < 0x8000_0000
    ensures After(q, ops).delivered == q.delivered + ReadAll(Outputs(q, ops))
    decreases |ops|
  {
    hide Poll, Walk, Encodings;
    if ops != [] {
      var q', rest := Apply(q, ops[0]), ops[1..];
      assert forall i :: 0 <= i < |rest| ==> rest[i] == ops[i + 1];
      OutputsAreDelivered(q', rest);
      if ops[0].Polling? {
        OnePollDelivers(q, ops[0].room);
        ReadFirst(Poll(q, ops[0].room).written, Outputs(q', rest));
      } else {
        assert [] + Outputs(q', rest) == Outputs(q', rest);
      }
    }
  }

  lemma ReadFirst(written: seq<Entry>, more: seq<Bytes>)
    requires Walk(Encodings(written)).Some? && Walk(Encodings(written)).value.entries == written
    ensures ReadAll([Encodings(written)] + more) == written + ReadAll(more)
  {
    assert ([Encodings(written)] + more)[1..] == more;
  }

  lemma OnePollDelivers(q: Queue, room: nat)
    requires room < 0x8000_0000
    ensures var r := Poll(q, room);
            && r.queue.delivered == q.delivered + r.written
            && Walk(Encodings(r.written)) == Some(Walked(r.written, |Encodings(r.written)|))
  {
    PollFits(q, room);
    FitsItsBuffer(Poll(q, room).written);
    WalkRecovers(Poll(q, room).written);
  }

  /**
    * Over any run from an empty queue, with buffers of any size an int32 can count: the events the caller reads,
    * followed by those still queued, are the accepted ones in order; the counts it reads and the one still
    * pending add up to the rejected pushes; the queue never holds more than its bound.
    */
  lemma Conservation(maxBytes: nat, ops: seq<Op>)
    requires PushesEvents(ops)
    requires forall i :: 0 <= i < |ops| && ops[i].Polling? ==> ops[i].room < 0x8000_0000
    ensures var q := After(Empty(maxBytes), ops);
            var read := ReadAll(Outputs(Empty(maxBytes), ops));
            && Others(read) + q.entries == q.accepted
            && Encodings(Others(read)) + Encodings(q.entries) == Encodings(q.accepted)
            && (q.rejected < 0x1_0000_0000_0000_0000 ==> Counts(read) + q.dropped == q.rejected)
            && |Encodings(q.entries)| <= q.maxBytes == maxBytes
  {
    var q := After(Empty(maxBytes), ops);
    RunKeeps(Empty(maxBytes), ops);
    OutputsAreDelivered(Empty(maxBytes), ops);
    EncodingsOfConcat(Others(q.delivered), q.entries);
    BoundStays(Empty(maxBytes), ops);
    assert [] + ReadAll(Outputs(Empty(maxBytes), ops)) == ReadAll(Outputs(Empty(maxBytes), ops));
  }

  lemma {:induction false} BoundStays(q: Queue, ops: seq<Op>)
    ensures After(q, ops).maxBytes == q.maxBytes
    decreases |ops|
  {
    if ops != [] {
      BoundStays(Apply(q, ops[0]), ops[1..]);
    }
  }

  /** The events pushed over a run. */
  function Pushes(ops: seq<Op>): seq<Entry> {
    if ops == [] then []
    else (if ops[0].Pushing? then [ops[0].e] else []) + Pushes(ops[1..])
  }

  /** `part` is `all` with some left out. */
  ghost predicate LeavesOut(part: seq<Entry>, all: seq<Entry>)
    decreases |all|
  {
    if all == [] then part == []
    else
      || (part != [] && part[0] == all[0] && LeavesOut(part[1..], all[1..]))
      || LeavesOut(part, all[1..])
  }

  /** The pushes of a run that the queue had room for. */
  function Admitted(q: Queue, ops: seq<Op>): seq<Entry>
    decreases |ops|
  {
    if ops == [] then []
    else
      (if ops[0].Pushing? && HasRoom(q, ops[0].e) then [ops[0].e] else []) + Admitted(Apply(q, ops[0]), ops[1..])
  }

  predicate HasRoom(q: Queue, e: Entry) {
    Total(q.entries) + |Encode(e)| <= q.maxBytes
  }

  /**
    * Accepted are exactly the pushes there was room for, in the order they were made, and the others are counted
    * as rejected.
    */
  lemma {:induction false} EveryPushCounts(q: Queue, ops: seq<Op>)
    ensures After(q, ops).accepted == q.accepted + Admitted(q, ops)
    ensures LeavesOut(Admitted(q, ops), Pushes(ops))
    ensures After(q, ops).rejected == q.rejected + |Pushes(ops)| - |Admitted(q, ops)|
    decreases |ops|
  {
    AdmittedWerePushed(q, ops);
    hide Apply, HasRoom, LeavesOut;
    if ops == [] {
      assert q.accepted + [] == q.accepted;
    } else {
      var m, rest := Apply(q, ops[0]), ops[1..];
      EveryPushCounts(m, rest);
      OneOp(q, ops[0]);
      if ops[0].Pushing? && HasRoom(q, ops[0].e) {
        assert m.accepted + Admitted(m, rest) == q.accepted + ([ops[0].e] + Admitted(m, rest));
      } else {
        assert [] + Admitted(m, rest) == Admitted(m, rest);
      }
    }
  }

  lemma {:induction false} AdmittedWerePushed(q: Queue, ops: seq<Op>)
    ensures LeavesOut(Admitted(q, ops), Pushes(ops))
    decreases |ops|
  {
    hide Apply, HasRoom;
    if ops != [] {
      var m, rest := Apply(q, ops[0]), ops[1..];
      AdmittedWerePushed(m, rest);
      if ops[0].Pushing? {
        assert ([ops[0].e] + Pushes(rest))[1..] == Pushes(rest);
        assert ([ops[0].e] + Admitted(m, rest))[1..] == Admitted(m, rest);
      } else {
        assert [] + Pushes(rest) == Pushes(rest);
      }
      assert [] + Admitted(m, rest) == Admitted(m, rest);
    }
  }

  lemma OneOp(q: Queue, op: Op)
    ensures var m := Apply(q, op);
            if !op.Pushing? then m.accepted == q.accepted && m.rejected == q.rejected
            else if HasRoom(q, op.e) then m.accepted == q.accepted + [op.e] && m.rejected == q.rejected
            else m.accepted == q.accepted && m.rejected == q.rejected + 1
  {
    hide Encode, Encodings;
  }

  // -------- the end

  function FirstClose(ops: seq<Op>): Option<int> {
    if ops == [] then None
    else if ops[0].Closing? then Some(ops[0].status)
    else FirstClose(ops[1..])
  }

  lemma {:induction false} FirstCloseStays(q: Queue, ops: seq<Op>)
    ensures After(q, ops).closed == if q.closed.Some? then q.closed else FirstClose(ops)
    decreases |ops|
  {
    if ops != [] {
      FirstCloseStays(Apply(q, ops[0]), ops[1..]);
    }
  }

  /** A poll answers the first status the queue was closed with, exactly when it is drained and owes no report. */
  lemma ClosedWhenDrained(maxBytes: nat, ops: seq<Op>, room: nat)
    requires FirstClose(ops).Some?
    ensures var q := After(Empty(maxBytes), ops);
            var reply := Poll(q, room).reply;
            && (reply.Closed? <==> q.entries == [] && q.dropped == 0)
            && (reply.Closed? ==> reply.status == FirstClose(ops).value)
  {
    FirstCloseStays(Empty(maxBytes), ops);
    PollReplies(After(Empty(maxBytes), ops), room);
  }
}
