/** A reply on its way from the wire to the caller's buffer. */
module ReplyRecords {
  import opened Types
  import opened Codec
  import opened Records
  import opened EventQueues
  import opened QueueRuns
  import Wire

  /** The buffer the interface asks for: the largest payload, a header and 8 bytes. */
  function DocumentedRoom(maxResponse: nat): nat {
    maxResponse + HEADER_BYTES + 8
  }

  /** The record of a payload fits that buffer exactly when the payload, padded, is at most 8 bytes over the maximum. */
  lemma FitsExactlyWhen(e: Entry, maxResponse: nat)
    ensures |Encode(e)| <= DocumentedRoom(maxResponse) <==> (|e.data| + 7) / 8 * 8 <= maxResponse + 8
    ensures |e.data| <= maxResponse + 1 ==> |Encode(e)| <= DocumentedRoom(maxResponse)
  {
  }

  /** A poll that answers "too small" changes nothing: the same call gets the same answer until the buffer grows. */
  lemma {:induction false} TooSmallStays(q: Queue, room: nat, smaller: seq<nat>)
    requires Poll(q, room).reply == TooSmall && forall i :: 0 <= i < |smaller| ==> smaller[i] <= room
    ensures PollAll(q, smaller) == q
  {
    if smaller != [] {
      PollReplies(q, room);
      PollReplies(q, smaller[0]);
      TooSmallStays(q, room, smaller[1..]);
    }
  }

  function PollAll(q: Queue, rooms: seq<nat>): Queue
    decreases |rooms|
  {
    if rooms == [] then q else PollAll(Poll(q, rooms[0]).queue, rooms[1..])
  }

  /**
    * The wire lets a reply through whose payload is 256 bytes over the maximum; its record does not fit the
    * documented buffer, and polling with that buffer answers "too small" and leaves the queue as it is.
    */
  lemma ReplyOutgrowsTheBuffer(delegation: Bytes, payload: Bytes, maxResponse: nat, e: Entry, q: Queue)
    requires |delegation| == Wire.DELEGATION_BYTES && |payload| == maxResponse + 256
    requires e.data == payload && q.entries == [e] && q.dropped == 0
    ensures Wire.ReadBounded(Wire.EncodeResponse(delegation, payload), maxResponse + Wire.OVERHEAD)
            == Some(Wire.EncodeResponse(delegation, payload))
    ensures Wire.DecodeResponse(Wire.EncodeResponse(delegation, payload)) == Some(Wire.Response(delegation, payload))
    ensures Poll(q, DocumentedRoom(maxResponse)) == Polled(q, [], TooSmall)
  {
    Wire.ReadingIsAllOrNothing(Wire.EncodeResponse(delegation, payload), maxResponse + Wire.OVERHEAD);
    Wire.ResponseRoundTrip(delegation, payload);
    FitsExactlyWhen(e, maxResponse);
    PollReplies(q, DocumentedRoom(maxResponse));
  }
}
