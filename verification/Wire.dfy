/** The RPC frames: version, delegation, and for a request the protocol name, then the payload. */
module Wire {
  import opened Types
  import opened Codec
  import Delegations

  const DELEGATION_BYTES := Delegations.DELEGATION_BYTES
  const VERSION: byte := 1

  datatype Request = Request(delegation: Bytes, protocol: Bytes, payload: Bytes)

  datatype Response = Response(delegation: Bytes, payload: Bytes)

  /** What the source asserts of the arguments of the request encoder; a str is UTF-8 by type. */
  predicate WellFormed(prims: Primitives, r: Request) {
    |r.delegation| == DELEGATION_BYTES && 1 <= |r.protocol| <= 255 && prims.utf8(r.protocol)
  }

  /** The name's length is cut to a byte, as the source's cast does. */
  function EncodeRequest(delegation: Bytes, protocol: Bytes, payload: Bytes): Bytes {
    [VERSION] + delegation + [(|protocol| % 256) as byte] + protocol + payload
  }

  function EncodeResponse(delegation: Bytes, payload: Bytes): Bytes {
    [VERSION] + delegation + payload
  }

  function DecodeRequest(prims: Primitives, frame: Bytes): Option<Request> {
    if frame == [] then None
    else
      var rest := frame[1..];
      if frame[0] != VERSION || |rest| < DELEGATION_BYTES + 1 then None
      else
        var nameLen := rest[DELEGATION_BYTES] as nat;
        var tail := rest[DELEGATION_BYTES + 1..];
        if nameLen == 0 || |tail| < nameLen then None
        else if !prims.utf8(tail[..nameLen]) then None
        else Some(Request(rest[..DELEGATION_BYTES], tail[..nameLen], tail[nameLen..]))
  }

  function DecodeResponse(frame: Bytes): Option<Response> {
    if frame == [] then None
    else
      var rest := frame[1..];
      if frame[0] != VERSION || |rest| < DELEGATION_BYTES then None
      else Some(Response(rest[..DELEGATION_BYTES], rest[DELEGATION_BYTES..]))
  }

  // -------- the encoders append to a growing buffer

  method WriteRequest(delegation: Bytes, protocol: Bytes, payload: Bytes) returns (out: Bytes)
    ensures out == EncodeRequest(delegation, protocol, payload)
  {
    out := [];
    out := out + [VERSION];
    out := out + delegation;
    out := out + [(|protocol| % 256) as byte];
    out := out + protocol;
    out := out + payload;
  }

  method WriteResponse(delegation: Bytes, payload: Bytes) returns (out: Bytes)
    ensures out == EncodeResponse(delegation, payload)
  {
    out := [];
    out := out + [VERSION];
    out := out + delegation;
    out := out + payload;
  }

  // -------- decoding and encoding are inverses

  /**
    * Encoding then decoding gives back the parts exactly when they are well formed: a name of
    * 256 bytes or more, an empty one, or a delegation of another length comes back changed or not at all.
    */
  lemma RequestRoundTrip(prims: Primitives, r: Request)
    ensures DecodeRequest(prims, EncodeRequest(r.delegation, r.protocol, r.payload)) == Some(r)
            <==> WellFormed(prims, r)
  {
    var frame := EncodeRequest(r.delegation, r.protocol, r.payload);
    if WellFormed(prims, r) {
      var rest := frame[1..];
      assert rest[..DELEGATION_BYTES] == r.delegation;
      assert rest[DELEGATION_BYTES] as nat == |r.protocol|;
      var tail := rest[DELEGATION_BYTES + 1..];
      assert tail == r.protocol + r.payload;
      assert tail[..|r.protocol|] == r.protocol && tail[|r.protocol|..] == r.payload;
    } else {
      DecodedRequestIsWellFormed(prims, frame);
    }
  }

  lemma DecodedRequestIsWellFormed(prims: Primitives, frame: Bytes)
    ensures DecodeRequest(prims, frame).Some? ==> WellFormed(prims, DecodeRequest(prims, frame).value)
  {
  }

  /** A frame that decodes is the one frame of its parts. */
  lemma RequestFrameRoundTrip(prims: Primitives, frame: Bytes)
    requires DecodeRequest(prims, frame).Some?
    ensures var r := DecodeRequest(prims, frame).value;
            WellFormed(prims, r) && EncodeRequest(r.delegation, r.protocol, r.payload) == frame
  {
    var r := DecodeRequest(prims, frame).value;
    FrameParts(frame, DELEGATION_BYTES, |r.protocol|);
  }

  /** A frame is its first byte, `d` bytes, one more byte, `n` bytes, and the rest. */
  lemma FrameParts(frame: Bytes, d: nat, n: nat)
    requires |frame| >= d + 2 + n
    ensures var rest := frame[1..];
            var tail := rest[d + 1..];
            frame == [frame[0]] + rest[..d] + [rest[d]] + tail[..n] + tail[n..]
  {
    var rest := frame[1..];
    var tail := rest[d + 1..];
    assert tail == tail[..n] + tail[n..];
    assert rest == rest[..d] + [rest[d]] + tail;
    assert frame == [frame[0]] + rest;
  }

  lemma ResponseRoundTrip(delegation: Bytes, payload: Bytes)
    ensures DecodeResponse(EncodeResponse(delegation, payload)) == Some(Response(delegation, payload))
            <==> |delegation| == DELEGATION_BYTES
  {
    var rest := EncodeResponse(delegation, payload)[1..];
    assert rest == delegation + payload;
    if |delegation| == DELEGATION_BYTES {
      assert rest[..DELEGATION_BYTES] == delegation && rest[DELEGATION_BYTES..] == payload;
    }
  }

  lemma ResponseFrameRoundTrip(frame: Bytes)
    requires DecodeResponse(frame).Some?
    ensures var r := DecodeResponse(frame).value;
            |r.delegation| == DELEGATION_BYTES && EncodeResponse(r.delegation, r.payload) == frame
  {
    var rest := frame[1..];
    assert frame == [frame[0]] + rest;
    assert rest == rest[..DELEGATION_BYTES] + rest[DELEGATION_BYTES..];
  }

  /** A delegation survives the trip through a frame, in both directions of the conversation. */
  lemma DelegationSurvivesFrames(prims: Primitives, d: Delegations.Delegation, protocol: Bytes, payload: Bytes)
    requires 1 <= |protocol| <= 255 && prims.utf8(protocol)
    ensures var request := DecodeRequest(prims, EncodeRequest(Delegations.ToBytes(d), protocol, payload));
            && request.Some?
            && Delegations.Parse(request.value.delegation) == Delegations.Ok(d)
            && request.value.protocol == protocol && request.value.payload == payload
    ensures var response := DecodeResponse(EncodeResponse(Delegations.ToBytes(d), payload));
            && response.Some?
            && Delegations.Parse(response.value.delegation) == Delegations.Ok(d)
            && response.value.payload == payload
  {
    RequestRoundTrip(prims, Request(Delegations.ToBytes(d), protocol, payload));
    ResponseRoundTrip(Delegations.ToBytes(d), payload);
    Delegations.ParseOfBytes(d);
  }

  // -------- the bound on what is read from a stream

  /** The frame overhead the source adds to both payload limits. */
  const OVERHEAD: nat := 2 + DELEGATION_BYTES + 255

  /** Everything up to the limit, or nothing: a frame over it is an error. */
  function ReadBounded(stream: Bytes, max: nat): Option<Bytes> {
    var taken := if |stream| <= max + 1 then stream else stream[..max + 1];
    if |taken| > max then None else Some(taken)
  }

  /** Nothing is ever cut: what is read is the whole stream, and it is read exactly when it fits. */
  lemma ReadingIsAllOrNothing(stream: Bytes, max: nat)
    ensures ReadBounded(stream, max) == if |stream| <= max then Some(stream) else None
  {
  }

  /** A reply payload is read exactly up to the configured maximum and 256 bytes more. */
  lemma ReplyPayloadBound(delegation: Bytes, payload: Bytes, maxResponse: nat)
    requires |delegation| == DELEGATION_BYTES
    ensures (exists frame :: ReadBounded(EncodeResponse(delegation, payload), maxResponse + OVERHEAD) == Some(frame)
                             && DecodeResponse(frame) == Some(Response(delegation, payload)))
            <==> |payload| <= maxResponse + 256
  {
    var frame := EncodeResponse(delegation, payload);
    assert |frame| == 1 + DELEGATION_BYTES + |payload|;
    ReadingIsAllOrNothing(frame, maxResponse + OVERHEAD);
    ResponseRoundTrip(delegation, payload);
  }
}
