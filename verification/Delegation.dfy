/** Signed membership of a node in a group, with an expiry, in 136 bytes. */
module Delegations {
  import opened Types
  import opened Codec

  const DELEGATION_BYTES: nat := 136

  // "libp2p-ffi delegation v1"
  const CONTEXT: Bytes := [
    108, 105, 98, 112, 50, 112, 45, 102, 102, 105, 32,
    100, 101, 108, 101, 103, 97, 116, 105, 111, 110, 32, 118, 49]

  type U64 = x: nat | x < 0x1_0000_0000_0000_0000

  type Signature = s: Bytes | |s| == 64 witness seq(64, i => 0)

  datatype Delegation = Delegation(node: Key, group: Key, expiresMs: U64, signature: Signature)

  datatype Invalid = Length | GroupKey | BadSignature | Expired | WrongNode

  datatype Parsed = Ok(delegation: Delegation) | Err(reason: Invalid)

  datatype Verdict = Valid | Refused(reason: Invalid)

  /** What the group key signs. */
  function Message(node: Key, group: Key, expiresMs: U64): Bytes {
    CONTEXT + node + group + ToBig(expiresMs, 8)
  }

  function ToBytes(d: Delegation): (out: Bytes)
    ensures |out| == DELEGATION_BYTES
  {
    d.node + d.group + ToBig(d.expiresMs, 8) + d.signature
  }

  function Parse(bytes: Bytes): Parsed {
    if |bytes| != DELEGATION_BYTES then Err(Length)
    else Ok(Delegation(bytes[..32], bytes[32..64], ReadU64(bytes[64..72]), bytes[72..136]))
  }

  function ReadU64(s: Bytes): U64
    requires |s| == 8
  {
    BigBytesRoundTrip(s);
    Widths();
    FromBig(s)
  }

  function Verify(prims: Primitives, d: Delegation, nowMs: nat): Verdict {
    if !prims.publicKey(d.group) then Refused(GroupKey)
    else if !prims.signed(d.group, Message(d.node, d.group, d.expiresMs), d.signature) then Refused(BadSignature)
    else if d.expiresMs != 0 && d.expiresMs <= nowMs then Refused(Expired)
    else Valid
  }

  function VerifyFor(prims: Primitives, d: Delegation, node: Key, nowMs: nat): Verdict {
    var verdict := Verify(prims, d, nowMs);
    if verdict.Refused? then verdict
    else if d.node != node then Refused(WrongNode)
    else Valid
  }

  // -------- the buffers the source fills

  method WriteMessage(node: Key, group: Key, expiresMs: U64) returns (msg: Bytes)
    ensures msg == Message(node, group, expiresMs)
  {
    msg := [];
    msg := msg + CONTEXT;
    msg := msg + node;
    msg := msg + group;
    msg := msg + ToBig(expiresMs, 8);
  }

  method WriteBytes(d: Delegation) returns (out: array<byte>)
    ensures fresh(out) && out[..] == ToBytes(d)
  {
    out := new byte[DELEGATION_BYTES](i => 0);
    var expires := ToBig(d.expiresMs, 8);
    forall i | 0 <= i < 32 { out[i] := d.node[i]; }
    forall i | 32 <= i < 64 { out[i] := d.group[i - 32]; }
    forall i | 64 <= i < 72 { out[i] := expires[i - 64]; }
    forall i | 72 <= i < 136 { out[i] := d.signature[i - 72]; }
  }

  // -------- parse and to_bytes are inverses

  lemma FourParts(a: Bytes, b: Bytes, c: Bytes, d: Bytes)
    requires |a| == 32 && |b| == 32 && |c| == 8 && |d| == 64
    ensures var s := a + b + c + d;
            s[..32] == a && s[32..64] == b && s[64..72] == c && s[72..136] == d
  {
  }

  lemma ExpiryRoundTrip(expiresMs: U64)
    ensures ReadU64(ToBig(expiresMs, 8)) == expiresMs
  {
    BigRoundTrip(expiresMs, 8);
    Widths();
    RemainderIsUnique(expiresMs, Pow256(8), 0, expiresMs);
  }

  lemma ParseOfBytes(d: Delegation)
    ensures Parse(ToBytes(d)) == Ok(d)
  {
    hide ToBig, ReadU64;
    FourParts(d.node, d.group, ToBig(d.expiresMs, 8), d.signature);
    ExpiryRoundTrip(d.expiresMs);
  }

  /** Parsing accepts exactly the inputs of the right length, and loses nothing of them. */
  lemma BytesOfParse(bytes: Bytes)
    ensures Parse(bytes).Ok? <==> |bytes| == DELEGATION_BYTES
    ensures Parse(bytes).Ok? ==> ToBytes(Parse(bytes).delegation) == bytes
    ensures Parse(bytes).Err? ==> Parse(bytes).reason == Length
  {
    if |bytes| == DELEGATION_BYTES {
      BigBytesRoundTrip(bytes[64..72]);
      assert bytes == bytes[..32] + bytes[32..64] + bytes[64..72] + bytes[72..136];
    }
  }

  /** A signature can stand for one node, one group and one expiry only. */
  lemma MessageIsInjective(n1: Key, g1: Key, e1: U64, n2: Key, g2: Key, e2: U64)
    requires Message(n1, g1, e1) == Message(n2, g2, e2)
    ensures n1 == n2 && g1 == g2 && e1 == e2
  {
    var a, b := Message(n1, g1, e1), Message(n2, g2, e2);
    var signature: Signature := seq(64, i => 0);
    assert a[|CONTEXT|..] + signature == ToBytes(Delegation(n1, g1, e1, signature));
    assert b[|CONTEXT|..] + signature == ToBytes(Delegation(n2, g2, e2, signature));
    ParseOfBytes(Delegation(n1, g1, e1, signature));
    ParseOfBytes(Delegation(n2, g2, e2, signature));
  }

  /** A delegation counts for a node exactly when the group key signed that node's key and it has not expired. */
  lemma AcceptedExactlyWhen(prims: Primitives, d: Delegation, node: Key, nowMs: nat)
    ensures VerifyFor(prims, d, node, nowMs) == Valid <==>
      && d.node == node
      && prims.publicKey(d.group)
      && prims.signed(d.group, Message(node, d.group, d.expiresMs), d.signature)
      && (d.expiresMs == 0 || nowMs < d.expiresMs)
  {
  }

  /** Time only takes validity away: what is refused now for any reason stays refused. */
  lemma RefusalIsFinal(prims: Primitives, d: Delegation, node: Key, nowMs: nat, laterMs: nat)
    requires nowMs <= laterMs && VerifyFor(prims, d, node, nowMs).Refused?
    ensures VerifyFor(prims, d, node, laterMs).Refused?
  {
  }
}
