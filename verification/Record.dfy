/** Events as bytes, little-endian: 88 bytes of header, the data, and zeros up to the next multiple of eight. */
module Records {
  import opened Types
  import opened Codec

  const HEADER_BYTES: nat := 88

  type U16 = x: nat | x < 0x1_0000
  type U64 = x: nat | x < 0x1_0000_0000_0000_0000

  datatype Entry = Entry(
    kind: U16, flags: U16, id: U64, group: Key, node: Key, protocol: U16, reason: U16, data: Bytes)

  /** The length of the record: the header and the data, rounded up to a multiple of 8. */
  function Size(e: Entry): (n: nat)
    ensures n % 8 == 0 && HEADER_BYTES + |e.data| <= n < HEADER_BYTES + |e.data| + 8
  {
    (HEADER_BYTES + |e.data| + 7) / 8 * 8
  }

  /** Both lengths are cut to 32 bits, as the source's casts do. */
  function Head(e: Entry): (h: Bytes)
    ensures |h| == HEADER_BYTES
  {
    ToLittle(e.kind, 2) + ToLittle(e.flags, 2) + ToLittle(Size(e), 4) + ToLittle(e.id, 8) + e.group + e.node
    + ToLittle(e.protocol, 2) + ToLittle(e.reason, 2) + ToLittle(|e.data|, 4)
  }

  function Zeros(n: nat): (z: Bytes)
    ensures |z| == n
  {
    seq(n, i => 0)
  }

  function Encode(e: Entry): (r: Bytes)
    ensures |r| == Size(e) && HEADER_BYTES <= |r|
  {
    Head(e) + e.data + Zeros(Size(e) - HEADER_BYTES - |e.data|)
  }

  /** The record as the source builds it, field by field. */
  method Build(e: Entry) returns (out: Bytes)
    ensures out == Encode(e)
  {
    var unpadded := HEADER_BYTES + |e.data|;
    var size := (unpadded + 7) / 8 * 8;
    out := ToLittle(e.kind, 2);
    out := out + ToLittle(e.flags, 2);
    out := out + ToLittle(size, 4);
    out := out + ToLittle(e.id, 8);
    out := out + e.group;
    out := out + e.node;
    out := out + ToLittle(e.protocol, 2);
    out := out + ToLittle(e.reason, 2);
    out := out + ToLittle(|e.data|, 4);
    out := out + e.data;
    while |out| < size
      invariant |out| <= size
      invariant out == Head(e) + e.data + Zeros(|out| - unpadded)
    {
      out := out + [0];
    }
  }

  // -------- how a caller reads records back

  datatype Lengths = Lengths(size: nat, dataLen: nat)

  function ReadLengths(s: Bytes): Lengths
    requires |s| >= HEADER_BYTES
  {
    Lengths(FromLittle(s[4..8]), FromLittle(s[84..88]))
  }

  function Read16(s: Bytes): U16
    requires |s| == 2
  {
    LittleBytesRoundTrip(s);
    Widths();
    FromLittle(s)
  }

  function Read64(s: Bytes): U64
    requires |s| == 8
  {
    LittleBytesRoundTrip(s);
    Widths();
    FromLittle(s)
  }

  function ReadEntry(s: Bytes, dataLen: nat): Entry
    requires |s| >= HEADER_BYTES + dataLen
  {
    Entry(Read16(s[..2]), Read16(s[2..4]), Read64(s[8..16]), s[16..48], s[48..80],
          Read16(s[80..82]), Read16(s[82..84]), s[88..88 + dataLen])
  }

  datatype Walked = Walked(entries: seq<Entry>, end: nat)

  /**
    * One record after the other by the sizes in their headers. It fails where the data of a record does not
    * lie within the buffer, and where a size is zero, which would never end.
    */
  function Walk(s: Bytes): Option<Walked>
    decreases |s|
  {
    if |s| < HEADER_BYTES then Some(Walked([], 0))
    else
      var n := ReadLengths(s);
      if HEADER_BYTES + n.dataLen > |s| || n.size == 0 then None
      else
        match Walk(if n.size < |s| then s[n.size..] else [])
        case Some(rest) => Some(Walked([ReadEntry(s, n.dataLen)] + rest.entries, n.size + rest.end))
        case None => None
  }

  // -------- reading gives back what was written

  lemma Written(v: nat, n: nat)
    requires v < Pow256(n)
    ensures FromLittle(ToLittle(v, n)) == v
  {
    LittleRoundTrip(v, n);
    RemainderIsUnique(v, Pow256(n), 0, v);
  }

  lemma HeadFields(e: Entry)
    ensures var h := Head(e);
            && h[..2] == ToLittle(e.kind, 2) && h[2..4] == ToLittle(e.flags, 2) && h[4..8] == ToLittle(Size(e), 4)
            && h[8..16] == ToLittle(e.id, 8) && h[16..48] == e.group && h[48..80] == e.node
            && h[80..82] == ToLittle(e.protocol, 2) && h[82..84] == ToLittle(e.reason, 2)
            && h[84..88] == ToLittle(|e.data|, 4)
  {
    var front := ToLittle(e.kind, 2) + ToLittle(e.flags, 2) + ToLittle(Size(e), 4) + ToLittle(e.id, 8);
    var back := ToLittle(e.protocol, 2) + ToLittle(e.reason, 2) + ToLittle(|e.data|, 4);
    FourParts(ToLittle(e.kind, 2), ToLittle(e.flags, 2), ToLittle(Size(e), 4), ToLittle(e.id, 8));
    FourParts(ToLittle(e.protocol, 2), ToLittle(e.reason, 2), ToLittle(|e.data|, 4), []);
    assert back + [] == back;
    HeadParts(front, e.group, e.node, back);
    assert Head(e) == front + e.group + e.node + back by {
      hide ToLittle;
    }
  }

  lemma FourParts(a: Bytes, b: Bytes, c: Bytes, d: Bytes)
    requires |a| == 2 && |b| == 2 && |c| == 4
    ensures var s := a + b + c + d;
            s[..2] == a && s[2..4] == b && s[4..8] == c && s[8..] == d
  {
  }

  lemma HeadParts(front: Bytes, group: Bytes, node: Bytes, back: Bytes)
    requires |front| == 16 && |group| == 32 && |node| == 32 && |back| == 8
    ensures var h := front + group + node + back;
            && h[..2] == front[..2] && h[2..4] == front[2..4] && h[4..8] == front[4..8] && h[8..16] == front[8..]
            && h[16..48] == group && h[48..80] == node
            && h[80..82] == back[..2] && h[82..84] == back[2..4] && h[84..88] == back[4..8]
  {
  }

  lemma ReadLengthsOf(e: Entry, s: Bytes)
    requires |s| >= HEADER_BYTES && s[..HEADER_BYTES] == Head(e)
    ensures ReadLengths(s) == Lengths(Size(e) % 0x1_0000_0000, |e.data| % 0x1_0000_0000)
  {
    HeadFields(e);
    assert s[4..8] == s[..HEADER_BYTES][4..8] && s[84..88] == s[..HEADER_BYTES][84..88];
    LittleRoundTrip(Size(e), 4);
    LittleRoundTrip(|e.data|, 4);
    Widths();
  }

  /** The size in the header is the length of the record exactly when that is below 2^32. */
  lemma HeaderSizeIsTrue(e: Entry)
    ensures ReadLengths(Encode(e)).size == |Encode(e)| <==> |Encode(e)| < 0x1_0000_0000
    ensures |Encode(e)| < 0x1_0000_0000 ==> ReadLengths(Encode(e)).dataLen == |e.data|
  {
    assert Encode(e)[..HEADER_BYTES] == Head(e);
    ReadLengthsOf(e, Encode(e));
  }

  lemma ReadEntryOf(e: Entry, s: Bytes)
    requires |s| >= HEADER_BYTES + |e.data| && s[..HEADER_BYTES] == Head(e)
    requires s[HEADER_BYTES..HEADER_BYTES + |e.data|] == e.data
    ensures ReadEntry(s, |e.data|) == e
  {
    var h := s[..HEADER_BYTES];
    HeadFields(e);
    assert s[..2] == h[..2] && s[2..4] == h[2..4] && s[8..16] == h[8..16] && s[16..48] == h[16..48];
    assert s[48..80] == h[48..80] && s[80..82] == h[80..82] && s[82..84] == h[82..84];
    Widths();
    Written(e.kind, 2);
    Written(e.flags, 2);
    Written(e.id, 8);
    Written(e.protocol, 2);
    Written(e.reason, 2);
  }

  function Encodings(es: seq<Entry>): Bytes {
    if es == [] then [] else Encode(es[0]) + Encodings(es[1..])
  }

  lemma {:induction false} EncodingsOfConcat(a: seq<Entry>, b: seq<Entry>)
    ensures Encodings(a + b) == Encodings(a) + Encodings(b)
  {
    if a == [] {
      assert a + b == b;
    } else {
      assert (a + b)[1..] == a[1..] + b;
      EncodingsOfConcat(a[1..], b);
    }
  }

  ghost predicate Representable(es: seq<Entry>) {
    forall i :: 0 <= i < |es| ==> |Encode(es[i])| < 0x1_0000_0000
  }

  /** Walking records recovers the events, field by field and byte by byte, and ends where the records end. */
  lemma {:induction false} WalkRecovers(es: seq<Entry>)
    requires Representable(es)
    ensures Walk(Encodings(es)) == Some(Walked(es, |Encodings(es)|))
  {
    hide Encode, ReadLengths, ReadEntry, Size;
    if es != [] {
      var e, s := es[0], Encodings(es);
      var rest := Encodings(es[1..]);
      FirstRecord(e, rest);
      assert Representable(es[1..]);
      WalkRecovers(es[1..]);
      assert (if Size(e) < |s| then s[Size(e)..] else []) == rest;
      assert es == [e] + es[1..];
    }
  }

  lemma FirstRecord(e: Entry, rest: Bytes)
    requires |Encode(e)| < 0x1_0000_0000
    ensures var s := Encode(e) + rest;
            && ReadLengths(s) == Lengths(Size(e), |e.data|) && ReadEntry(s, |e.data|) == e
            && s[Size(e)..] == rest
  {
    var s := Encode(e) + rest;
    assert s[..HEADER_BYTES] == Head(e);
    assert s[HEADER_BYTES..HEADER_BYTES + |e.data|] == e.data;
    ReadLengthsOf(e, s);
    ReadEntryOf(e, s);
  }
}
