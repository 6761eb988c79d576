/** Unsigned integers as a fixed number of bytes, in both byte orders. */
module Codec {
  import opened Types

  function Pow256(n: nat): (p: nat)
    ensures p > 0
  {
    if n == 0 then 1 else 256 * Pow256(n - 1)
  }

  /** `v` modulo 256^n, least significant byte first. */
  function ToLittle(v: nat, n: nat): (s: Bytes)
    ensures |s| == n
  {
    if n == 0 then [] else [(v % 256) as byte] + ToLittle(v / 256, n - 1)
  }

  function FromLittle(s: Bytes): nat {
    if s == [] then 0 else s[0] + 256 * FromLittle(s[1..])
  }

  function Reversed(s: Bytes): (r: Bytes)
    ensures |r| == |s|
    ensures forall i :: 0 <= i < |s| ==> r[i] == s[|s| - 1 - i]
  {
    if s == [] then [] else Reversed(s[1..]) + [s[0]]
  }

  function ToBig(v: nat, n: nat): (s: Bytes)
    ensures |s| == n
  {
    Reversed(ToLittle(v, n))
  }

  function FromBig(s: Bytes): nat {
    FromLittle(Reversed(s))
  }

  lemma ReversedTwice(s: Bytes)
    ensures Reversed(Reversed(s)) == s
  {
    var r := Reversed(Reversed(s));
    assert forall i :: 0 <= i < |s| ==> r[i] == s[i];
  }

  /** What is read back is what was written, less what did not fit the width. */
  lemma {:induction false} LittleRoundTrip(v: nat, n: nat)
    ensures FromLittle(ToLittle(v, n)) == v % Pow256(n)
    decreases n
  {
    if n > 0 {
      LittleRoundTrip(v / 256, n - 1);
      var s := ToLittle(v, n);
      assert s[1..] == ToLittle(v / 256, n - 1);
      ModOfProduct(v, Pow256(n - 1));
    }
  }

  lemma ModOfProduct(v: nat, p: nat)
    requires p > 0
    ensures v % (256 * p) == v % 256 + 256 * (v / 256 % p)
  {
    var q, r := v / 256, v % 256;
    var a, b := q / p, q % p;
    assert v == 256 * (a * p + b) + r;
    assert v == (256 * p) * a + (256 * b + r) by {
      assert 256 * (a * p + b) == (256 * p) * a + 256 * b;
    }
    assert 256 * b + r < 256 * p;
    RemainderIsUnique(v, 256 * p, a, 256 * b + r);
  }

  lemma RemainderIsUnique(v: nat, d: nat, q: nat, r: nat)
    requires d > 0 && r < d && v == d * q + r
    ensures v % d == r
  {
    var k := v / d - q;
    assert v == d * (v / d) + v % d;
    assert d * k == r - v % d by {
      assert d * (v / d - q) == d * (v / d) - d * q;
    }
    MultipleIsFar(d, k);
  }

  lemma MultipleIsFar(d: int, k: int)
    requires d > 0
    ensures k >= 1 ==> d * k >= d
    ensures k <= -1 ==> d * k <= -d
  {
    assert k >= 1 ==> d * (k - 1) >= 0;
    assert k <= -1 ==> d * (k + 1) <= 0;
  }

  /** The other direction: the bytes are the only ones of their length that read as their value. */
  lemma {:induction false} LittleBytesRoundTrip(s: Bytes)
    ensures ToLittle(FromLittle(s), |s|) == s
    ensures FromLittle(s) < Pow256(|s|)
    decreases |s|
  {
    if s != [] {
      LittleBytesRoundTrip(s[1..]);
      var rest := FromLittle(s[1..]);
      assert (s[0] + 256 * rest) / 256 == rest && (s[0] + 256 * rest) % 256 == s[0];
      assert s == [s[0]] + s[1..];
    }
  }

  lemma BigRoundTrip(v: nat, n: nat)
    ensures FromBig(ToBig(v, n)) == v % Pow256(n)
  {
    ReversedTwice(ToLittle(v, n));
    LittleRoundTrip(v, n);
  }

  lemma BigBytesRoundTrip(s: Bytes)
    ensures ToBig(FromBig(s), |s|) == s
    ensures FromBig(s) < Pow256(|s|)
  {
    LittleBytesRoundTrip(Reversed(s));
    ReversedTwice(s);
  }

  lemma Widths()
    ensures Pow256(2) == 0x1_0000
    ensures Pow256(4) == 0x1_0000_0000
    ensures Pow256(8) == 0x1_0000_0000_0000_0000
  {
    assert Pow256(1) == 256 * Pow256(0);
    assert Pow256(2) == 256 * Pow256(1);
    assert Pow256(3) == 256 * Pow256(2);
    assert Pow256(4) == 256 * Pow256(3);
    assert Pow256(5) == 256 * Pow256(4);
    assert Pow256(6) == 256 * Pow256(5);
    assert Pow256(7) == 256 * Pow256(6);
    assert Pow256(8) == 256 * Pow256(7);
  }
}
