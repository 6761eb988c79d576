/** Values every part of the model shares. */
module Types {

  datatype Option<+T> = None | Some(value: T)

  type byte = x: int | 0 <= x < 256

  type Bytes = seq<byte>

  /** The 32 bytes that name a node or a group. */
  type Key = k: Bytes | |k| == 32 witness seq(32, i => 0)

  const ZERO_KEY: Key := [
    0, 0, 0, 0, 0, 0, 0, 0, 0, 0, 0, 0, 0, 0, 0, 0,
    0, 0, 0, 0, 0, 0, 0, 0, 0, 0, 0, 0, 0, 0, 0, 0]

  /** A libp2p peer id: the bytes of its multihash. */
  datatype Peer = Peer(multihash: Bytes)

  /** A reading of the monotonic clock, in milliseconds. */
  type Time = nat

  /** The time from `earlier` to `now`; zero when `now` is not the later of the two. */
  function Since(now: Time, earlier: Time): Time {
    if now <= earlier then 0 else now - earlier
  }

  /**
    * What the model does not look inside: ed25519, the key inside a peer id, UTF-8.
    * Every theorem holds for all of them.
    */
  datatype Primitives = Primitives(
    publicKey: Key -> bool,            // the bytes are an ed25519 public key
    signed: (Key, Bytes, Bytes) -> bool, // key, message, signature
    keyOf: Peer -> Option<Key>,
    peerOf: Key -> Option<Peer>,
    utf8: Bytes -> bool)

  /** The key inside the peer id of a key is that key. */
  ghost predicate KeysRoundTrip(prims: Primitives) {
    forall k: Key :: prims.peerOf(k).Some? ==> prims.keyOf(prims.peerOf(k).value) == Some(k)
  }

  /** The elements of `s` that satisfy `keep`, in order. */
  function Filter<T>(s: seq<T>, keep: T -> bool): seq<T> {
    if s == [] then []
    else Filter(s[..|s| - 1], keep) + (if keep(s[|s| - 1]) then [s[|s| - 1]] else [])
  }

  lemma {:induction false} FilterOfConcat<T>(a: seq<T>, b: seq<T>, keep: T -> bool)
    ensures Filter(a + b, keep) == Filter(a, keep) + Filter(b, keep)
  {
    if b == [] {
      assert a + b == a;
    } else {
      assert (a + b)[..|a + b| - 1] == a + b[..|b| - 1];
      FilterOfConcat(a, b[..|b| - 1], keep);
    }
  }

  function Elements<T>(s: seq<T>): set<T> {
    set x | x in s
  }

  predicate Distinct<T(==)>(s: seq<T>) {
    forall i, j :: 0 <= i < j < |s| ==> s[i] != s[j]
  }
}
