/** Multiaddresses as sequences of protocols, as far as the node looks into them. */
module Multiaddrs {
  import opened Types

  type Octets4 = s: Bytes | |s| == 4 witness [0, 0, 0, 0]
  type Octets16 = s: Bytes | |s| == 16 witness seq(16, i => 0)

  datatype Protocol =
    | Ip4(octets4: Octets4)
    | Ip6(octets6: Octets16)
    | Tcp(port: nat)
    | Udp(port: nat)
    | QuicV1
    | P2p(peer: Peer)
    | P2pCircuit
    | Other(code: nat)

  type Multiaddr = seq<Protocol>

  datatype Ip = V4(v4: Octets4) | V6(v6: Octets16)

  predicate IsRelayed(a: Multiaddr) {
    P2pCircuit in a
  }

  /** The address without its /p2p parts, so that one can be appended. */
  function WithoutPeer(a: Multiaddr): Multiaddr {
    Filter(a, (p: Protocol) => !p.P2p?)
  }

  predicate IsLoopback(a: Multiaddr) {
    a != [] &&
    match a[0]
    case Ip4(o) => o[0] == 127
    case Ip6(o) => o == seq(15, i => 0) + [1]
    case _ => false
  }

  predicate IsUnspecified(a: Multiaddr) {
    a != [] &&
    match a[0]
    case Ip4(o) => o == seq(4, i => 0)
    case Ip6(o) => o == seq(16, i => 0)
    case _ => false
  }
}
