/** Where peers outside the routing table can be dialed: a bounded memory that loses its oldest peer first. */
module AddressBooks {
  import opened Types
  import opened Multiaddrs

  const MAX_PEERS: nat := 4096
  const MAX_ADDRESSES_PER_PEER: nat := 8

  datatype Book = Book(addresses: map<Peer, seq<Multiaddr>>, order: seq<Peer>)

  const EMPTY := Book(map[], [])

  function AddTo(b: Book, peer: Peer, address: Multiaddr): Book {
    if peer in b.addresses then
      var list := b.addresses[peer];
      if address in list then b
      else
        var kept := if |list| == MAX_ADDRESSES_PER_PEER then list[1..] else list;
        b.(addresses := b.addresses[peer := kept + [address]])
    else
      var room := if |b.addresses| == MAX_PEERS && b.order != []
                  then Book(b.addresses - {b.order[0]}, b.order[1..]) else b;
      Book(room.addresses[peer := [address]], room.order + [peer])
  }

  predicate Knows(b: Book, peer: Peer) {
    peer in b.addresses
  }

  function Addresses(b: Book, peer: Peer): seq<Multiaddr> {
    if peer in b.addresses then b.addresses[peer] else []
  }

  ghost predicate ValidBook(b: Book) {
    && Distinct(b.order)
    && b.addresses.Keys == Elements(b.order)
    && |b.order| <= MAX_PEERS
    && forall p :: p in b.addresses ==>
         1 <= |b.addresses[p]| <= MAX_ADDRESSES_PER_PEER && Distinct(b.addresses[p])
  }

  class AddressBook {
    var addresses: map<Peer, seq<Multiaddr>>
    var order: seq<Peer>

    function Model(): Book
      reads this
    {
      Book(addresses, order)
    }

    constructor ()
      ensures Model() == EMPTY
    {
      addresses, order := map[], [];
    }

    method Add(peer: Peer, address: Multiaddr)
      modifies this
      ensures Model() == AddTo(old(Model()), peer, address)
    {
      if peer in addresses {
        var list := addresses[peer];
        if address !in list {
          if |list| == MAX_ADDRESSES_PER_PEER {
            list := list[1..];
          }
          list := list + [address];
          addresses := addresses[peer := list];
        }
        return;
      }
      if |addresses| == MAX_PEERS && order != [] {
        var oldest := order[0];
        order := order[1..];
        addresses := addresses - {oldest};
      }
      addresses := addresses[peer := [address]];
      order := order + [peer];
    }

    method AddressesOf(peer: Peer) returns (list: seq<Multiaddr>)
      ensures list == Addresses(Model(), peer)
    {
      list := if peer in addresses then addresses[peer] else [];
    }

    method IsKnown(peer: Peer) returns (known: bool)
      ensures known == Knows(Model(), peer)
    {
      known := peer in addresses;
    }
  }

  lemma {:induction false} CountDistinct<T>(s: seq<T>)
    requires Distinct(s)
    ensures |Elements(s)| == |s|
  {
    if s != [] {
      var init, last := s[..|s| - 1], s[|s| - 1];
      CountDistinct(init);
      assert Elements(s) == Elements(init) + {last};
    }
  }

  /** The counts that the two limits compare are those of the same entries. */
  lemma CountOfBook(b: Book)
    requires ValidBook(b)
    ensures |b.addresses| == |b.order| && forall p :: p in b.addresses <==> p in b.order
  {
    CountDistinct(b.order);
    assert b.addresses.Keys == Elements(b.order);
  }

  lemma KnownPeerKeepsBook(b: Book, peer: Peer, address: Multiaddr)
    requires ValidBook(b) && peer in b.addresses
    ensures ValidBook(AddTo(b, peer, address)) && address in Addresses(AddTo(b, peer, address), peer)
    ensures AddTo(b, peer, address).order == b.order
  {
    assert AddTo(b, peer, address).addresses.Keys == b.addresses.Keys;
  }

  /** The order after a new peer came in. */
  lemma NewPeerKeepsOrder(order: seq<Peer>, peer: Peer)
    requires Distinct(order) && peer !in order && |order| <= MAX_PEERS
    ensures var kept := if |order| == MAX_PEERS then order[1..] else order;
            && Distinct(kept + [peer]) && |kept + [peer]| <= MAX_PEERS
            && (forall p :: p in kept + [peer] <==>
                p == peer || (p in order && !(|order| == MAX_PEERS && p == order[0])))
  {
  }

  lemma NewPeerKeepsBook(b: Book, peer: Peer, address: Multiaddr)
    requires ValidBook(b) && peer !in b.addresses
    ensures ValidBook(AddTo(b, peer, address)) && address in Addresses(AddTo(b, peer, address), peer)
    ensures forall p :: p in b.addresses && p !in AddTo(b, peer, address).addresses ==>
              |b.order| == MAX_PEERS && p == b.order[0]
  {
    CountOfBook(b);
    NewPeerKeepsOrder(b.order, peer);
    hide Distinct;
    KeysWithNewPeer(b, peer, address);
    ListsWithNewPeer(b, peer, address);
    assert AddTo(b, peer, address).addresses[peer] == [address];
  }

  lemma KeysWithNewPeer(b: Book, peer: Peer, address: Multiaddr)
    requires peer !in b.addresses && |b.addresses| == |b.order| && |b.order| <= MAX_PEERS
    requires forall p :: p in b.addresses <==> p in b.order
    requires Distinct(b.order)
    ensures var r := AddTo(b, peer, address);
            && r.order == (if |b.order| == MAX_PEERS then b.order[1..] else b.order) + [peer]
            && r.addresses.Keys == Elements(r.order)
  {
    NewPeerKeepsOrder(b.order, peer);
    hide Distinct;
    var r := AddTo(b, peer, address);
    assert forall p :: p in Elements(r.order) <==> p in r.order;
  }

  lemma ListsWithNewPeer(b: Book, peer: Peer, address: Multiaddr)
    requires peer !in b.addresses
    requires forall p :: p in b.addresses ==>
               1 <= |b.addresses[p]| <= MAX_ADDRESSES_PER_PEER && Distinct(b.addresses[p])
    ensures var r := AddTo(b, peer, address);
            forall p :: p in r.addresses ==>
              1 <= |r.addresses[p]| <= MAX_ADDRESSES_PER_PEER && Distinct(r.addresses[p])
  {
    assert Distinct([address]);
    hide Distinct;
  }

  /** Adding keeps the book in order; a peer it knows has an address; only the oldest entry is ever lost. */
  lemma AddKeepsBook(b: Book, peer: Peer, address: Multiaddr)
    requires ValidBook(b)
    ensures var r := AddTo(b, peer, address);
            && ValidBook(r)
            && Knows(r, peer) && address in Addresses(r, peer)
            && (forall p :: Knows(b, p) && !Knows(r, p) ==>
                  p == b.order[0] && |b.order| == MAX_PEERS && !Knows(b, peer))
            && (forall p :: p != peer && Knows(r, p) ==> Knows(b, p) && Addresses(r, p) == Addresses(b, p))
  {
    if peer in b.addresses {
      KnownPeerKeepsBook(b, peer, address);
    } else {
      NewPeerKeepsBook(b, peer, address);
    }
    hide ValidBook;
  }

  // -------- any sequence of adds, against a book that is only windows over its history

  datatype Entry = Entry(peer: Peer, address: Multiaddr)

  function AddAll(adds: seq<Entry>): Book {
    if adds == [] then EMPTY
    else
      var last := adds[|adds| - 1];
      AddTo(AddAll(adds[..|adds| - 1]), last.peer, last.address)
  }

  /** At most the last `max` distinct things seen; seeing one again while it is in changes nothing. */
  function Remember<T(==)>(window: seq<T>, x: T, max: nat): seq<T> {
    if x in window then window
    else
      var longer := window + [x];
      if |longer| <= max then longer else longer[|longer| - max..]
  }

  /** The peers remembered, oldest first. */
  function Window(adds: seq<Entry>): seq<Peer> {
    if adds == [] then []
    else Remember(Window(adds[..|adds| - 1]), adds[|adds| - 1].peer, MAX_PEERS)
  }

  /** The addresses remembered of `p` since it last came into the window. */
  function Offered(adds: seq<Entry>, p: Peer): seq<Multiaddr> {
    if adds == [] || p !in Window(adds) then []
    else
      var before, last := adds[..|adds| - 1], adds[|adds| - 1];
      if last.peer == p then Remember(Offered(before, p), last.address, MAX_ADDRESSES_PER_PEER)
      else Offered(before, p)
  }

  /** One add moves the window of peers, and the window of one peer's addresses. */
  lemma AddMovesWindows(b: Book, peer: Peer, address: Multiaddr)
    requires ValidBook(b)
    ensures AddTo(b, peer, address).order == Remember(b.order, peer, MAX_PEERS)
    ensures Addresses(AddTo(b, peer, address), peer)
            == Remember(Addresses(b, peer), address, MAX_ADDRESSES_PER_PEER)
  {
    CountDistinct(b.order);
    assert |b.addresses.Keys| == |b.order|;
    assert peer in b.order <==> peer in b.addresses;
  }

  /** Over any sequence of adds the book is the two windows, and nothing else. */
  lemma {:induction false} BookIsItsWindows(adds: seq<Entry>)
    ensures var b := AddAll(adds);
            && ValidBook(b)
            && b.order == Window(adds)
            && (forall p :: Knows(b, p) <==> p in Window(adds))
            && (forall p :: Addresses(b, p) == Offered(adds, p))
  {
    if adds != [] {
      var before, last := adds[..|adds| - 1], adds[|adds| - 1];
      var a, b := AddAll(before), AddAll(adds);
      BookIsItsWindows(before);
      AddKeepsBook(a, last.peer, last.address);
      AddMovesWindows(a, last.peer, last.address);
      KnownAreInOrder(b);
      forall p
        ensures Addresses(b, p) == Offered(adds, p)
      {
        assert Addresses(a, p) == Offered(before, p);
      }
    }
  }

  lemma KnownAreInOrder(b: Book)
    requires ValidBook(b)
    ensures forall p :: Knows(b, p) <==> p in b.order
  {
  }

  /** Whatever was added, a known peer has between one and eight addresses to offer, none twice. */
  lemma KnownMeansDialable(adds: seq<Entry>, p: Peer)
    requires Knows(AddAll(adds), p)
    ensures 1 <= |Addresses(AddAll(adds), p)| <= MAX_ADDRESSES_PER_PEER
    ensures Distinct(Addresses(AddAll(adds), p))
  {
    BookIsItsWindows(adds);
  }
}
