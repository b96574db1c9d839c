/**
 * Port numbers: every pair of voices gets a port of its own.
 *
 * Voice s listens once for each voice above it, so a system of V voices needs V(V-1)/2 ports; they are the
 * consecutive ones from the base, in the order of the pairs. The arithmetic is that of a 32-bit unsigned integer,
 * of which a socket address keeps the lower 16 bits.
 */
module Ports {

  const WIDTH: nat := 0x1_0000_0000

  /** How many pairs have a server below `s`. */
  ghost function PairsBelow(voices: nat, s: nat): int {
    if s == 0 then 0 else PairsBelow(voices, s - 1) + voices - (s - 1) - 1
  }

  /** The place of a pair among all pairs, counted by server and then by client. */
  ghost function Place(voices: nat, s: nat, c: nat): int {
    PairsBelow(voices, s) + c - s - 1
  }

  ghost predicate Pair(voices: nat, s: nat, c: nat) {
    s < c < voices
  }

  /** The number of pairs of voices. */
  function Pairs(voices: nat): nat {
    voices * (voices - 1) / 2
  }

  lemma {:induction false} PairsBelowAll(voices: nat, s: nat)
    requires s <= voices
    ensures 2 * PairsBelow(voices, s) == s * (2 * voices - s - 1)
  {
    if s > 0 {
      PairsBelowAll(voices, s - 1);
      assert (s - 1) * (2 * voices - s) + 2 * (voices - s) == s * (2 * voices - s - 1);
    }
  }

  lemma {:induction false} PairsBelowGrows(voices: nat, s: nat, t: nat)
    requires s < t <= voices
    ensures PairsBelow(voices, s) + voices - s - 1 <= PairsBelow(voices, t)
  {
    if s + 1 < t {
      PairsBelowGrows(voices, s, t - 1);
    }
  }

  lemma PlaceInRange(voices: nat, s: nat, c: nat)
    requires Pair(voices, s, c)
    ensures 0 <= Place(voices, s, c) < Pairs(voices)
  {
    if s > 0 {
      PairsBelowGrows(voices, 0, s);
    }
    PairsBelowGrows(voices, s, voices);
    PairsBelowAll(voices, voices);
    assert voices * (2 * voices - voices - 1) == voices * (voices - 1);
  }

  lemma PlaceIsOneToOne(voices: nat, s: nat, c: nat, s': nat, c': nat)
    requires Pair(voices, s, c) && Pair(voices, s', c')
    requires Place(voices, s, c) == Place(voices, s', c')
    ensures s == s' && c == c'
  {
    if s < s' {
      PairsBelowGrows(voices, s, s');
    } else if s' < s {
      PairsBelowGrows(voices, s', s);
    }
  }

  /** The pair with a given place, searched upward from server `s`. */
  ghost function PairAt(voices: nat, place: nat, s: nat): (pair: (nat, nat))
    requires s < voices && PairsBelow(voices, s) <= place < PairsBelow(voices, voices)
    ensures Pair(voices, pair.0, pair.1) && Place(voices, pair.0, pair.1) == place
    decreases voices - s
  {
    if place < PairsBelow(voices, s + 1) then (s, place - PairsBelow(voices, s) + s + 1)
    else PairAt(voices, place, s + 1)
  }

  lemma PlaceIsOnto(voices: nat, place: nat)
    requires place < Pairs(voices)
    ensures exists s: nat, c: nat :: Pair(voices, s, c) && Place(voices, s, c) == place
  {
    PairsBelowAll(voices, voices);
    assert voices * (2 * voices - voices - 1) == voices * (voices - 1);
    assert voices > 0;
    var pair := PairAt(voices, place, 0);
    assert Pair(voices, pair.0, pair.1) && Place(voices, pair.0, pair.1) == place;
  }

  /** The port of a pair: its place from the base upward, as a 32-bit number. */
  ghost function Port(base: nat, voices: nat, s: nat, c: nat): nat {
    (base + Place(voices, s, c)) % WIDTH
  }

  /** The pairs map one-to-one onto the consecutive ports from the base, as long as there are enough of them. */
  lemma PortsAreAllocatedOnce(base: nat, voices: nat, s: nat, c: nat, s': nat, c': nat)
    requires Pairs(voices) <= WIDTH
    requires Pair(voices, s, c) && Pair(voices, s', c')
    ensures Port(base, voices, s, c) == Port(base, voices, s', c') <==> (s == s' && c == c')
  {
    PlaceInRange(voices, s, c);
    PlaceInRange(voices, s', c');
    if Port(base, voices, s, c) == Port(base, voices, s', c') {
      SameRemainder(base + Place(voices, s, c), base + Place(voices, s', c'));
      PlaceIsOneToOne(voices, s, c, s', c');
    }
  }

  lemma SameRemainder(x: int, y: int)
    requires x % WIDTH == y % WIDTH && x - y < WIDTH && y - x < WIDTH
    ensures x == y
  {
  }

  lemma PortsAreConsecutive(base: nat, voices: nat, port: nat)
    requires base + Pairs(voices) <= WIDTH
    ensures base <= port < base + Pairs(voices) <==>
            exists s: nat, c: nat :: Pair(voices, s, c) && Port(base, voices, s, c) == port
  {
    if base <= port < base + Pairs(voices) {
      PlaceIsOnto(voices, port - base);
      var s: nat, c: nat :| Pair(voices, s, c) && Place(voices, s, c) == port - base;
      assert Pair(voices, s, c) && Port(base, voices, s, c) == port;
    }
    if s: nat, c: nat :| Pair(voices, s, c) && Port(base, voices, s, c) == port {
      PlaceInRange(voices, s, c);
    }
  }

  const WIRE: nat := 0x1_0000

  /** The port in the socket address. */
  ghost function WirePort(base: nat, voices: nat, s: nat, c: nat): nat {
    Port(base, voices, s, c) % WIRE
  }

  ghost predicate WirePortsDiffer(base: nat, voices: nat, s: nat, c: nat, s': nat, c': nat) {
    Pair(voices, s, c) && Pair(voices, s', c') && (s, c) != (s', c') ==>
      WirePort(base, voices, s, c) != WirePort(base, voices, s', c')
  }

  /** On the wire all pairs have ports of their own if and only if there are no more of them than 16 bits can tell. */
  lemma WirePortsExactly(base: nat, voices: nat)
    ensures (forall s: nat, c: nat, s': nat, c': nat :: WirePortsDiffer(base, voices, s, c, s', c'))
       <==> Pairs(voices) <= WIRE
  {
    if Pairs(voices) <= WIRE {
      forall s: nat, c: nat, s': nat, c': nat ensures WirePortsDiffer(base, voices, s, c, s', c') {
        if Pair(voices, s, c) && Pair(voices, s', c') {
          WirePortsApart(base, voices, s, c, s', c');
        }
      }
    } else {
      hide Place, Pairs;
      PlaceIsOnto(voices, 0);
      PlaceIsOnto(voices, WIRE);
      var s: nat, c: nat :| Pair(voices, s, c) && Place(voices, s, c) == 0;
      var s': nat, c': nat :| Pair(voices, s', c') && Place(voices, s', c') == WIRE;
      OnceAround(base);
      assert !WirePortsDiffer(base, voices, s, c, s', c');
    }
  }

  lemma WirePortsApart(base: nat, voices: nat, s: nat, c: nat, s': nat, c': nat)
    requires Pairs(voices) <= WIRE && Pair(voices, s, c) && Pair(voices, s', c')
    ensures WirePort(base, voices, s, c) == WirePort(base, voices, s', c') <==> (s, c) == (s', c')
  {
    var x, y := Place(voices, s, c), Place(voices, s', c');
    PlaceInRange(voices, s, c);
    PlaceInRange(voices, s', c');
    hide Place, Pairs;
    if WirePort(base, voices, s, c) == WirePort(base, voices, s', c') {
      SameOnWire(base + x, base + y);
      PlaceIsOneToOne(voices, s, c, s', c');
    }
  }

  lemma SameOnWire(x: nat, y: nat)
    requires x % WIDTH % WIRE == y % WIDTH % WIRE && x - y < WIRE && y - x < WIRE
    ensures x == y
  {
    WireRemainder(x);
    WireRemainder(y);
  }

  lemma OnceAround(x: nat)
    ensures x % WIDTH % WIRE == (x + WIRE) % WIDTH % WIRE
  {
    WireRemainder(x);
    WireRemainder(x + WIRE);
  }

  lemma WireRemainder(n: nat)
    ensures n % WIDTH % WIRE == n % WIRE
  {
    assert n == n / WIDTH * WIDTH + n % WIDTH;
    assert n == (n / WIDTH * WIRE + n % WIDTH / WIRE) * WIRE + n % WIDTH % WIRE;
  }

  method ListenPort(base: nat, voices: nat, server: nat, client: nat) returns (port: nat)
    ensures port == Port(base, voices, server, client)
  {
    port := 0;
    var s := 0;
    while s < server
      invariant 0 <= s <= server
      invariant port == PairsBelow(voices, s) % WIDTH
    {
      port := (port + voices - s - 1) % WIDTH;
      s := s + 1;
    }
    port := (base + port + client - server - 1) % WIDTH;
  }

  /** What the constructor of a channel from voice `me` to voice `remote` settles about ports. */
  class Endpoint {
    const server: bool
    const localPort: nat
    const remotePort: nat

    /** This is the end at voice `me` of the channel to voice `remote`. */
    ghost predicate EndOf(base: nat, voices: nat, me: nat, remote: nat) {
      && server == (me < remote)
      && localPort == Port(base, voices, me, remote)
      && remotePort == Port(base, voices, remote, me)
    }

    constructor (base: nat, voices: nat, me: nat, remote: nat)
      ensures EndOf(base, voices, me, remote)
    {
      server := me < remote;
      var local := ListenPort(base, voices, me, remote);
      localPort := local;
      var there := ListenPort(base, voices, remote, me);
      remotePort := there;
    }
  }

  /**
   * A channel has one server and one client, the client connects to the port on which the server listens, and
   * the server of no other channel of the system listens there.
   */
  lemma ChannelsMeet(base: nat, voices: nat, a: nat, b: nat, here: Endpoint, there: Endpoint, s: nat, c: nat)
    requires a < voices && b < voices && a != b
    requires here.EndOf(base, voices, a, b) && there.EndOf(base, voices, b, a)
    requires Pairs(voices) <= WIDTH && Pair(voices, s, c)
    ensures here.server != there.server
    ensures here.server ==> here.localPort == there.remotePort
    ensures there.server ==> there.localPort == here.remotePort
    ensures (if here.server then here.localPort else there.localPort) == Port(base, voices, s, c)
       <==> (s, c) == (if a < b then (a, b) else (b, a))
    ensures Pairs(voices) <= WIRE ==>
              ((if here.server then here.localPort else there.localPort) % WIRE == WirePort(base, voices, s, c)
          <==> (s, c) == (if a < b then (a, b) else (b, a)))
  {
    var pair := if a < b then (a, b) else (b, a);
    PortsAreAllocatedOnce(base, voices, pair.0, pair.1, s, c);
    if Pairs(voices) <= WIRE {
      WirePortsApart(base, voices, pair.0, pair.1, s, c);
    }
  }
}
