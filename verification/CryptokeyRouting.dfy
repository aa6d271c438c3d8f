/**
 * The peer table of a WireGuard interface and the three `wg set` commands the
 * agent issues. Cryptokey routing (section 2 of the WireGuard whitepaper): a
 * prefix belongs to at most one peer, `allowed-ips` replaces a peer's whole set
 * and takes the prefix away from whoever held it, and an outgoing packet goes
 * to the peer holding the longest prefix that covers its destination.
 */
module CryptokeyRouting {
  /** An IPv4 address as a number. */
  type Ip = nat

  /** A 32-byte public key. */
  type Key = seq<bv8>

  datatype Prefix = Prefix(net: Ip, len: nat)

  /** `handshake` is the time of the latest handshake in seconds, 0 if there was none. */
  datatype Peer = Peer(allowed: set<Prefix>, handshake: nat)

  type Table = map<Key, Peer>

  function Slash32(ip: Ip): Prefix {
    Prefix(ip, 32)
  }

  function Pow2(n: nat): (r: nat)
    ensures r > 0
  {
    if n == 0 then 1 else 2 * Pow2(n - 1)
  }

  predicate Covers(p: Prefix, ip: Ip) {
    p.len <= 32 && ip / Pow2(32 - p.len) == p.net / Pow2(32 - p.len)
  }

  /** No prefix belongs to two peers. */
  ghost predicate OneHolder(table: Table) {
    forall k, k', p :: k in table && k' in table && p in table[k].allowed && p in table[k'].allowed ==> k == k'
  }

  predicate Holds(table: Table, k: Key, p: Prefix) {
    k in table && p in table[k].allowed
  }

  /** Packets for `ip` leave through peer `k`: it holds a longest covering prefix. */
  ghost predicate RoutesTo(table: Table, ip: Ip, k: Key) {
    exists p :: Holds(table, k, p) && Covers(p, ip)
                && forall k', p' :: Holds(table, k', p') && Covers(p', ip) ==> p'.len <= p.len
  }

  /** `wg set <if> peer <key> endpoint <e> persistent-keepalive 15` */
  function SetEndpoint(table: Table, key: Key): Table {
    if key in table then table else table[key := Peer({}, 0)]
  }

  /** `wg set <if> peer <key> allowed-ips <ip>/32` */
  function SetAllowed(table: Table, key: Key, ip: Ip): Table {
    var others := map k | k in table :: table[k].(allowed := table[k].allowed - {Slash32(ip)});
    others[key := Peer({Slash32(ip)}, LatestHandshake(table, key))]
  }

  /** `wg set <if> peer <key> remove` */
  function RemovePeer(table: Table, key: Key): Table {
    table - {key}
  }

  /** `wg show <if> latest-handshakes`, 0 for a peer that is not listed. */
  function LatestHandshake(table: Table, key: Key): nat {
    if key in table then table[key].handshake else 0
  }

  /** Every command keeps "a prefix has one holder". */
  lemma CommandsKeepOneHolder(table: Table, key: Key, ip: Ip)
    requires OneHolder(table)
    ensures OneHolder(SetEndpoint(table, key))
    ensures OneHolder(SetAllowed(table, key, ip))
    ensures OneHolder(RemovePeer(table, key))
  {
    var t := SetAllowed(table, key, ip);
    forall k, k', p | k in t && k' in t && p in t[k].allowed && p in t[k'].allowed
      ensures k == k'
    {
      if p != Slash32(ip) && k != key && k' != key {
        assert p in table[k].allowed && p in table[k'].allowed;
      }
    }
  }

  /** A peer that holds `ip`/32 is where, and the only place where, packets for `ip` go. */
  lemma HostRouteWins(table: Table, ip: Ip, k: Key)
    requires OneHolder(table)
    requires Holds(table, k, Slash32(ip))
    ensures forall k' :: RoutesTo(table, ip, k') <==> k' == k
  {
    assert Covers(Slash32(ip), ip);
    assert RoutesTo(table, ip, k);
    forall k' | RoutesTo(table, ip, k') ensures k' == k {
      var p :| Holds(table, k', p) && Covers(p, ip)
               && forall k'', p' :: Holds(table, k'', p') && Covers(p', ip) ==> p'.len <= p.len;
      assert p.len == 32 && Pow2(0) == 1;
      assert p == Slash32(ip);
    }
  }

  /** Host routes of other addresses do not take part in routing `ip`. */
  lemma RoutingIgnoresOtherHosts(table: Table, base: Table, ip: Ip)
    requires forall k, p :: Holds(base, k, p) ==> Holds(table, k, p)
    requires forall k, p :: Holds(table, k, p) ==> Holds(base, k, p) || (p.len == 32 && p.net != ip)
    ensures forall k :: RoutesTo(table, ip, k) <==> RoutesTo(base, ip, k)
  {
    assert Pow2(0) == 1;
    forall k, p | Holds(table, k, p) && Covers(p, ip) ensures Holds(base, k, p) {
    }
    forall k ensures RoutesTo(table, ip, k) <==> RoutesTo(base, ip, k) {
      if RoutesTo(table, ip, k) {
        var p :| Holds(table, k, p) && Covers(p, ip)
                 && forall k', p' :: Holds(table, k', p') && Covers(p', ip) ==> p'.len <= p.len;
        assert Holds(base, k, p);
      }
    }
  }
}
