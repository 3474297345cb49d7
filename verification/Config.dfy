/** The configuration a manager sends: whole, or as a partial update (client/src/lib.rs). */
module Config {
  import opened Basics

  datatype IpNet = IpNet(addr: u32, prefix: nat)

  datatype Sock = Sock(ip: u32, port: u16)

  // The UTF-8 bytes of a host name.
  type Host = seq<byte>

  datatype Url = Url(scheme: string, host: Host)

  datatype Proxied = Proxied(url: Url, backends: seq<Sock>)

  datatype PeerState = PeerState(preshared: Option<nat>, allowed: seq<IpNet>, endpoint: Option<Sock>)

  type Addresses = a: seq<IpNet> | a != [] witness [IpNet(0, 0)]

  // `proxy` lists the entries of the source's ordered map in key order.
  datatype NetworkState = NetworkState(
    privateKey: nat,
    listenPort: u16,
    mtu: nat,
    address: Addresses,
    peers: map<Pubkey, PeerState>,
    proxy: seq<Proxied>)

  type Networks = map<u16, NetworkState>

  type Partial = map<u16, Option<NetworkState>>

  /** A partial update as a map: its entries win, and a None entry removes the port. */
  function Override(base: Networks, partial: Partial): Networks
  {
    map p | p in base.Keys + partial.Keys && (p in partial ==> partial[p].Some?)
      :: if p in partial then partial[p].value else base[p]
  }

  /** The partial update carrying only the entries at these ports. */
  function Only(partial: Partial, ports: seq<u16>): Partial
  {
    map p | p in partial && p in ports :: partial[p]
  }

  /** The update made by one entry of a partial configuration. */
  function Enter(base: Networks, port: u16, entry: Option<NetworkState>): Networks
  {
    match entry
    case None => base - {port}
    case Some(network) => base[port := network]
  }

  function EnterAll(base: Networks, partial: Partial, ports: seq<u16>): Networks
    requires forall p | p in ports :: p in partial
    decreases |ports|
  {
    if ports == [] then base
    else
      assert ports[0] in ports;
      EnterAll(Enter(base, ports[0], partial[ports[0]]), partial, ports[1..])
  }

  /** Two partial updates in a row are one whose entries are the later ones where both have one. */
  lemma OverridesCompose(base: Networks, p: Partial, q: Partial)
    ensures Override(Override(base, p), q) == Override(base, p + q)
  {
    var twice, once := Override(Override(base, p), q), Override(base, p + q);
    assert twice.Keys == once.Keys;
  }

  lemma EnterIsOverride(base: Networks, port: u16, entry: Option<NetworkState>)
    ensures Enter(base, port, entry) == Override(base, map[port := entry])
  {
  }

  /** Entering ports one at a time, in any order, is the map-level override by those ports. */
  lemma {:induction false} EnterAllIsOverride(base: Networks, partial: Partial, ports: seq<u16>)
    requires forall p | p in ports :: p in partial
    ensures EnterAll(base, partial, ports) == Override(base, Only(partial, ports))
    decreases |ports|
  {
    if ports == [] {
      assert Override(base, Only(partial, [])) == base;
    } else {
      assert ports[0] in ports;
      var first: Partial := map[ports[0] := partial[ports[0]]];
      var rest := Only(partial, ports[1..]);
      EnterIsOverride(base, ports[0], partial[ports[0]]);
      EnterAllIsOverride(Override(base, first), partial, ports[1..]);
      OverridesCompose(base, first, rest);
      assert ports == [ports[0]] + ports[1..];
      assert first + rest == Only(partial, ports);
    }
  }

  /** Whatever order lists the entries, each at least once, the result is the override. */
  lemma AnyOrderOverrides(base: Networks, partial: Partial, ports: seq<u16>)
    requires forall p :: p in ports <==> p in partial
    ensures EnterAll(base, partial, ports) == Override(base, partial)
  {
    EnterAllIsOverride(base, partial, ports);
    assert Only(partial, ports) == partial;
  }

  class GatewayConfig {
    var networks: Networks

    constructor ()
      ensures networks == map[]
    {
      networks := map[];
    }

    method ApplyPartial(partial: Partial)
      modifies this
      ensures networks == Override(old(networks), partial)
    {
      var ports := AscendingPorts(partial.Keys);
      for i := 0 to |ports|
        invariant forall p | p in ports :: p in partial
        invariant EnterAll(old(networks), partial, ports) == EnterAll(networks, partial, ports[i..])
      {
        assert ports[i] in ports;
        assert ports[i..][1..] == ports[i + 1..];
        match partial[ports[i]]
        case None => networks := networks - {ports[i]};
        case Some(network) => networks := networks[ports[i] := network];
      }
      AnyOrderOverrides(old(networks), partial, ports);
    }
  }
}
