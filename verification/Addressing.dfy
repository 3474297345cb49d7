/** Names, addresses and port mappings derived from a network (src/types.rs). */
module Addressing {
  import opened Basics
  import opened Text
  import opened Config

  const NETNS_PREFIX := "network-"
  const VETH_PREFIX := "veth"
  const WIREGUARD_PREFIX := "wg"
  const PORT_MAPPING_START: u16 := 2000

  // 172.99.0.1/16, the bridge interface's own address and network.
  const BRIDGE_ADDR: u32 := ((172 * 256 + 99) * 256 + 0) * 256 + 1
  const BRIDGE_PREFIX: nat := 16
  const BRIDGE_NETWORK: u32 := BRIDGE_ADDR - BRIDGE_ADDR % U16

  function NetnsName(port: u16): string { NETNS_PREFIX + Decimal(port) }

  function WgName(port: u16): string { WIREGUARD_PREFIX + Decimal(port) }

  function VethName(port: u16): string { VETH_PREFIX + Decimal(port) }

  predicate Managed(netns: string) { NETNS_PREFIX <= netns }

  /** The names are a fixed prefix and the port in decimal; names of different ports differ. */
  lemma NamesSpelled(p: u16, q: u16)
    ensures NetnsName(p) == "network-" + Decimal(p) && WgName(p) == "wg" + Decimal(p) && VethName(p) == "veth" + Decimal(p)
    ensures p == q <==> NetnsName(p) == NetnsName(q)
    ensures p == q <==> WgName(p) == WgName(q)
    ensures p == q <==> VethName(p) == VethName(q)
  {
    if p != q { NamesDiffer(p, q); }
  }

  lemma NamesDiffer(p: u16, q: u16)
    requires p != q
    ensures NetnsName(p) != NetnsName(q) && WgName(p) != WgName(q) && VethName(p) != VethName(q)
  {
    if NetnsName(p) == NetnsName(q) || WgName(p) == WgName(q) || VethName(p) == VethName(q) {
      assert NetnsName(p)[|NETNS_PREFIX|..] == Decimal(p) && NetnsName(q)[|NETNS_PREFIX|..] == Decimal(q);
      assert WgName(p)[|WIREGUARD_PREFIX|..] == Decimal(p) && WgName(q)[|WIREGUARD_PREFIX|..] == Decimal(q);
      assert VethName(p)[|VETH_PREFIX|..] == Decimal(p) && VethName(q)[|VETH_PREFIX|..] == Decimal(q);
      DecimalInjective(p, q);
    }
  }

  // u32 addition that stops at the largest address.
  function SaturatingAdd(a: u32, b: u32): u32
  {
    if a + b < U32 then a + b else U32 - 1
  }

  function VethAddr(port: u16): u32 { SaturatingAdd(BRIDGE_NETWORK, port) }

  predicate InBridgeNet(ip: u32) { ip - ip % U16 == BRIDGE_NETWORK }

  /** The addition never saturates: the address stays in the bridge's /16 and tells the port. It is 172.99.0.0 plus the
      port, and the bridge's own address 172.99.0.1 for port 1 alone. */
  lemma VethAddrExact(port: u16)
    ensures InBridgeNet(VethAddr(port)) && VethAddr(port) - BRIDGE_NETWORK == port
    ensures VethAddr(port) == BRIDGE_ADDR <==> port == 1
    ensures VethAddr(port) == 0xAC63_0000 + port && BRIDGE_ADDR == 0xAC63_0001 && BRIDGE_PREFIX == 16
  {
  }

  // Arithmetic on u16 as in a build without overflow checks: the index is truncated, then the sum wraps.
  function MappedPort(i: nat): u16
  {
    (PORT_MAPPING_START + i % U16) % U16
  }

  ghost predicate PortsDistinct(count: nat)
  {
    forall i: nat, j: nat | i < j < count :: MappedPort(i) != MappedPort(j)
  }

  ghost predicate PortsAboveStart(count: nat)
  {
    forall i: nat | i < count :: MappedPort(i) >= PORT_MAPPING_START
  }

  /** Mapped ports are pairwise distinct exactly up to 65536 mappings, and at least 2000 exactly up to 63536. Up to then
      they count up from 2000. */
  lemma MappedPortLimits(count: nat)
    ensures PortsDistinct(count) <==> count <= U16
    ensures PortsAboveStart(count) <==> count <= U16 - PORT_MAPPING_START
    ensures forall i: nat | i < count && i < 63536 :: MappedPort(i) == 2000 + i
  {
    if count > U16 {
      assert MappedPort(0) == MappedPort(U16);
      assert !PortsDistinct(count);
    } else {
      forall i: nat, j: nat | i < j < count
        ensures MappedPort(i) != MappedPort(j)
      {
      }
    }
    if count > U16 - PORT_MAPPING_START {
      assert MappedPort(U16 - PORT_MAPPING_START) == 0;
      assert !PortsAboveStart(count);
    }
  }

  datatype Backend = Backend(url: Url, sock: Sock)

  // Every backend of the proxy settings, URL by URL.
  function Backends(proxy: seq<Proxied>): seq<Backend>
  {
    if proxy == [] then []
    else seq(|proxy[0].backends|, i requires 0 <= i < |proxy[0].backends| => Backend(proxy[0].url, proxy[0].backends[i]))
         + Backends(proxy[1..])
  }

  datatype Mapping = Mapping(url: Url, port: u16, sock: Sock)

  function PortMappings(n: NetworkState): (r: seq<Mapping>)
    ensures |r| == |Backends(n.proxy)|
    ensures forall i | 0 <= i < |r| :: r[i].port == MappedPort(i)
  {
    var all := Backends(n.proxy);
    seq(|all|, i requires 0 <= i < |all| => Mapping(all[i].url, MappedPort(i), all[i].sock))
  }

  datatype PortMapping = PortMapping(portIn: u16, portOut: u16, ipOut: u32)

  datatype PortConfig = PortConfig(
    interfaceIn: string, interfaceOut: string, ipSource: u32, mappings: seq<PortMapping>)

  function PortConfigOf(n: NetworkState): PortConfig
  {
    var m := PortMappings(n);
    PortConfig(VethName(n.listenPort), WgName(n.listenPort), n.address[0].addr,
      seq(|m|, i requires 0 <= i < |m| => PortMapping(m[i].port, m[i].sock.port, m[i].sock.ip)))
  }

  /*** Sockets of a whole configuration ***/

  ghost predicate DistinctPorts(networks: seq<NetworkState>)
  {
    forall i, j | 0 <= i < j < |networks| :: networks[i].listenPort != networks[j].listenPort
  }

  function SocketAt(n: NetworkState, i: nat): Sock
  {
    Sock(VethAddr(n.listenPort), MappedPort(i))
  }

  // No two mappings of the configuration share a socket.
  ghost predicate SocketsUnique(networks: seq<NetworkState>)
  {
    forall a, b, i: nat, j: nat |
      0 <= a < |networks| && 0 <= b < |networks| && i < |PortMappings(networks[a])| && j < |PortMappings(networks[b])|
      && SocketAt(networks[a], i) == SocketAt(networks[b], j) :: a == b && i == j
  }

  lemma SocketsUniqueExactly(networks: seq<NetworkState>)
    requires DistinctPorts(networks)
    ensures SocketsUnique(networks) <==> forall a | 0 <= a < |networks| :: |PortMappings(networks[a])| <= U16
  {
    if a :| 0 <= a < |networks| && |PortMappings(networks[a])| > U16 {
      assert SocketAt(networks[a], 0) == SocketAt(networks[a], U16);
    } else {
      forall a, b, i: nat, j: nat |
        0 <= a < |networks| && 0 <= b < |networks| && i < |PortMappings(networks[a])| && j < |PortMappings(networks[b])|
        && SocketAt(networks[a], i) == SocketAt(networks[b], j)
        ensures a == b && i == j
      {
        VethAddrExact(networks[a].listenPort);
        VethAddrExact(networks[b].listenPort);
        assert networks[a].listenPort == networks[b].listenPort;
        assert a == b;
        MappedPortLimits(|PortMappings(networks[a])|);
      }
    }
  }
}
