/** The polling watchdog: peer cache, connection events and traffic reports (src/watchdog.rs, src/lib.rs). */
module Watchdog {
  import opened Basics
  import opened Config
  import opened Addressing
  import T = Traffic

  const WIREGUARD_HANDSHAKE_TIMEOUT: nat := 3 * 60
  const SECOND: nat := 1_000_000_000

  // Times are nanoseconds since the epoch, negative before it.
  datatype RawStats = Stats(key: Pubkey, endpoint: Option<Sock>, handshake: Option<int>, rx: u64, tx: u64) {
    function Get(dir: T.Dir): u64 { if dir.Rx? then rx else tx }
  }

  // A peer that has shaken hands has an endpoint.
  type PeerStats = s: RawStats | s.handshake.Some? ==> s.endpoint.Some? witness Stats(0, None, None, 0, 0)

  // One peer of a snapshot, with the two clock readings made while it is handled.
  datatype Reading = Reading(stats: PeerStats, first: int, second: int)

  datatype NetworkStats = NetworkStats(key: Pubkey, port: u16, peers: seq<Reading>)

  // A listed namespace, and its statistics unless reading them fails.
  datatype Space = Space(name: string, read: Option<NetworkStats>)

  // What one tick finds: the listed namespaces, unless listing fails.
  type Tick = Option<seq<Space>>

  datatype Event =
    | Connected(network: Pubkey, peer: Pubkey, endpoint: Sock)
    | Disconnected(network: Pubkey, peer: Pubkey)
    | Endpoint(network: Pubkey, peer: Pubkey, endpoint: Sock)

  // A delivered event, labelled with the listen port of the cache it was compared with.
  datatype Sent = Sent(port: u16, event: Event)

  // What the two broadcasts have accepted; `sends` counts all attempts.
  datatype Bus = Bus(sends: nat, events: seq<Sent>, traffic: seq<T.Info>)

  // Whether a send, by number, finds a receiver. A send without a receiver fails.
  type Receivers = nat -> bool

  type PeerCache = map<u16, map<Pubkey, PeerStats>>

  // `items` is what the traffic report under construction has recorded.
  datatype State = State(cache: PeerCache, items: seq<T.Item>, bus: Bus)

  function EntryOf(cache: PeerCache, port: u16): map<Pubkey, PeerStats>
  {
    if port in cache then cache[port] else map[]
  }

  // A handshake in the future, or too long ago, counts as none.
  function Expire(stats: PeerStats, now: int): (r: PeerStats)
    ensures r.key == stats.key && r.rx == stats.rx && r.tx == stats.tx
  {
    if stats.handshake.Some? && (now < stats.handshake.value || (now - stats.handshake.value) / SECOND > WIREGUARD_HANDSHAKE_TIMEOUT)
    then stats.(handshake := None) else stats
  }

  // The wrapped sum of the wrapped differences "previous minus current".
  function Difference(previous: PeerStats, peer: PeerStats): u64
  {
    ((previous.rx - peer.rx) % U64 + (previous.tx - peer.tx) % U64) % U64
  }

  function Account(items: seq<T.Item>, network: Pubkey, previous: PeerStats, peer: PeerStats, now: nat): seq<T.Item>
  {
    if previous.rx > peer.rx || previous.tx > peer.tx then items
    else if Difference(previous, peer) > 0 then
      items + [T.Item(network, peer.key, now / SECOND, T.Traffic(peer.rx - previous.rx, peer.tx - previous.tx))]
    else items
  }

  /** Growth is recorded unless there is none, or exactly 2^64 bytes of it in both directions together. */
  lemma AccountExactly(items: seq<T.Item>, network: Pubkey, previous: PeerStats, peer: PeerStats, now: nat)
    requires previous.rx <= peer.rx && previous.tx <= peer.tx
    ensures var growth := peer.rx - previous.rx + peer.tx - previous.tx;
      Account(items, network, previous, peer, now) ==
        if growth == 0 || growth == U64 then items
        else items + [T.Item(network, peer.key, now / SECOND, T.Traffic(peer.rx - previous.rx, peer.tx - previous.tx))]
  {
    var a, b := peer.rx - previous.rx, peer.tx - previous.tx;
    assert (-a) % U64 == if a == 0 then 0 else U64 - a;
    assert (-b) % U64 == if b == 0 then 0 else U64 - b;
  }

  /*** One step at a time ***/

  datatype Result = Result(state: State, ok: bool)

  function Send(rx: Receivers, s: State, port: u16, event: Event): Result
  {
    var b := s.bus;
    if rx(b.sends)
    then Result(s.(bus := b.(sends := b.sends + 1, events := b.events + [Sent(port, event)])), true)
    else Result(s.(bus := b.(sends := b.sends + 1)), false)
  }

  function Store(s: State, port: u16, peer: PeerStats): State
  {
    s.(cache := s.cache[port := EntryOf(s.cache, port)[peer.key := peer]])
  }

  function SendEndpoint(rx: Receivers, s: State, port: u16, network: Pubkey, previous: PeerStats, peer: PeerStats): Result
  {
    if peer.endpoint != previous.endpoint && peer.endpoint.Some?
    then Send(rx, s, port, Endpoint(network, peer.key, peer.endpoint.value))
    else Result(s, true)
  }

  function SendHandshake(rx: Receivers, s: State, port: u16, network: Pubkey, up: bool, peer: PeerStats): Result
  {
    if up && peer.handshake.None? then Send(rx, s, port, Disconnected(network, peer.key))
    else if !up && peer.handshake.Some? then Send(rx, s, port, Connected(network, peer.key, peer.endpoint.value))
    else Result(s, true)
  }

  // A failed send leaves the cache as it was, but the traffic recorded before it stays recorded.
  function Observe(rx: Receivers, s: State, port: u16, network: Pubkey, r: Reading): Result
  {
    var peer := Expire(r.stats, r.first);
    var entry := EntryOf(s.cache, port);
    if peer.key in entry then
      var previous := entry[peer.key];
      if r.second < 0 then Result(s, false)
      else
        var s1 := s.(items := Account(s.items, network, previous, peer, r.second));
        var e := SendEndpoint(rx, s1, port, network, previous, peer);
        if !e.ok then e
        else
          var h := SendHandshake(rx, e.state, port, network, previous.handshake.Some?, peer);
          if !h.ok then h else Result(Store(h.state, port, peer), true)
    else
      var h := SendHandshake(rx, s, port, network, false, peer);
      if !h.ok then h else Result(Store(h.state, port, peer), true)
  }

  // Each dead peer is removed and then reported; the first failed report leaves the rest in the cache.
  function Bury(rx: Receivers, s: State, port: u16, network: Pubkey, dead: seq<Pubkey>): Result
    decreases |dead|
  {
    if dead == [] then Result(s, true)
    else
      var gone := s.(cache := s.cache[port := EntryOf(s.cache, port) - {dead[0]}]);
      var r := Send(rx, gone, port, Disconnected(network, dead[0]));
      if !r.ok then r else Bury(rx, r.state, port, network, dead[1..])
  }

  function Dead(s: State, port: u16, alive: set<Pubkey>): seq<Pubkey>
  {
    Ascending(EntryOf(s.cache, port).Keys - alive)
  }

  datatype Step =
    | Enter(port: u16)
    | Peer(port: u16, network: Pubkey, reading: Reading)
    | Sweep(port: u16, network: Pubkey, alive: set<Pubkey>)
    | Flush
    | Restart

  function Next(rx: Receivers, s: State, step: Step): State
  {
    match step
    case Enter(port) => s.(cache := s.cache[port := EntryOf(s.cache, port)])
    case Peer(port, network, reading) => Observe(rx, s, port, network, reading).state
    case Sweep(port, network, alive) => Bury(rx, s, port, network, Dead(s, port, alive)).state
    case Flush =>
      // A refused report ends the watchdog, which is restarted with an empty cache.
      if rx(s.bus.sends)
      then State(s.cache, [], s.bus.(sends := s.bus.sends + 1, traffic := s.bus.traffic + [T.Record(0, s.items)]))
      else State(map[], [], s.bus.(sends := s.bus.sends + 1))
    case Restart => State(map[], [], s.bus)
  }

  function Play(rx: Receivers, s: State, steps: seq<Step>): State
    decreases |steps|
  {
    if steps == [] then s else Play(rx, Next(rx, s, steps[0]), steps[1..])
  }

  lemma {:induction false} PlaySplit(rx: Receivers, s: State, a: seq<Step>, b: seq<Step>)
    ensures Play(rx, s, a + b) == Play(rx, Play(rx, s, a), b)
    decreases |a|
  {
    if a == [] {
      assert a + b == b;
    } else {
      assert (a + b)[0] == a[0] && (a + b)[1..] == a[1..] + b;
      PlaySplit(rx, Next(rx, s, a[0]), a[1..], b);
    }
  }

  /*** The steps of a tick ***/

  function PeerSteps(net: NetworkStats, peers: seq<Reading>): seq<Step>
  {
    seq(|peers|, i requires 0 <= i < |peers| => Peer(net.port, net.key, peers[i]))
  }

  function Alive(net: NetworkStats): set<Pubkey>
  {
    set i | 0 <= i < |net.peers| :: net.peers[i].stats.key
  }

  function NetworkSteps(net: NetworkStats): seq<Step>
  {
    [Enter(net.port)] + PeerSteps(net, net.peers) + [Sweep(net.port, net.key, Alive(net))]
  }

  // Namespaces of other owners, and those whose statistics cannot be read, are skipped.
  function SpaceSteps(space: Space): seq<Step>
  {
    if Managed(space.name) && space.read.Some? then NetworkSteps(space.read.value) else []
  }

  function SpacesSteps(spaces: seq<Space>): seq<Step>
  {
    if spaces == [] then [] else SpaceSteps(spaces[0]) + SpacesSteps(spaces[1..])
  }

  function Script(tick: Tick): seq<Step>
  {
    match tick
    case None => [Restart]
    case Some(spaces) => SpacesSteps(spaces) + [Flush]
  }

  function AllSteps(ticks: seq<Tick>): seq<Step>
  {
    if ticks == [] then [] else Script(ticks[0]) + AllSteps(ticks[1..])
  }

  const START := State(map[], [], Bus(0, [], []))

  // Every tick from the start of the process, restarts included.
  function Run(rx: Receivers, ticks: seq<Tick>): State { Play(rx, START, AllSteps(ticks)) }

  lemma PlayOne(rx: Receivers, s: State, step: Step)
    ensures Play(rx, s, [step]) == Next(rx, s, step)
  {
    assert [step][1..] == [];
  }

  // The steps of one network, in their three parts.
  lemma PlayNetwork(rx: Receivers, s: State, net: NetworkStats)
    ensures Play(rx, s, NetworkSteps(net))
      == Next(rx, Play(rx, Next(rx, s, Enter(net.port)), PeerSteps(net, net.peers)), Sweep(net.port, net.key, Alive(net)))
  {
    var enter, peers, sweep := Enter(net.port), PeerSteps(net, net.peers), Sweep(net.port, net.key, Alive(net));
    assert NetworkSteps(net) == [enter] + (peers + [sweep]);
    PlaySplit(rx, s, [enter], peers + [sweep]);
    PlayOne(rx, s, enter);
    PlaySplit(rx, Next(rx, s, enter), peers, [sweep]);
    PlayOne(rx, Play(rx, Next(rx, s, enter), peers), sweep);
  }

  /*** The watchdog itself ***/

  class Watchdog {
    const rx: Receivers
    var cache: PeerCache
    var bus: Bus

    constructor (rx: Receivers)
      ensures this.rx == rx && cache == map[] && bus == START.bus
    {
      this.rx, cache, bus := rx, map[], START.bus;
    }

    method Event(port: u16, event: Event) returns (ok: bool)
      modifies this`bus
      ensures forall items :: Send(rx, State(cache, items, old(bus)), port, event) == Result(State(cache, items, bus), ok)
    {
      ok := rx(bus.sends);
      bus := if ok then bus.(sends := bus.sends + 1, events := bus.events + [Sent(port, event)])
             else bus.(sends := bus.sends + 1);
    }

    method AccountTraffic(traffic: T.TrafficInfo, network: Pubkey, previous: PeerStats, peer: PeerStats, now: nat, ghost items: seq<T.Item>)
        returns (ghost after: seq<T.Item>)
      requires traffic.Value() == T.Record(0, items)
      modifies traffic
      ensures after == Account(items, network, previous, peer, now) && traffic.Value() == T.Record(0, after)
    {
      after := items;
      if previous.rx <= peer.rx && previous.tx <= peer.tx && Difference(previous, peer) > 0 {
        var item := T.Item(network, peer.key, now / SECOND, T.Traffic(peer.rx - previous.rx, peer.tx - previous.tx));
        traffic.Add(item.network, item.device, item.time, item.traffic);
        after := items + [item];
        assert after[..|items|] == items;
      }
    }

    method WatchdogPeer(traffic: T.TrafficInfo, port: u16, network: Pubkey, r: Reading, ghost items: seq<T.Item>)
        returns (ghost after: seq<T.Item>)
      requires traffic.Value() == T.Record(0, items) && port in cache
      modifies this, traffic
      ensures State(cache, after, bus) == Observe(rx, State(old(cache), items, old(bus)), port, network, r).state
      ensures traffic.Value() == T.Record(0, after) && port in cache
    {
      after := items;
      var peer := Expire(r.stats, r.first);
      var ok;
      if peer.key in cache[port] {
        var previous := cache[port][peer.key];
        if r.second < 0 { return; }
        after := AccountTraffic(traffic, network, previous, peer, r.second, items);
        if peer.endpoint != previous.endpoint && peer.endpoint.Some? {
          ok := Event(port, Endpoint(network, peer.key, peer.endpoint.value));
          if !ok { return; }
        }
        match (previous.handshake, peer.handshake) {
          case (Some(_), None) =>
            ok := Event(port, Disconnected(network, peer.key));
            if !ok { return; }
          case (None, Some(_)) =>
            ok := Event(port, Connected(network, peer.key, peer.endpoint.value));
            if !ok { return; }
          case _ =>
        }
      } else if peer.handshake.Some? {
        ok := Event(port, Connected(network, peer.key, peer.endpoint.value));
        if !ok { return; }
      }
      var entry := EntryOf(cache, port);
      entry := entry[peer.key := peer];
      cache := cache[port := entry];
    }

    method BuryDead(port: u16, network: Pubkey, dead: seq<Pubkey>, ghost items: seq<T.Item>)
      requires port in cache
      modifies this
      ensures State(cache, items, bus) == Bury(rx, State(old(cache), items, old(bus)), port, network, dead).state
    {
      for i := 0 to |dead|
        invariant port in cache
        invariant Bury(rx, State(old(cache), items, old(bus)), port, network, dead)
               == Bury(rx, State(cache, items, bus), port, network, dead[i..])
      {
        assert dead[i..][0] == dead[i] && dead[i..][1..] == dead[i + 1..];
        cache := cache[port := cache[port] - {dead[i]}];
        var ok := Event(port, Disconnected(network, dead[i]));
        if !ok { return; }
      }
    }

    // Handles each peer of the snapshot, whether or not the ones before it failed.
    method WatchdogPeers(traffic: T.TrafficInfo, net: NetworkStats, ghost items: seq<T.Item>)
        returns (peers: set<Pubkey>, ghost after: seq<T.Item>)
      requires traffic.Value() == T.Record(0, items) && net.port in cache
      modifies this, traffic
      ensures State(cache, after, bus) == Play(rx, State(old(cache), items, old(bus)), PeerSteps(net, net.peers))
      ensures traffic.Value() == T.Record(0, after) && net.port in cache && peers == Alive(net)
    {
      peers, after := {}, items;
      for i := 0 to |net.peers|
        invariant net.port in cache && traffic.Value() == T.Record(0, after)
        invariant peers == set j | 0 <= j < i :: net.peers[j].stats.key
        invariant Play(rx, State(old(cache), items, old(bus)), PeerSteps(net, net.peers))
               == Play(rx, State(cache, after, bus), PeerSteps(net, net.peers[i..]))
      {
        var r := net.peers[i];
        assert PeerSteps(net, net.peers[i..])[1..] == PeerSteps(net, net.peers[i + 1..]);
        peers := peers + {r.stats.key};
        after := WatchdogPeer(traffic, net.port, net.key, r, after);
      }
    }

    method WatchdogNetns(traffic: T.TrafficInfo, net: NetworkStats, ghost items: seq<T.Item>) returns (ghost after: seq<T.Item>)
      requires traffic.Value() == T.Record(0, items)
      modifies this, traffic
      ensures State(cache, after, bus) == Play(rx, State(old(cache), items, old(bus)), NetworkSteps(net))
      ensures traffic.Value() == T.Record(0, after)
    {
      ghost var start := State(cache, items, bus);
      if net.port !in cache {
        cache := cache[net.port := map[]];
      }
      assert cache == start.cache[net.port := EntryOf(start.cache, net.port)];
      var peers;
      peers, after := WatchdogPeers(traffic, net, items);
      BuryDead(net.port, net.key, Ascending(cache[net.port].Keys - peers), after);
      PlayNetwork(rx, start, net);
    }

    // One tick; false when the watchdog gives up.
    method WatchdogRun(tick: Tick) returns (ok: bool)
      modifies this
      ensures ok ==> State(cache, [], bus) == Play(rx, State(old(cache), [], old(bus)), Script(tick))
      ensures !ok ==> State(map[], [], bus) == Play(rx, State(old(cache), [], old(bus)), Script(tick))
    {
      ghost var start := State(cache, [], bus);
      match tick
      case None =>
        ok := false;
        assert Script(tick)[1..] == [];
      case Some(spaces) =>
        var traffic := new T.TrafficInfo(0);
        ghost var items: seq<T.Item> := [];
        for i := 0 to |spaces|
          invariant fresh(traffic) && traffic.Value() == T.Record(0, items)
          invariant Play(rx, start, Script(tick)) == Play(rx, State(cache, items, bus), SpacesSteps(spaces[i..]) + [Flush])
        {
          var space := spaces[i];
          assert spaces[i..][0] == space && spaces[i..][1..] == spaces[i + 1..];
          ghost var rest := SpacesSteps(spaces[i + 1..]) + [Flush];
          assert SpacesSteps(spaces[i..]) + [Flush] == SpaceSteps(space) + rest;
          PlaySplit(rx, State(cache, items, bus), SpaceSteps(space), rest);
          if Managed(space.name) && space.read.Some? {
            items := WatchdogNetns(traffic, space.read.value, items);
          }
        }
        assert SpacesSteps(spaces[|spaces|..]) + [Flush] == [Flush] && [Flush][1..] == [];
        ok := rx(bus.sends);
        bus := if ok then bus.(sends := bus.sends + 1, traffic := bus.traffic + [traffic.Value()])
               else bus.(sends := bus.sends + 1);
    }

    // Ticks for ever; whenever the watchdog gives up it is launched again with an empty cache.
    method Watch(ticks: seq<Tick>)
      modifies this
      ensures State(cache, [], bus) == Play(rx, State(old(cache), [], old(bus)), AllSteps(ticks))
    {
      for i := 0 to |ticks|
        invariant Play(rx, State(old(cache), [], old(bus)), AllSteps(ticks)) == Play(rx, State(cache, [], bus), AllSteps(ticks[i..]))
      {
        assert ticks[i..][0] == ticks[i] && ticks[i..][1..] == ticks[i + 1..];
        PlaySplit(rx, State(cache, [], bus), Script(ticks[i]), AllSteps(ticks[i + 1..]));
        var ok := WatchdogRun(ticks[i]);
        if !ok {
          cache := map[];
        }
      }
    }
  }
}
