/** Runs in which a failed send makes the watchdog repeat itself. */
module WatchdogFailures {
  import opened Basics
  import opened Config
  import opened Addressing
  import opened Watchdog
  import opened WatchdogTraffic
  import E = WatchdogEvents
  import T = Traffic

  const PORT: u16 := 51820
  const NETWORK: Pubkey := 1
  const PEER: Pubkey := 3
  const HOST := Sock(0x0A00_0001, 4000)
  const DEVICE := Device(PORT, NETWORK, PEER)

  // A tick that finds one network with one peer.
  function OnePeer(stats: PeerStats): Tick
  {
    Some([Space(NetnsName(PORT), Some(NetworkStats(NETWORK, PORT, [Reading(stats, 0, 0)])))])
  }

  function Seen(handshake: bool, rx: u64): PeerStats
  {
    Stats(PEER, Some(HOST), if handshake then Some(0) else None, rx, 0)
  }

  // State between ticks with nothing but this peer cached.
  function Idle(stats: PeerStats, bus: Bus): State { State(map[PORT := map[PEER := stats]], [], bus) }

  function PeerStep(stats: PeerStats): Step { Peer(PORT, NETWORK, Reading(stats, 0, 0)) }

  lemma OnePeerScript(stats: PeerStats)
    requires stats.key == PEER
    ensures Script(OnePeer(stats)) == [Enter(PORT), PeerStep(stats), Sweep(PORT, NETWORK, {PEER}), Flush]
  {
    var net := NetworkStats(NETWORK, PORT, [Reading(stats, 0, 0)]);
    var space := Space(NetnsName(PORT), Some(net));
    OnePeerSteps(net);
    assert [space][1..] == [];
    assert SpacesSteps([space]) == SpaceSteps(space) + [];
  }

  lemma OnePeerSteps(net: NetworkStats)
    requires |net.peers| == 1 && net.peers[0].stats.key == PEER
    ensures NetworkSteps(net) == [Enter(net.port), Peer(net.port, net.key, net.peers[0]), Sweep(net.port, net.key, {PEER})]
  {
    assert PeerSteps(net, net.peers) == [Peer(net.port, net.key, net.peers[0])];
    assert Alive(net) == {PEER};
  }

  lemma PlayFour(rx: Receivers, s: State, a: Step, b: Step, c: Step, d: Step)
    ensures Play(rx, s, [a, b, c, d]) == Next(rx, Next(rx, Next(rx, Next(rx, s, a), b), c), d)
  {
    PlaySplit(rx, s, [a, b], [c, d]);
    PlayTwo(rx, s, a, b);
    PlayTwo(rx, Next(rx, Next(rx, s, a), b), c, d);
    assert [a, b] + [c, d] == [a, b, c, d];
  }

  lemma PlayTwo(rx: Receivers, s: State, a: Step, b: Step)
    ensures Play(rx, s, [a, b]) == Next(rx, Next(rx, s, a), b)
  {
    PlayOne(rx, Next(rx, s, a), b);
    assert [a, b][1..] == [b];
  }

  lemma SweepNobody(rx: Receivers, s: State)
    requires EntryOf(s.cache, PORT).Keys <= {PEER}
    ensures Next(rx, s, Sweep(PORT, NETWORK, {PEER})) == s
  {
    assert EntryOf(s.cache, PORT).Keys - {PEER} == {};
    assert Dead(s, PORT, {PEER}) == [];
  }

  // Nobody is found dead.
  lemma OnePeerTick(rx: Receivers, s: State, stats: PeerStats, t: State)
    requires stats.key == PEER && EntryOf(t.cache, PORT).Keys <= {PEER}
    requires t == Next(rx, Next(rx, s, Enter(PORT)), PeerStep(stats))
    ensures Play(rx, s, Script(OnePeer(stats))) == Next(rx, t, Flush)
  {
    OnePeerScript(stats);
    PlayFour(rx, s, Enter(PORT), PeerStep(stats), Sweep(PORT, NETWORK, {PEER}), Flush);
    SweepNobody(rx, t);
  }

  function Accepted(b: Bus, event: Event): Bus { b.(sends := b.sends + 1, events := b.events + [Sent(PORT, event)]) }

  function Joins(): Event { Connected(NETWORK, PEER, HOST) }

  // The peer is new, and connects if it has a handshake.
  lemma NewPeer(rx: Receivers, b: Bus, stats: PeerStats)
    requires stats == Seen(stats.handshake.Some?, stats.rx) && rx(b.sends)
    ensures Next(rx, Next(rx, State(map[], [], b), Enter(PORT)), PeerStep(stats))
         == Idle(stats, if stats.handshake.Some? then Accepted(b, Joins()) else b)
  {
    var entered := State(map[PORT := map[]], [], b);
    assert Next(rx, State(map[], [], b), Enter(PORT)) == entered;
    assert Expire(stats, 0) == stats;
    var bus := if stats.handshake.Some? then Accepted(b, Joins()) else b;
    assert Store(State(entered.cache, [], bus), PORT, stats) == Idle(stats, bus);
  }

  lemma FlushIdle(rx: Receivers, up: PeerStats, b: Bus)
    ensures Next(rx, Idle(up, b), Flush)
      == if rx(b.sends) then Idle(up, b.(sends := b.sends + 1, traffic := b.traffic + [T.Record(0, [])]))
         else State(map[], [], b.(sends := b.sends + 1))
  {
  }

  // A tick in which the peer is new and connects; whether the report is accepted decides whether it is cached.
  lemma ConnectingTick(rx: Receivers, b: Bus)
    requires rx(b.sends)
    ensures var up, after := Seen(true, 0), Accepted(b, Joins());
      Play(rx, State(map[], [], b), Script(OnePeer(up))) == Next(rx, Idle(up, after), Flush)
  {
    var up := Seen(true, 0);
    NewPeer(rx, b, up);
    OnePeerTick(rx, State(map[], [], b), up, Idle(up, Accepted(b, Joins())));
  }

  // From an empty cache these steps report the connection, and empty the cache again if their report is refused.
  ghost predicate Connects(rx: Receivers, script: seq<Step>)
  {
    forall s: State | s.cache == map[] && s.items == [] && rx(s.bus.sends) :: Reconnected(rx, s, Play(rx, s, script))
  }

  ghost predicate Reconnected(rx: Receivers, s: State, t: State)
  {
    && t.bus.events == s.bus.events + [Sent(PORT, Joins())] && t.bus.sends == s.bus.sends + 2 && t.items == []
    && (!rx(s.bus.sends + 1) ==> t.cache == map[])
  }

  lemma OnePeerConnects(rx: Receivers)
    ensures Connects(rx, Script(OnePeer(Seen(true, 0))))
  {
    forall s: State | s.cache == map[] && s.items == [] && rx(s.bus.sends)
      ensures Reconnected(rx, s, Play(rx, s, Script(OnePeer(Seen(true, 0)))))
    {
      assert s == State(map[], [], s.bus);
      ConnectingTick(rx, s.bus);
      FlushIdle(rx, Seen(true, 0), Accepted(s.bus, Joins()));
    }
  }

  lemma ConnectsTwice(rx: Receivers, script: seq<Step>)
    requires Connects(rx, script) && rx(0) && !rx(1) && rx(2)
    ensures Play(rx, Play(rx, START, script), script).bus.events == [] + [Sent(PORT, Joins())] + [Sent(PORT, Joins())]
  {
    var s := Play(rx, START, script);
    assert Reconnected(rx, START, s);
    assert Reconnected(rx, s, Play(rx, s, script));
  }

  lemma TwoJoins(events: seq<Sent>)
    requires events == [] + [Sent(PORT, Joins())] + [Sent(PORT, Joins())]
    ensures !E.Alternate(events, PORT, PEER)
  {
    assert E.Joined(events[0], PORT, PEER) && E.Joined(events[1], PORT, PEER);
  }

  /** After a restart the same connection is reported again, with no disconnect in between: only the report of the
      first tick is refused. */
  lemma RestartConnectsTwice(rx: Receivers)
    requires rx(0) && !rx(1) && rx(2)
    ensures !E.Alternate(Run(rx, [OnePeer(Seen(true, 0)), OnePeer(Seen(true, 0))]).bus.events, PORT, PEER)
  {
    var a := OnePeer(Seen(true, 0));
    OnePeerConnects(rx);
    ConnectsTwice(rx, Script(a));
    TwoTicks(rx, a, a);
    TwoJoins(Run(rx, [a, a]).bus.events);
  }

  lemma TwoTicks(rx: Receivers, a: Tick, b: Tick)
    ensures Run(rx, [a, b]) == Play(rx, Play(rx, START, Script(a)), Script(b))
  {
    assert [a, b][1..] == [b] && [b][1..] == [] && AllSteps([b]) == Script(b);
    PlaySplit(rx, START, Script(a), Script(b));
  }
}
