/** What a run reads, said in terms of the snapshots themselves, and how each tick ends (src/watchdog.rs, src/lib.rs). */
module Ticks {
  import opened Basics
  import opened Config
  import opened Watchdog
  import opened WatchdogTraffic
  import opened TrafficReports
  import T = Traffic

  /*** What is read ***/

  function OfPeers(peers: seq<Reading>, peer: Pubkey): seq<PeerStats>
  {
    if peers == [] then [] else (if peers[0].stats.key == peer then [peers[0].stats] else []) + OfPeers(peers[1..], peer)
  }

  // Only namespaces with the managed prefix are looked into.
  function OfSpaces(spaces: seq<Space>, d: Device): seq<PeerStats>
  {
    if spaces == [] then []
    else
      var space := spaces[0];
      (if "network-" <= space.name && space.read.Some? && space.read.value.port == d.port
       then OfPeers(space.read.value.peers, d.peer) else []) + OfSpaces(spaces[1..], d)
  }

  function OfTicks(ticks: seq<Tick>, d: Device): seq<PeerStats>
  {
    if ticks == [] then [] else (if ticks[0].Some? then OfSpaces(ticks[0].value, d) else []) + OfTicks(ticks[1..], d)
  }

  lemma {:induction false} PeersRead(net: NetworkStats, peers: seq<Reading>, d: Device)
    ensures Readings(d, PeerSteps(net, peers)) == if net.port == d.port then OfPeers(peers, d.peer) else []
  {
    if peers != [] {
      assert PeerSteps(net, peers)[1..] == PeerSteps(net, peers[1..]);
      PeersRead(net, peers[1..], d);
    }
  }

  lemma NetworkRead(net: NetworkStats, d: Device)
    ensures Readings(d, NetworkSteps(net)) == if net.port == d.port then OfPeers(net.peers, d.peer) else []
  {
    var enter, peers, sweep := [Enter(net.port)], PeerSteps(net, net.peers), [Sweep(net.port, net.key, Alive(net))];
    PeersRead(net, net.peers, d);
    ReadingsSplit(d, enter + peers, sweep);
    ReadingsSplit(d, enter, peers);
    assert enter[1..] == [] && sweep[1..] == [];
  }

  lemma {:induction false} SpacesRead(spaces: seq<Space>, d: Device)
    ensures Readings(d, SpacesSteps(spaces)) == OfSpaces(spaces, d)
  {
    if spaces != [] {
      var space := spaces[0];
      if space.read.Some? { NetworkRead(space.read.value, d); }
      ReadingsSplit(d, SpaceSteps(space), SpacesSteps(spaces[1..]));
      SpacesRead(spaces[1..], d);
    }
  }

  lemma TickRead(tick: Tick, d: Device)
    ensures Readings(d, Script(tick)) == if tick.Some? then OfSpaces(tick.value, d) else []
  {
    assert [Flush][1..] == [] && [Restart][1..] == [];
    if tick.Some? {
      ReadingsSplit(d, SpacesSteps(tick.value), [Flush]);
      SpacesRead(tick.value, d);
    }
  }

  /** The readings of a device that a run compares are those of its peer in the snapshots of its port, in every managed
      namespace that could be read, in order. */
  lemma {:induction false} TicksRead(ticks: seq<Tick>, d: Device)
    ensures Readings(d, AllSteps(ticks)) == OfTicks(ticks, d)
  {
    if ticks != [] {
      TickRead(ticks[0], d);
      TicksRead(ticks[1..], d);
      ReadingsSplit(d, Script(ticks[0]), AllSteps(ticks[1..]));
    }
  }

  /*** How a tick ends ***/

  lemma StepReportsNothing(rx: Receivers, s: State, step: Step)
    requires !step.Flush? && !step.Restart?
    ensures Next(rx, s, step).bus.traffic == s.bus.traffic
  {
    match step
    case Enter(_) =>
    case Sweep(port, network, alive) => BuryShape(Device(port, network, 0), rx, s, port, network, Dead(s, port, alive));
    case Peer(port, network, r) => ObserveFrame(rx, s, port, network, r);
  }

  lemma {:induction false} StepsReportNothing(rx: Receivers, s: State, steps: seq<Step>)
    requires forall i | 0 <= i < |steps| :: !steps[i].Flush? && !steps[i].Restart?
    ensures Play(rx, s, steps).bus.traffic == s.bus.traffic
    decreases |steps|
  {
    if steps != [] {
      StepReportsNothing(rx, s, steps[0]);
      StepsReportNothing(rx, Next(rx, s, steps[0]), steps[1..]);
    }
  }

  /** A tick whose namespaces can be listed attempts one report, of what was recorded, after all its events. If it is
      accepted the cache stays; if it is refused, or listing fails, the watchdog starts over with an empty cache and
      nothing recorded. */
  lemma TickEnds(rx: Receivers, s: State, tick: Tick)
    ensures var end := Play(rx, s, Script(tick));
      if tick.None? then end == State(map[], [], s.bus)
      else
        var at := Play(rx, s, SpacesSteps(tick.value));
        var heard := rx(at.bus.sends);
        && at.bus.traffic == s.bus.traffic
        && end.items == [] && end.cache == (if heard then at.cache else map[])
        && end.bus.events == at.bus.events && end.bus.sends == at.bus.sends + 1
        && end.bus.traffic == s.bus.traffic + if heard then [T.Record(0, at.items)] else []
  {
    match tick
    case None => PlayOne(rx, s, Restart);
    case Some(spaces) =>
      var at := Play(rx, s, SpacesSteps(spaces));
      PlaySplit(rx, s, SpacesSteps(spaces), [Flush]);
      PlayOne(rx, at, Flush);
      SpacesNoEnd(spaces);
      StepsReportNothing(rx, s, SpacesSteps(spaces));
      assert s.bus.traffic + [] == s.bus.traffic;
  }
}
