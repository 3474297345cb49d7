/** Runs that report more traffic for a device than its counters have grown by. Networks of newly connecting peers
    use up sends, so that the device's own event and the reports fall on the sends that matter. */
module PaddedRuns {
  import opened Basics
  import opened Config
  import opened Addressing
  import opened Watchdog
  import opened WatchdogTraffic
  import opened TrafficReports
  import opened WatchdogFailures
  import E = WatchdogEvents
  import T = Traffic

  /*** Padding: networks whose peers use up sends ***/

  function Pad(n: nat): seq<Reading> { seq(n, i requires 0 <= i < n => Reading(Stats(i, Some(HOST), Some(0), 0, 0), 0, 0)) }

  function PadNet(port: u16, n: nat): NetworkStats { NetworkStats(port + 2, port, Pad(n)) }

  lemma NewPadPeer(rx: Receivers, s: State, port: u16, network: Pubkey, i: nat)
    requires i !in EntryOf(s.cache, port)
    ensures var next := Observe(rx, s, port, network, Reading(Stats(i, Some(HOST), Some(0), 0, 0), 0, 0)).state;
      && next.bus.sends == s.bus.sends + 1 && next.bus.traffic == s.bus.traffic && next.items == s.items
      && EntryOf(next.cache, port).Keys <= EntryOf(s.cache, port).Keys + {i}
  {
  }

  // The peers from number k on, one send each.
  lemma {:induction false} PadPeers(rx: Receivers, s: State, port: u16, n: nat, k: nat)
    requires k <= n && forall x | x in EntryOf(s.cache, port) :: x < k
    ensures var t := Play(rx, s, PeerSteps(PadNet(port, n), Pad(n)[k..]));
      && t.bus.sends == s.bus.sends + (n - k) && t.bus.traffic == s.bus.traffic && t.items == s.items
      && forall x | x in EntryOf(t.cache, port) :: x < n
    decreases n - k
  {
    if k < n {
      var net := PadNet(port, n);
      var r := Pad(n)[k];
      assert Pad(n)[k..][0] == r && PeerSteps(net, Pad(n)[k..])[1..] == PeerSteps(net, Pad(n)[k + 1..]);
      NewPadPeer(rx, s, port, net.key, k);
      PadPeers(rx, Next(rx, s, Peer(port, net.key, r)), port, n, k + 1);
    }
  }

  // What a network that is not the device's leaves alone.
  ghost predicate Aside(s: State, t: State, port: u16)
  {
    t.items == s.items && t.bus.traffic == s.bus.traffic && E.OthersUntouched(s, t, port)
  }

  lemma PadPlay(rx: Receivers, s: State, port: u16, n: nat)
    requires EntryOf(s.cache, port) == map[]
    ensures var t := Play(rx, s, NetworkSteps(PadNet(port, n)));
      Aside(s, t, port) && t.bus.sends == s.bus.sends + n
  {
    var net := PadNet(port, n);
    var entered := Next(rx, s, Enter(port));
    var handled := Play(rx, entered, PeerSteps(net, net.peers));
    E.NetworkShape(rx, s, net);
    PlayNetwork(rx, s, net);
    assert Pad(n)[0..] == Pad(n);
    PadPeers(rx, entered, port, n, 0);
    forall x | x in EntryOf(handled.cache, port) ensures x in Alive(net) {
      assert net.peers[x].stats.key == x;
    }
    assert EntryOf(handled.cache, port).Keys - Alive(net) == {};
    assert Dead(handled, port, Alive(net)) == [];
  }

  /*** The device's network ***/

  function DeviceNet(readings: seq<PeerStats>): NetworkStats
  {
    NetworkStats(NETWORK, PORT, seq(|readings|, i requires 0 <= i < |readings| => Reading(readings[i], 0, 0)))
  }

  function Grows(growth: u64): T.Item { T.Item(NETWORK, PEER, 0, T.Traffic(growth, 0)) }

  // The device alone is cached for its network, with this reading.
  predicate Holds(s: State, stats: PeerStats) { EntryOf(s.cache, PORT) == map[PEER := stats] }

  // New and without a handshake: it is cached, and nothing is sent.
  lemma FirstReading(rx: Receivers, s: State)
    requires EntryOf(s.cache, PORT) == map[]
    ensures var t := Next(rx, s, PeerStep(Seen(false, 0)));
      Holds(t, Seen(false, 0)) && t.bus == s.bus && t.items == s.items
  {
    assert Expire(Seen(false, 0), 0) == Seen(false, 0);
  }

  // Grown and connected, but the event is refused: the growth is recorded, and the cached reading stays.
  lemma RefusedReading(rx: Receivers, s: State, growth: u64)
    requires Holds(s, Seen(false, 0)) && 0 < growth && !rx(s.bus.sends)
    ensures var t := Next(rx, s, PeerStep(Seen(true, growth)));
      && Holds(t, Seen(false, 0)) && t.bus == s.bus.(sends := s.bus.sends + 1) && t.items == s.items + [Grows(growth)]
  {
    assert Expire(Seen(true, growth), 0) == Seen(true, growth);
    AccountExactly(s.items, NETWORK, Seen(false, 0), Seen(true, growth), 0);
  }

  // Without a handshake again: the same growth is recorded once more, and nothing is sent.
  lemma RepeatedReading(rx: Receivers, s: State, growth: u64)
    requires Holds(s, Seen(false, 0)) && 0 < growth
    ensures var t := Next(rx, s, PeerStep(Seen(false, growth)));
      && Holds(t, Seen(false, growth)) && t.bus == s.bus && t.items == s.items + [Grows(growth)]
  {
    assert Expire(Seen(false, growth), 0) == Seen(false, growth);
    AccountExactly(s.items, NETWORK, Seen(false, 0), Seen(false, growth), 0);
  }

  // Entering changes nothing that matters here.
  lemma EnterPort(rx: Receivers, s: State, port: u16)
    ensures var t := Next(rx, s, Enter(port));
      t.bus == s.bus && t.items == s.items && forall q: u16 :: EntryOf(t.cache, q) == EntryOf(s.cache, q)
  {
  }

  /*** What parts of a tick do, for steps in general ***/

  // These steps use up n sends and touch nothing but this port's entry, if that is empty.
  ghost predicate Pads(rx: Receivers, steps: seq<Step>, port: u16, n: nat)
  {
    forall s: State | EntryOf(s.cache, port) == map[] ::
      Aside(s, Play(rx, s, steps), port) && Play(rx, s, steps).bus.sends == s.bus.sends + n
  }

  lemma PadPads(rx: Receivers, port: u16, n: nat)
    ensures Pads(rx, NetworkSteps(PadNet(port, n)), port, n)
  {
    forall s: State | EntryOf(s.cache, port) == map[]
      ensures Aside(s, Play(rx, s, NetworkSteps(PadNet(port, n))), port)
      ensures Play(rx, s, NetworkSteps(PadNet(port, n))).bus.sends == s.bus.sends + n
    {
      PadPlay(rx, s, port, n);
    }
  }

  // What the device's network does to its entry, the number of sends and the items, if its event is refused or it
  // has none.
  datatype Deed = Deed(before: map<Pubkey, PeerStats>, after: PeerStats, refused: bool, items: seq<T.Item>) {
    function Sends(): nat { if refused then 1 else 0 }
  }

  ghost predicate Applies(rx: Receivers, deed: Deed, s: State)
  {
    EntryOf(s.cache, PORT) == deed.before && (deed.refused ==> !rx(s.bus.sends))
  }

  ghost predicate Done(deed: Deed, s: State, t: State)
  {
    && Holds(t, deed.after) && t.bus.traffic == s.bus.traffic && t.bus.sends == s.bus.sends + deed.Sends()
    && t.items == s.items + deed.items
  }

  ghost predicate Does(rx: Receivers, steps: seq<Step>, deed: Deed)
  {
    forall s: State | Applies(rx, deed, s) ::
      Done(deed, s, Play(rx, s, steps)) && E.OthersUntouched(s, Play(rx, s, steps), PORT)
  }

  // The same of the readings alone, once the network is entered.
  ghost predicate ReadingsDo(rx: Receivers, steps: seq<Step>, deed: Deed)
  {
    forall s: State | Applies(rx, deed, s) :: Done(deed, s, Play(rx, s, steps))
  }

  // The sweep finds nobody dead.
  lemma NetworkDoes(rx: Receivers, readings: seq<PeerStats>, deed: Deed)
    requires readings != [] && (forall i | 0 <= i < |readings| :: readings[i].key == PEER)
    requires ReadingsDo(rx, PeerSteps(DeviceNet(readings), DeviceNet(readings).peers), deed)
    ensures Does(rx, NetworkSteps(DeviceNet(readings)), deed)
  {
    var net := DeviceNet(readings);
    assert Alive(net) == {PEER} by { assert net.peers[0].stats.key == PEER; }
    forall s: State | Applies(rx, deed, s)
      ensures Done(deed, s, Play(rx, s, NetworkSteps(net))) && E.OthersUntouched(s, Play(rx, s, NetworkSteps(net)), PORT)
    {
      var entered := Next(rx, s, Enter(PORT));
      var t := Play(rx, entered, PeerSteps(net, net.peers));
      EnterPort(rx, s, PORT);
      assert Applies(rx, deed, entered) && Done(deed, entered, t);
      PlayNetwork(rx, s, net);
      SweepNobody(rx, t);
      E.NetworkShape(rx, s, net);
    }
  }

  lemma ReadingsThen(rx: Receivers, a: seq<Step>, b: seq<Step>, first: Deed, second: Deed)
    requires ReadingsDo(rx, a, first) && ReadingsDo(rx, b, second) && second.before == map[PEER := first.after]
    requires !(first.refused && second.refused) && (second.refused ==> first.Sends() == 0)
    ensures second.refused ==> ReadingsDo(rx, a + b, Deed(first.before, second.after, true, first.items + second.items))
    ensures !second.refused ==> ReadingsDo(rx, a + b, Deed(first.before, second.after, first.refused, first.items + second.items))
  {
    var deed := Deed(first.before, second.after, first.refused || second.refused, first.items + second.items);
    forall s: State | Applies(rx, deed, s) ensures Done(deed, s, Play(rx, s, a + b)) {
      PlaySplit(rx, s, a, b);
      assert Applies(rx, first, s);
      var mid := Play(rx, s, a);
      assert Done(first, s, mid) && Applies(rx, second, mid);
      assert Done(second, mid, Play(rx, mid, b));
      assert s.items + first.items + second.items == s.items + (first.items + second.items);
    }
  }

  const QUIET := Seen(false, 0)

  function First(): Deed { Deed(map[], QUIET, false, []) }

  function Refused(growth: u64): Deed { Deed(map[PEER := QUIET], QUIET, true, [Grows(growth)]) }

  function Repeated(growth: u64): Deed { Deed(map[PEER := QUIET], Seen(false, growth), false, [Grows(growth)]) }

  lemma OneReads(rx: Receivers, growth: u64)
    requires 0 < growth
    ensures ReadingsDo(rx, [PeerStep(QUIET)], First())
    ensures ReadingsDo(rx, [PeerStep(Seen(true, growth))], Refused(growth))
    ensures ReadingsDo(rx, [PeerStep(Seen(false, growth))], Repeated(growth))
  {
    forall s: State | Applies(rx, First(), s) ensures Done(First(), s, Play(rx, s, [PeerStep(QUIET)])) {
      PlayOne(rx, s, PeerStep(QUIET));
      FirstReading(rx, s);
      assert s.items + [] == s.items;
    }
    forall s: State | Applies(rx, Refused(growth), s)
      ensures Done(Refused(growth), s, Play(rx, s, [PeerStep(Seen(true, growth))]))
    {
      PlayOne(rx, s, PeerStep(Seen(true, growth)));
      RefusedReading(rx, s, growth);
    }
    forall s: State | Applies(rx, Repeated(growth), s)
      ensures Done(Repeated(growth), s, Play(rx, s, [PeerStep(Seen(false, growth))]))
    {
      PlayOne(rx, s, PeerStep(Seen(false, growth)));
      RepeatedReading(rx, s, growth);
    }
  }

  // No network on this port or a later padding port has been seen.
  ghost predicate Unused(s: State, port: u16) { forall q: u16 | port <= q < 12 :: EntryOf(s.cache, q) == map[] }

  lemma StaysUnused(s: State, t: State, port: u16, from: u16)
    requires Unused(s, from) && E.OthersUntouched(s, t, port) && (port < from || port >= 12)
    ensures Unused(t, from) && (port != PORT ==> EntryOf(t.cache, PORT) == EntryOf(s.cache, PORT))
  {
    forall q: u16 | q != port ensures EntryOf(t.cache, q) == EntryOf(s.cache, q) {
      assert Lookup(t.cache, q) == Lookup(s.cache, q);
    }
  }

  // Between ticks: the device's cached reading, the number of sends, and the traffic reported so far.
  ghost predicate Between(s: State, entry: map<Pubkey, PeerStats>, sends: nat, total: nat)
  {
    && s.items == [] && EntryOf(s.cache, PORT) == entry && s.bus.sends == sends
    && Reported(DEVICE, s.bus.traffic, T.Rx) == total
  }

  lemma Flushed(rx: Receivers, s: State, entry: map<Pubkey, PeerStats>, port: u16)
    requires EntryOf(s.cache, PORT) == entry && Unused(s, port) && rx(s.bus.sends)
    ensures var t := Next(rx, s, Flush);
      && Between(t, entry, s.bus.sends + 1, Reported(DEVICE, s.bus.traffic, T.Rx) + Pending(DEVICE, s.items, T.Rx) % U64)
      && Unused(t, port)
  {
    ReportedAppend(DEVICE, s.bus.traffic, s.items, T.Rx);
  }

  // What a padded tick needs, and what it leaves.
  ghost predicate Ready(rx: Receivers, s: State, port: u16, x: nat, y: nat, deed: Deed)
  {
    && Unused(s, port) && s.items == [] && EntryOf(s.cache, PORT) == deed.before
    && (deed.refused ==> !rx(s.bus.sends + x)) && rx(s.bus.sends + x + deed.Sends() + y)
  }

  ghost predicate Ticked(s: State, t: State, port: u16, x: nat, y: nat, deed: Deed)
  {
    && Between(t, map[PEER := deed.after], s.bus.sends + x + deed.Sends() + y + 1,
         Reported(DEVICE, s.bus.traffic, T.Rx) + Pending(DEVICE, deed.items, T.Rx) % U64)
    && forall q: u16 | port + 2 <= q < 12 :: EntryOf(t.cache, q) == map[]
  }

  // A padded tick with an accepted report.
  lemma TickDoes(rx: Receivers, s: State, p: seq<Step>, d: seq<Step>, q: seq<Step>, port: u16, x: nat, y: nat, deed: Deed)
    requires port < 10 && Pads(rx, p, port, x) && Pads(rx, q, port + 1, y) && Does(rx, d, deed)
    requires Ready(rx, s, port, x, y, deed)
    ensures Ticked(s, Play(rx, s, p + (d + (q + [Flush]))), port, x, y, deed)
  {
    PlaySplit(rx, s, p, d + (q + [Flush]));
    var a := Play(rx, s, p);
    PlaySplit(rx, a, d, q + [Flush]);
    var b := Play(rx, a, d);
    PlaySplit(rx, b, q, [Flush]);
    var c := Play(rx, b, q);
    PlayOne(rx, c, Flush);
    TickParts(rx, s, a, b, c, port, x, y, deed);
  }

  lemma TickParts(rx: Receivers, s: State, a: State, b: State, c: State, port: u16, x: nat, y: nat, deed: Deed)
    requires port < 10 && Ready(rx, s, port, x, y, deed)
    requires Aside(s, a, port) && a.bus.sends == s.bus.sends + x
    requires Applies(rx, deed, a) ==> Done(deed, a, b) && E.OthersUntouched(a, b, PORT)
    requires EntryOf(b.cache, port + 1) == map[] ==> Aside(b, c, port + 1) && c.bus.sends == b.bus.sends + y
    ensures Ticked(s, Next(rx, c, Flush), port, x, y, deed)
  {
    StaysUnused(s, a, port, port + 1);
    assert Applies(rx, deed, a);
    StaysUnused(a, b, PORT, port + 1);
    StaysUnused(b, c, port + 1, port + 2);
    assert [] + deed.items == deed.items;
    Flushed(rx, c, map[PEER := deed.after], port + 2);
  }

  lemma DeviceSteps(readings: seq<PeerStats>)
    ensures PeerSteps(DeviceNet(readings), DeviceNet(readings).peers)
      == seq(|readings|, i requires 0 <= i < |readings| => PeerStep(readings[i]))
  {
  }

  /*** Padded ticks ***/

  function SpaceOf(net: NetworkStats): Space { Space(NetnsName(net.port), Some(net)) }

  // The device's network between two padding networks on ports that are new.
  function Padded(port: u16, x: nat, readings: seq<PeerStats>, y: nat): Tick
    requires port < 10
  {
    Some([SpaceOf(PadNet(port, x)), SpaceOf(DeviceNet(readings)), SpaceOf(PadNet(port + 1, y))])
  }

  lemma SpacesFront(space: Space, rest: seq<Space>)
    ensures SpacesSteps([space] + rest) == SpaceSteps(space) + SpacesSteps(rest)
  {
    assert ([space] + rest)[1..] == rest;
  }

  lemma Nested(a: seq<Step>, b: seq<Step>, c: seq<Step>, d: seq<Step>)
    ensures a + (b + (c + [])) + d == a + (b + (c + d))
  {
  }

  lemma ThreeSpaces(a: Space, b: Space, c: Space)
    ensures SpacesSteps([a, b, c]) + [Flush] == SpaceSteps(a) + (SpaceSteps(b) + (SpaceSteps(c) + [Flush]))
  {
    assert [a, b, c] == [a] + ([b] + ([c] + []));
    SpacesFront(a, [b] + ([c] + []));
    SpacesFront(b, [c] + []);
    SpacesFront(c, []);
    Nested(SpaceSteps(a), SpaceSteps(b), SpaceSteps(c), [Flush]);
  }

  lemma SpaceScript(net: NetworkStats)
    ensures SpaceSteps(SpaceOf(net)) == NetworkSteps(net)
  {
  }

  lemma PaddedScript(port: u16, x: nat, readings: seq<PeerStats>, y: nat)
    requires port < 10
    ensures Script(Padded(port, x, readings, y)) == NetworkSteps(PadNet(port, x))
      + (NetworkSteps(DeviceNet(readings)) + (NetworkSteps(PadNet(port + 1, y)) + [Flush]))
  {
    ThreeSpaces(SpaceOf(PadNet(port, x)), SpaceOf(DeviceNet(readings)), SpaceOf(PadNet(port + 1, y)));
    SpaceScript(PadNet(port, x));
    SpaceScript(DeviceNet(readings));
    SpaceScript(PadNet(port + 1, y));
  }

  lemma ItemsPending(growth: u64)
    ensures Pending(DEVICE, [], T.Rx) == 0 && Pending(DEVICE, [] + [Grows(growth)], T.Rx) == growth
    ensures Pending(DEVICE, [] + [Grows(growth)] + [Grows(growth)], T.Rx) == 2 * growth
  {
    PendingAppend(DEVICE, [], Grows(growth), T.Rx);
    PendingAppend(DEVICE, [] + [Grows(growth)], Grows(growth), T.Rx);
  }

  // These steps are a tick with an accepted report, in which the device's network does its deed after x sends and
  // before y more.
  ghost predicate TickOf(rx: Receivers, script: seq<Step>, port: u16, x: nat, y: nat, deed: Deed)
  {
    forall s: State | Ready(rx, s, port, x, y, deed) :: Ticked(s, Play(rx, s, script), port, x, y, deed)
  }

  lemma PaddedIsTick(rx: Receivers, port: u16, x: nat, readings: seq<PeerStats>, y: nat, deed: Deed)
    requires port < 10 && Does(rx, NetworkSteps(DeviceNet(readings)), deed)
    ensures TickOf(rx, Script(Padded(port, x, readings, y)), port, x, y, deed)
  {
    PadPads(rx, port, x);
    PadPads(rx, port + 1, y);
    PaddedScript(port, x, readings, y);
    PartsAreTick(rx, NetworkSteps(PadNet(port, x)), NetworkSteps(DeviceNet(readings)), NetworkSteps(PadNet(port + 1, y)),
      port, x, y, deed);
  }

  lemma PartsAreTick(rx: Receivers, p: seq<Step>, d: seq<Step>, q: seq<Step>, port: u16, x: nat, y: nat, deed: Deed)
    requires port < 10 && Pads(rx, p, port, x) && Pads(rx, q, port + 1, y) && Does(rx, d, deed)
    ensures TickOf(rx, p + (d + (q + [Flush])), port, x, y, deed)
  {
    forall s: State | Ready(rx, s, port, x, y, deed) ensures Ticked(s, Play(rx, s, p + (d + (q + [Flush]))), port, x, y, deed) {
      TickDoes(rx, s, p, d, q, port, x, y, deed);
    }
  }

  lemma OneDoes(rx: Receivers, reading: PeerStats, deed: Deed)
    requires reading.key == PEER && ReadingsDo(rx, [PeerStep(reading)], deed)
    ensures Does(rx, NetworkSteps(DeviceNet([reading])), deed)
  {
    DeviceSteps([reading]);
    assert PeerSteps(DeviceNet([reading]), DeviceNet([reading]).peers) == [PeerStep(reading)];
    NetworkDoes(rx, [reading], deed);
  }

  const THREE := [QUIET, Seen(true, 1), Seen(false, 1)]

  function AllThree(): Deed { Deed(map[], Seen(false, 1), true, [] + [Grows(1)] + [Grows(1)]) }

  lemma ThreeReadings(rx: Receivers)
    ensures Does(rx, NetworkSteps(DeviceNet(THREE)), AllThree())
  {
    var a, b, c := PeerStep(QUIET), PeerStep(Seen(true, 1)), PeerStep(Seen(false, 1));
    OneReads(rx, 1);
    ReadingsThen(rx, [a], [b], First(), Refused(1));
    ReadingsThen(rx, [a] + [b], [c], Deed(map[], QUIET, true, [] + [Grows(1)]), Repeated(1));
    DeviceSteps(THREE);
    assert PeerSteps(DeviceNet(THREE), DeviceNet(THREE).peers) == [a] + [b] + [c];
    NetworkDoes(rx, THREE, AllThree());
  }

  /*** What these runs read ***/

  lemma {:induction false} NotRead(steps: seq<Step>)
    requires forall i | 0 <= i < |steps| :: !Reads(DEVICE, steps[i])
    ensures Readings(DEVICE, steps) == []
  {
    if steps != [] {
      assert !Reads(DEVICE, steps[0]);
      assert forall i | 0 <= i < |steps[1..]| :: steps[1..][i] == steps[i + 1];
      NotRead(steps[1..]);
    }
  }

  lemma {:induction false} AllRead(readings: seq<PeerStats>, steps: seq<Step>)
    requires |steps| == |readings| && forall i | 0 <= i < |steps| :: steps[i] == PeerStep(readings[i]) && readings[i].key == PEER
    ensures Readings(DEVICE, steps) == readings
  {
    if steps != [] {
      assert steps[0] == PeerStep(readings[0]);
      AllRead(readings[1..], steps[1..]);
    }
  }

  lemma DeviceReadings(readings: seq<PeerStats>)
    requires forall i | 0 <= i < |readings| :: readings[i].key == PEER
    ensures Readings(DEVICE, NetworkSteps(DeviceNet(readings))) == readings
  {
    var net := DeviceNet(readings);
    var enter, peers, sweep := [Enter(PORT)], PeerSteps(net, net.peers), [Sweep(PORT, NETWORK, Alive(net))];
    DeviceSteps(readings);
    AllRead(readings, peers);
    NotRead(enter);
    NotRead(sweep);
    ReadingsSplit(DEVICE, enter + peers, sweep);
    ReadingsSplit(DEVICE, enter, peers);
  }

  lemma PadNotRead(port: u16, n: nat)
    requires port != PORT
    ensures Readings(DEVICE, NetworkSteps(PadNet(port, n))) == []
  {
    NotRead(NetworkSteps(PadNet(port, n)));
  }

  lemma PartsReadings(p: seq<Step>, d: seq<Step>, q: seq<Step>, readings: seq<PeerStats>)
    requires Readings(DEVICE, p) == [] && Readings(DEVICE, d) == readings && Readings(DEVICE, q) == []
    ensures Readings(DEVICE, p + (d + (q + [Flush]))) == readings
  {
    ReadingsSplit(DEVICE, p, d + (q + [Flush]));
    ReadingsSplit(DEVICE, d, q + [Flush]);
    ReadingsSplit(DEVICE, q, [Flush]);
    NotRead([Flush]);
  }

  lemma PaddedReadings(port: u16, x: nat, readings: seq<PeerStats>, y: nat)
    requires port < 10 && forall i | 0 <= i < |readings| :: readings[i].key == PEER
    ensures Readings(DEVICE, Script(Padded(port, x, readings, y))) == readings
  {
    PaddedScript(port, x, readings, y);
    PadNotRead(port, x);
    PadNotRead(port + 1, y);
    DeviceReadings(readings);
    PartsReadings(NetworkSteps(PadNet(port, x)), NetworkSteps(DeviceNet(readings)), NetworkSteps(PadNet(port + 1, y)), readings);
  }

  lemma PaddedOwnKeys(port: u16, x: nat, readings: seq<PeerStats>, y: nat)
    requires port < 10
    ensures OwnKeys(DEVICE, Script(Padded(port, x, readings, y)))
  {
    PaddedScript(port, x, readings, y);
    NetOwnKeys(PadNet(port, x));
    NetOwnKeys(DeviceNet(readings));
    NetOwnKeys(PadNet(port + 1, y));
  }

  lemma NetOwnKeys(net: NetworkStats)
    requires net.port == PORT <==> net.key == NETWORK
    ensures OwnKeys(DEVICE, NetworkSteps(net))
  {
  }

  lemma PaddedDistinct(port: u16, x: nat, reading: PeerStats, y: nat)
    requires port < 10
    ensures DistinctKeys(Padded(port, x, [reading], y).value)
  {
  }

  // A tick that does the deed, known by what it does and by what is read in it.
  lemma MakeTick(rx: Receivers, port: u16, x: nat, readings: seq<PeerStats>, y: nat, deed: Deed) returns (tick: Tick)
    requires port < 10 && Does(rx, NetworkSteps(DeviceNet(readings)), deed)
    requires forall i | 0 <= i < |readings| :: readings[i].key == PEER
    ensures TickOf(rx, Script(tick), port, x, y, deed)
    ensures Readings(DEVICE, Script(tick)) == readings && OwnKeys(DEVICE, Script(tick))
    ensures tick.Some? && (|readings| == 1 ==> DistinctKeys(tick.value))
  {
    tick := Padded(port, x, readings, y);
    PaddedIsTick(rx, port, x, readings, y, deed);
    PaddedReadings(port, x, readings, y);
    PaddedOwnKeys(port, x, readings, y);
    if |readings| == 1 {
      assert readings == [readings[0]];
      PaddedDistinct(port, x, readings[0], y);
    }
  }

  lemma OneTick(rx: Receivers, port: u16, x: nat, reading: PeerStats, y: nat, deed: Deed) returns (tick: Tick)
    requires port < 10 && reading.key == PEER && ReadingsDo(rx, [PeerStep(reading)], deed)
    ensures TickOf(rx, Script(tick), port, x, y, deed)
    ensures Readings(DEVICE, Script(tick)) == [reading] && OwnKeys(DEVICE, Script(tick))
    ensures tick.Some? && DistinctKeys(tick.value)
  {
    OneDoes(rx, reading, deed);
    tick := MakeTick(rx, port, x, [reading], y, deed);
  }

  lemma StartReady(rx: Receivers, x: nat, y: nat, deed: Deed)
    requires deed.before == map[] && (deed.refused ==> !rx(x)) && rx(x + deed.Sends() + y)
    ensures Ready(rx, START, 0, x, y, deed) && Reported(DEVICE, START.bus.traffic, T.Rx) == 0
  {
  }

  lemma SingleTick(rx: Receivers, script: seq<Step>, x: nat, y: nat)
    requires TickOf(rx, script, 0, x, y, AllThree()) && !rx(x) && rx(x + 1 + y)
    ensures Reported(DEVICE, Play(rx, START, script).bus.traffic, T.Rx) == 2
  {
    StartReady(rx, x, y, AllThree());
    assert Ticked(START, Play(rx, START, script), 0, x, y, AllThree());
    ItemsPending(1);
  }

  /** If a send is refused and a later one accepted, some tick, in whose snapshot the device is listed three times,
      reports twice the growth of its counters. */
  lemma RepeatedPeerCountsTwice(rx: Receivers, i: nat, j: nat) returns (ticks: seq<Tick>)
    requires i < j && !rx(i) && rx(j)
    ensures OwnKeys(DEVICE, AllSteps(ticks)) && Rising(Readings(DEVICE, AllSteps(ticks)))
    ensures Growth(Readings(DEVICE, AllSteps(ticks)), T.Rx) == 1
    ensures Reported(DEVICE, Run(rx, ticks).bus.traffic, T.Rx) == 2
  {
    ThreeReadings(rx);
    var tick := MakeTick(rx, 0, i, THREE, j - i - 1, AllThree());
    ticks := [tick];
    assert AllSteps(ticks) == Script(tick) by { assert ticks[1..] == []; }
    SingleTick(rx, Script(tick), i, j - i - 1);
  }

  lemma ThreeSteps(a: Tick, b: Tick, c: Tick)
    ensures AllSteps([a, b, c]) == Script(a) + (Script(b) + Script(c))
  {
    assert [a, b, c][1..] == [b, c] && [b, c][1..] == [c] && [c][1..] == [];
    assert AllSteps([c]) == Script(c);
  }

  lemma DeedPending(growth: u64)
    ensures Pending(DEVICE, First().items, T.Rx) % U64 == 0
    ensures Pending(DEVICE, Refused(growth).items, T.Rx) % U64 == growth
    ensures Pending(DEVICE, Repeated(growth).items, T.Rx) % U64 == growth
  {
    ItemsPending(growth);
    assert [] + [Grows(growth)] == [Grows(growth)];
  }

  // One tick seen from its figures.
  lemma TickFigures(rx: Receivers, s: State, t: State, port: u16, x: nat, y: nat, deed: Deed, sends: nat, total: nat, added: nat)
    requires Between(s, deed.before, sends, total) && Unused(s, port) && port < 10
    requires (deed.refused ==> !rx(sends + x)) && rx(sends + x + deed.Sends() + y)
    requires Pending(DEVICE, deed.items, T.Rx) % U64 == added
    requires Ready(rx, s, port, x, y, deed) ==> Ticked(s, t, port, x, y, deed)
    ensures Between(t, map[PEER := deed.after], sends + x + deed.Sends() + y + 1, total + added) && Unused(t, port + 2)
  {
    assert Ready(rx, s, port, x, y, deed);
  }

  lemma StartFigures()
    ensures Between(START, map[], 0, 0) && Unused(START, 0)
  {
  }

  // The states after three ticks that first cache the device, then record its growth without caching it, then
  // record it again.
  lemma LateStates(rx: Receivers, s: State, t: State, u: State, a: nat, x: nat, y: nat, z: nat, growth: u64)
    requires rx(a) && !rx(a + 1 + x) && rx(a + 1 + x + 1 + y) && rx(a + x + y + z + 3)
    requires Ready(rx, START, 0, a, 0, First()) ==> Ticked(START, s, 0, a, 0, First())
    requires Ready(rx, s, 2, x, y, Refused(growth)) ==> Ticked(s, t, 2, x, y, Refused(growth))
    requires Ready(rx, t, 4, z, 0, Repeated(growth)) ==> Ticked(t, u, 4, z, 0, Repeated(growth))
    ensures Reported(DEVICE, u.bus.traffic, T.Rx) == 2 * growth
  {
    DeedPending(growth);
    StartFigures();
    TickFigures(rx, START, s, 0, a, 0, First(), 0, 0, 0);
    TickFigures(rx, s, t, 2, x, y, Refused(growth), a + 1, 0, growth);
    TickFigures(rx, t, u, 4, z, 0, Repeated(growth), a + x + y + 3, growth, growth);
  }

  lemma LateScripts(rx: Receivers, p: seq<Step>, q: seq<Step>, r: seq<Step>, a: nat, x: nat, y: nat, z: nat, growth: u64)
    requires 0 < growth && TickOf(rx, p, 0, a, 0, First()) && rx(a)
    requires TickOf(rx, q, 2, x, y, Refused(growth)) && !rx(a + 1 + x) && rx(a + 1 + x + 1 + y)
    requires TickOf(rx, r, 4, z, 0, Repeated(growth)) && rx(a + x + y + z + 3)
    ensures Reported(DEVICE, Play(rx, START, p + (q + r)).bus.traffic, T.Rx) == 2 * growth
  {
    PlaySplit(rx, START, p, q + r);
    var s := Play(rx, START, p);
    PlaySplit(rx, s, q, r);
    LateStates(rx, s, Play(rx, s, q), Play(rx, Play(rx, s, q), r), a, x, y, z, growth);
  }

  lemma LateReadings(p: seq<Step>, q: seq<Step>, r: seq<Step>, growth: u64)
    requires OwnKeys(DEVICE, p) && OwnKeys(DEVICE, q) && OwnKeys(DEVICE, r)
    requires Readings(DEVICE, p) == [QUIET] && Readings(DEVICE, q) == [Seen(true, growth)]
    requires Readings(DEVICE, r) == [Seen(false, growth)]
    ensures OwnKeys(DEVICE, p + (q + r)) && Rising(Readings(DEVICE, p + (q + r)))
    ensures Growth(Readings(DEVICE, p + (q + r)), T.Rx) == growth
  {
    ReadingsSplit(DEVICE, p, q + r);
    ReadingsSplit(DEVICE, q, r);
    assert Readings(DEVICE, p + (q + r)) == [QUIET, Seen(true, growth), Seen(false, growth)];
  }

  /** If sends are accepted, then refused, then accepted twice more, however far apart, some run over distinct
      networks and peers reports twice the growth of a device's counters, whatever that growth is. */
  lemma LateSubscriberCountsTwice(rx: Receivers, a: nat, i: nat, j: nat, m: nat, growth: u64) returns (ticks: seq<Tick>)
    requires a < i < j < m && rx(a) && !rx(i) && rx(j) && rx(m) && 0 < growth
    ensures DistinctTicks(ticks) && OwnKeys(DEVICE, AllSteps(ticks)) && Rising(Readings(DEVICE, AllSteps(ticks)))
    ensures Growth(Readings(DEVICE, AllSteps(ticks)), T.Rx) == growth
    ensures Reported(DEVICE, Run(rx, ticks).bus.traffic, T.Rx) == 2 * growth
  {
    var x, y, z := i - a - 1, j - i - 1, m - j - 1;
    OneReads(rx, growth);
    var first := OneTick(rx, 0, a, QUIET, 0, First());
    var second := OneTick(rx, 2, x, Seen(true, growth), y, Refused(growth));
    var third := OneTick(rx, 4, z, Seen(false, growth), 0, Repeated(growth));
    ticks := [first, second, third];
    var p, q, r := Script(first), Script(second), Script(third);
    LateScripts(rx, p, q, r, a, x, y, z, growth);
    ThreeSteps(first, second, third);
    LateReadings(p, q, r, growth);
  }
}
