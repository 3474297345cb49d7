/** When the traffic reported for a device is bounded by its counters, when it equals their growth, and what one
    report holds. */
module TrafficReports {
  import opened Basics
  import opened Config
  import opened Addressing
  import opened Watchdog
  import opened WatchdogTraffic
  import T = Traffic

  /*** Receivers come and go between ticks only ***/

  // All sends numbered from `from` up to `to` get the same answer.
  ghost predicate Constant(rx: Receivers, from: nat, to: nat)
  {
    forall i | from <= i < to :: rx(i) == rx(from)
  }

  ghost predicate SteadyTicks(rx: Receivers, s: State, ticks: seq<Tick>)
    decreases |ticks|
  {
    ticks == [] ||
    (var next := Play(rx, s, Script(ticks[0]));
     Constant(rx, s.bus.sends, next.bus.sends) && SteadyTicks(rx, next, ticks[1..]))
  }

  lemma {:induction false} BurySends(rx: Receivers, s: State, port: u16, network: Pubkey, dead: seq<Pubkey>)
    ensures var b := Bury(rx, s, port, network, dead).state.bus;
      && s.bus.sends <= b.sends
      && ((forall i | s.bus.sends <= i < b.sends :: rx(i)) ==> b.sends - s.bus.sends == |b.events| - |s.bus.events|)
    decreases |dead|
  {
    if dead != [] {
      var gone := s.(cache := s.cache[port := EntryOf(s.cache, port) - {dead[0]}]);
      var r := Send(rx, gone, port, Disconnected(network, dead[0]));
      if r.ok { BurySends(rx, r.state, port, network, dead[1..]); }
    }
  }

  lemma NextSends(rx: Receivers, s: State, step: Step)
    ensures var next := Next(rx, s, step);
      && s.bus.sends <= next.bus.sends
      && ((forall i | s.bus.sends <= i < next.bus.sends :: rx(i)) ==> !Refuses(rx, s, step))
  {
    match step
    case Enter(_) =>
    case Peer(port, network, reading) =>
    case Sweep(port, network, alive) => BurySends(rx, s, port, network, Dead(s, port, alive));
    case Flush =>
    case Restart =>
  }

  lemma {:induction false} PlaySends(rx: Receivers, s: State, steps: seq<Step>)
    ensures s.bus.sends <= Play(rx, s, steps).bus.sends
    decreases |steps|
  {
    if steps != [] {
      NextSends(rx, s, steps[0]);
      PlaySends(rx, Next(rx, s, steps[0]), steps[1..]);
    }
  }

  // With one answer to all sends, no report is accepted after a refused event.
  lemma {:induction false} ConstantNotLate(rx: Receivers, s: State, steps: seq<Step>, refused: bool, on: bool)
    requires forall i | s.bus.sends <= i < Play(rx, s, steps).bus.sends :: rx(i) == on
    requires on ==> !refused
    ensures NoLateSubscriber(rx, s, steps, refused)
    decreases |steps|
  {
    if steps != [] {
      var next := Next(rx, s, steps[0]);
      NextSends(rx, s, steps[0]);
      PlaySends(rx, next, steps[1..]);
      ConstantNotLate(rx, next, steps[1..], RefusedNext(rx, s, steps[0], refused), on);
    }
  }

  lemma {:induction false} NotLateSplit(rx: Receivers, s: State, a: seq<Step>, b: seq<Step>, refused: bool)
    requires NoLateSubscriber(rx, s, a, refused)
    requires NoLateSubscriber(rx, Play(rx, s, a), b, RefusedAfter(rx, s, a, refused))
    ensures NoLateSubscriber(rx, s, a + b, refused)
    decreases |a|
  {
    if a == [] {
      assert a + b == b;
    } else {
      assert (a + b)[0] == a[0] && (a + b)[1..] == a[1..] + b;
      NotLateSplit(rx, Next(rx, s, a[0]), a[1..], b, RefusedNext(rx, s, a[0], refused));
    }
  }

  lemma {:induction false} TickEndsClean(rx: Receivers, s: State, steps: seq<Step>, refused: bool)
    requires steps != [] && (steps[|steps| - 1].Flush? || steps[|steps| - 1].Restart?)
    ensures !RefusedAfter(rx, s, steps, refused)
    ensures Play(rx, s, steps).items == []
    decreases |steps|
  {
    if |steps| > 1 {
      TickEndsClean(rx, Next(rx, s, steps[0]), steps[1..], RefusedNext(rx, s, steps[0], refused));
    } else {
      assert steps[1..] == [];
    }
  }

  lemma {:induction false} SteadyIsNotLate(rx: Receivers, s: State, ticks: seq<Tick>)
    requires SteadyTicks(rx, s, ticks)
    ensures NoLateSubscriber(rx, s, AllSteps(ticks), false)
    decreases |ticks|
  {
    if ticks != [] {
      var script := Script(ticks[0]);
      var next := Play(rx, s, script);
      ConstantNotLate(rx, s, script, false, rx(s.bus.sends));
      TickEndsClean(rx, s, script, false);
      SteadyIsNotLate(rx, next, ticks[1..]);
      NotLateSplit(rx, s, script, AllSteps(ticks[1..]), false);
    }
  }

  /** While counters do not decrease and receivers come and go between ticks only, the traffic accepted for a
      device never exceeds the growth of its counters, across failed reads, failed sends and restarts. */
  lemma NeverOverReportedWhenSteady(rx: Receivers, ticks: seq<Tick>, d: Device, dir: T.Dir)
    requires SteadyTicks(rx, START, ticks) && OwnKeys(d, AllSteps(ticks)) && Rising(Readings(d, AllSteps(ticks)))
    ensures Reported(d, Run(rx, ticks).bus.traffic, dir) <= Growth(Readings(d, AllSteps(ticks)), dir)
  {
    SteadyIsNotLate(rx, START, ticks);
    NeverOverReported(rx, ticks, d, dir);
  }

  /*** Nothing is lost either ***/

  // Listing never fails, the clock is past the epoch when the device is read and, once read, the device is in
  // every snapshot of its network that is read.
  predicate Tracked(d: Device, steps: seq<Step>, seen: bool)
  {
    steps == [] || (TrackedStep(d, steps[0], seen) && Tracked(d, steps[1..], seen || Reads(d, steps[0])))
  }

  predicate TrackedStep(d: Device, step: Step, seen: bool)
  {
    && !step.Restart?
    && (Reads(d, step) ==> step.reading.second >= 0)
    && (step.Sweep? && step.port == d.port && seen ==> d.peer in step.alive)
  }

  // The counters grow by exactly the word size in both directions together.
  predicate FullTurn(a: PeerStats, b: PeerStats)
  {
    a.rx <= b.rx && a.tx <= b.tx && b.rx - a.rx + b.tx - a.tx == U64
  }

  ghost predicate NoFullTurn(readings: seq<PeerStats>)
  {
    forall i | 0 < i < |readings| :: !FullTurn(readings[i - 1], readings[i])
  }

  // The growth in full turns.
  function Lost(readings: seq<PeerStats>, dir: T.Dir): nat
  {
    if |readings| < 2 then 0
    else Lost(readings[..|readings| - 1], dir) + Turn(readings[|readings| - 2], readings[|readings| - 1], dir)
  }

  function Turn(a: PeerStats, b: PeerStats, dir: T.Dir): nat
  {
    if FullTurn(a, b) then b.Get(dir) - a.Get(dir) else 0
  }

  lemma LostAppend(seen: seq<PeerStats>, r: PeerStats, dir: T.Dir)
    ensures Lost(seen + [r], dir) == if seen == [] then 0 else Lost(seen, dir) + Turn(seen[|seen| - 1], r, dir)
  {
    assert (seen + [r])[..|seen|] == seen;
  }

  lemma {:induction false} LostNothing(readings: seq<PeerStats>, dir: T.Dir)
    ensures Lost(readings, dir) == 0 <==> NoFullTurn(readings)
  {
    if |readings| >= 2 {
      var init := readings[..|readings| - 1];
      LostNothing(init, dir);
      assert forall i | 0 <= i < |init| :: init[i] == readings[i];
      if NoFullTurn(init) && !FullTurn(readings[|readings| - 2], readings[|readings| - 1]) {
        forall i | 0 < i < |readings| ensures !FullTurn(readings[i - 1], readings[i]) {
          if i < |init| { assert !FullTurn(init[i - 1], init[i]); }
        }
      }
      if NoFullTurn(readings) {
        forall i | 0 < i < |init| ensures !FullTurn(init[i - 1], init[i]) {
          assert !FullTurn(readings[i - 1], readings[i]);
        }
        assert !FullTurn(readings[|init| - 1], readings[|init|]);
      }
    }
  }

  predicate SameCounters(a: PeerStats, b: PeerStats) { a.rx == b.rx && a.tx == b.tx }

  // Reported and pending traffic together are what the counters have grown by, but for full turns.
  ghost predicate Exact(d: Device, s: State, seen: seq<PeerStats>, dir: T.Dir)
  {
    var reported, pending := WatchdogTraffic.Reported(d, s.bus.traffic, dir), Pending(d, s.items, dir);
    && reported + pending + Lost(seen, dir) == Growth(seen, dir)
    && (seen == [] ==> Cached(d, s).None?)
    && (seen != [] ==> Cached(d, s).Some? && SameCounters(Cached(d, s).value, seen[|seen| - 1]))
  }

  lemma OwnExact(d: Device, rx: Receivers, s: State, seen: seq<PeerStats>, step: Step, dir: T.Dir)
    requires Exact(d, s, seen, dir) && Reads(d, step) && OwnKey(d, step) && step.reading.second >= 0
    requires Rising(SeenNext(d, seen, step)) && !Refuses(rx, s, step)
    ensures Exact(d, Next(rx, s, step), SeenNext(d, seen, step), dir)
  {
    var r := step.reading;
    var cur := Expire(r.stats, r.first);
    var after := SeenNext(d, seen, step);
    LostAppend(seen, r.stats, dir);
    if seen == [] {
      ObserveOwn(d, rx, s, step, dir);
    } else {
      assert after[|seen| - 1] == seen[|seen| - 1] && after[|seen|] == r.stats && after[0] == seen[0];
      ObserveOwn(d, rx, s, step, dir);
      AccountPending(d, s.items, d.network, Cached(d, s).value, cur, r.second, dir);
    }
  }

  lemma FlushExact(d: Device, rx: Receivers, s: State, seen: seq<PeerStats>, dir: T.Dir)
    requires Exact(d, s, seen, dir) && rx(s.bus.sends) && Growth(seen, dir) < U64
    ensures Exact(d, Next(rx, s, Flush), seen, dir)
  {
    FlushFigures(d, rx, s, dir);
  }

  lemma NextExact(d: Device, rx: Receivers, s: State, seen: seq<PeerStats>, step: Step, dir: T.Dir)
    requires Exact(d, s, seen, dir) && OwnKey(d, step) && TrackedStep(d, step, seen != [])
    requires Rising(SeenNext(d, seen, step))
    requires if step.Flush? then rx(s.bus.sends) else !Refuses(rx, s, step)
    ensures Exact(d, Next(rx, s, step), SeenNext(d, seen, step), dir)
  {
    if Reads(d, step) {
      OwnExact(d, rx, s, seen, step, dir);
    } else if step.Flush? {
      FlushExact(d, rx, s, seen, dir);
    } else {
      QuietStep(d, rx, s, step, dir);
      assert Cached(d, Next(rx, s, step)) == Cached(d, s);
    }
  }

  // Every send made while these steps are played finds a receiver.
  ghost predicate Heard(rx: Receivers, s: State, steps: seq<Step>)
  {
    forall i | s.bus.sends <= i < Play(rx, s, steps).bus.sends :: rx(i)
  }

  lemma HeardNext(rx: Receivers, s: State, steps: seq<Step>)
    requires steps != [] && Heard(rx, s, steps)
    ensures Heard(rx, Next(rx, s, steps[0]), steps[1..])
    ensures if steps[0].Flush? then rx(s.bus.sends) else !Refuses(rx, s, steps[0])
  {
    NextSends(rx, s, steps[0]);
    PlaySends(rx, Next(rx, s, steps[0]), steps[1..]);
  }

  lemma {:induction false} PlayExact(d: Device, rx: Receivers, s: State, seen: seq<PeerStats>, steps: seq<Step>, dir: T.Dir)
    requires Exact(d, s, seen, dir) && OwnKeys(d, steps) && Tracked(d, steps, seen != [])
    requires Rising(seen + Readings(d, steps)) && Heard(rx, s, steps)
    ensures Exact(d, Play(rx, s, steps), seen + Readings(d, steps), dir)
    decreases |steps|
  {
    if steps == [] {
      assert seen + Readings(d, steps) == seen;
    } else {
      var step, rest := steps[0], steps[1..];
      var after := SeenNext(d, seen, step);
      assert after + Readings(d, rest) == seen + Readings(d, steps);
      RisingPrefix(after, Readings(d, rest));
      HeardNext(rx, s, steps);
      assert OwnKey(d, step);
      NextExact(d, rx, s, seen, step, dir);
      PlayExact(d, rx, Next(rx, s, step), after, rest, dir);
    }
  }

  lemma StepsExact(d: Device, rx: Receivers, steps: seq<Step>, dir: T.Dir)
    requires OwnKeys(d, steps) && Tracked(d, steps, false) && Rising(Readings(d, steps)) && Heard(rx, START, steps)
    ensures Exact(d, Play(rx, START, steps), Readings(d, steps), dir)
  {
    assert [] + Readings(d, steps) == Readings(d, steps);
    assert Exact(d, START, [], dir);
    PlayExact(d, rx, START, [], steps, dir);
  }

  /** When every send finds a receiver and the device is tracked, what is reported is the growth of its counters
      but for full turns, even if some namespaces cannot be read; so all of it is reported if and only if no
      reading is a full turn after the one before. */
  lemma ExactlyReported(rx: Receivers, ticks: seq<Tick>, d: Device, dir: T.Dir)
    requires Heard(rx, START, AllSteps(ticks)) && OwnKeys(d, AllSteps(ticks)) && Tracked(d, AllSteps(ticks), false)
    requires Rising(Readings(d, AllSteps(ticks)))
    ensures var readings, reported := Readings(d, AllSteps(ticks)), Reported(d, Run(rx, ticks).bus.traffic, dir);
      && reported + Lost(readings, dir) == Growth(readings, dir)
      && (reported == Growth(readings, dir) <==> NoFullTurn(readings))
  {
    StepsExact(d, rx, AllSteps(ticks), dir);
    NothingPending(rx, ticks, d, dir);
    LostNothing(Readings(d, AllSteps(ticks)), dir);
  }

  lemma NothingPending(rx: Receivers, ticks: seq<Tick>, d: Device, dir: T.Dir)
    ensures Pending(d, Run(rx, ticks).items, dir) == 0
  {
    if ticks != [] {
      EndsWithTick(ticks);
      TickEndsClean(rx, START, AllSteps(ticks), false);
    }
  }

  lemma {:induction false} EndsWithTick(ticks: seq<Tick>)
    requires ticks != []
    ensures var steps := AllSteps(ticks);
      steps != [] && (steps[|steps| - 1].Flush? || steps[|steps| - 1].Restart?)
  {
    var script, rest := Script(ticks[0]), AllSteps(ticks[1..]);
    var steps := script + rest;
    assert steps == AllSteps(ticks);
    if |ticks| > 1 {
      EndsWithTick(ticks[1..]);
      assert steps[|steps| - 1] == rest[|rest| - 1];
    } else {
      assert rest == [] && steps == script;
    }
  }

  /*** One report ***/

  // How many readings of this network and peer there are.
  function Mentions(steps: seq<Step>, network: Pubkey, peer: Pubkey): nat
  {
    if steps == [] then 0
    else (if Mentioned(steps[0], network, peer) then 1 else 0) + Mentions(steps[1..], network, peer)
  }

  predicate Mentioned(step: Step, network: Pubkey, peer: Pubkey)
  {
    step.Peer? && step.network == network && step.reading.stats.key == peer
  }

  lemma {:induction false} MentionsSplit(a: seq<Step>, b: seq<Step>, network: Pubkey, peer: Pubkey)
    ensures Mentions(a + b, network, peer) == Mentions(a, network, peer) + Mentions(b, network, peer)
  {
    if a == [] {
      assert a + b == b;
    } else {
      assert (a + b)[1..] == a[1..] + b;
      MentionsSplit(a[1..], b, network, peer);
    }
  }

  // The namespaces that are read have distinct network keys, and each snapshot has distinct peers.
  ghost predicate DistinctKeys(spaces: seq<Space>)
  {
    && (forall i, j | 0 <= i < j < |spaces| && IsRead(spaces[i]) && IsRead(spaces[j]) ::
          spaces[i].read.value.key != spaces[j].read.value.key)
    && (forall i | 0 <= i < |spaces| && IsRead(spaces[i]) :: DistinctPeers(spaces[i].read.value.peers))
  }

  ghost predicate DistinctTicks(ticks: seq<Tick>)
  {
    forall i | 0 <= i < |ticks| && ticks[i].Some? :: DistinctKeys(ticks[i].value)
  }

  predicate IsRead(space: Space) { Managed(space.name) && space.read.Some? }

  ghost predicate DistinctPeers(peers: seq<Reading>)
  {
    forall i, j | 0 <= i < j < |peers| :: peers[i].stats.key != peers[j].stats.key
  }

  lemma {:induction false} PeersMentions(net: NetworkStats, peers: seq<Reading>, network: Pubkey, peer: Pubkey)
    requires DistinctPeers(peers)
    ensures Mentions(PeerSteps(net, peers), network, peer) <= 1
    ensures net.key != network || (forall i | 0 <= i < |peers| :: peers[i].stats.key != peer) ==>
      Mentions(PeerSteps(net, peers), network, peer) == 0
  {
    if peers != [] {
      assert PeerSteps(net, peers)[1..] == PeerSteps(net, peers[1..]);
      PeersMentions(net, peers[1..], network, peer);
      assert peers[0].stats.key == peer ==> forall i | 0 <= i < |peers[1..]| :: peers[1..][i].stats.key != peer;
    }
  }

  lemma SpaceMentions(space: Space, network: Pubkey, peer: Pubkey)
    requires IsRead(space) ==> DistinctPeers(space.read.value.peers)
    ensures Mentions(SpaceSteps(space), network, peer) <= if IsRead(space) && space.read.value.key == network then 1 else 0
  {
    if IsRead(space) {
      var net := space.read.value;
      var sweep := [Sweep(net.port, net.key, Alive(net))];
      PeersMentions(net, net.peers, network, peer);
      MentionsSplit([Enter(net.port)] + PeerSteps(net, net.peers), sweep, network, peer);
      MentionsSplit([Enter(net.port)], PeerSteps(net, net.peers), network, peer);
      assert sweep[1..] == [] && [Enter(net.port)][1..] == [];
    }
  }

  lemma {:induction false} SpacesMentions(spaces: seq<Space>, network: Pubkey, peer: Pubkey)
    requires DistinctKeys(spaces)
    ensures Mentions(SpacesSteps(spaces), network, peer) <= 1
    ensures (forall i | 0 <= i < |spaces| && IsRead(spaces[i]) :: spaces[i].read.value.key != network) ==>
      Mentions(SpacesSteps(spaces), network, peer) == 0
  {
    if spaces != [] {
      var rest := spaces[1..];
      assert DistinctKeys(rest) by {
        assert forall i | 0 <= i < |rest| :: rest[i] == spaces[i + 1];
      }
      SpaceMentions(spaces[0], network, peer);
      SpacesMentions(rest, network, peer);
      MentionsSplit(SpaceSteps(spaces[0]), SpacesSteps(rest), network, peer);
    }
  }

  lemma RecordedItems(s: State, port: u16, key: Pubkey, r: Reading, network: Pubkey, peer: Pubkey)
    ensures |T.Of(Recorded(s, port, key, r), network, peer)|
         <= |T.Of(s.items, network, peer)| + if key == network && r.stats.key == peer then 1 else 0
  {
    var cur := Expire(r.stats, r.first);
    var entry := EntryOf(s.cache, port);
    if cur.key in entry && r.second >= 0 {
      var previous := entry[cur.key];
      if previous.rx <= cur.rx && previous.tx <= cur.tx {
        OfAppend(s.items, T.Item(key, cur.key, r.second / SECOND, T.Traffic(cur.rx - previous.rx, cur.tx - previous.tx)), network, peer);
      }
    }
  }

  lemma ObserveItems(rx: Receivers, s: State, step: Step, network: Pubkey, peer: Pubkey)
    requires !step.Flush? && !step.Restart?
    ensures |T.Of(Next(rx, s, step).items, network, peer)|
         <= |T.Of(s.items, network, peer)| + if Mentioned(step, network, peer) then 1 else 0
  {
    match step
    case Enter(_) =>
    case Sweep(port, key, alive) => BuryShape(Device(port, network, peer), rx, s, port, key, Dead(s, port, alive));
    case Peer(port, key, r) =>
      ObserveFrame(rx, s, port, key, r);
      RecordedItems(s, port, key, r, network, peer);
  }

  lemma {:induction false} PlayItems(rx: Receivers, s: State, steps: seq<Step>, network: Pubkey, peer: Pubkey)
    requires forall i | 0 <= i < |steps| :: !steps[i].Flush? && !steps[i].Restart?
    ensures |T.Of(Play(rx, s, steps).items, network, peer)| <= |T.Of(s.items, network, peer)| + Mentions(steps, network, peer)
    decreases |steps|
  {
    if steps != [] {
      ObserveItems(rx, s, steps[0], network, peer);
      PlayItems(rx, Next(rx, s, steps[0]), steps[1..], network, peer);
    }
  }

  lemma {:induction false} SpacesNoEnd(spaces: seq<Space>)
    ensures forall i | 0 <= i < |SpacesSteps(spaces)| :: !SpacesSteps(spaces)[i].Flush? && !SpacesSteps(spaces)[i].Restart?
  {
    if spaces != [] { SpacesNoEnd(spaces[1..]); }
  }

  /** In the report of one tick all four levels agree when networks have distinct keys and snapshots distinct
      peers: the upper three as sums modulo the word size, a device and its time entries exactly. */
  lemma OneReportAgrees(rx: Receivers, s: State, spaces: seq<Space>, dir: T.Dir)
    requires s.items == [] && DistinctKeys(spaces)
    ensures var report := T.Record(0, Play(rx, s, SpacesSteps(spaces)).items);
      && T.Balanced(report, dir)
      && forall n: Pubkey, d: Pubkey ::
           report.At(n).At(d).traffic.Get(dir) == Sum(T.TimeTotals(report.At(n).At(d), dir))
  {
    var items := Play(rx, s, SpacesSteps(spaces)).items;
    T.RecordBalanced(0, items, dir);
    forall n: Pubkey, d: Pubkey
      ensures var device := T.Record(0, items).At(n).At(d); device.traffic.Get(dir) == Sum(T.TimeTotals(device, dir))
    {
      SpacesNoEnd(spaces);
      SpacesMentions(spaces, n, d);
      PlayItems(rx, s, SpacesSteps(spaces), n, d);
      SingleItem(T.Of(items, n, d), dir);
      T.DeviceBoundsTimes(0, items, n, d, dir);
    }
  }

  lemma SingleItem(own: seq<T.Item>, dir: T.Dir)
    requires |own| <= 1
    ensures T.Total(own, dir) < U64 && T.Overwritten(own, dir) == 0
  {
    if own != [] {
      assert own[..|own| - 1] == [];
    }
  }
}
