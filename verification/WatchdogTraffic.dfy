/** The traffic that the broadcast accepts for one device, against the device's counters, over whole runs. */
module WatchdogTraffic {
  import opened Basics
  import opened Config
  import opened Watchdog
  import T = Traffic

  // One device: a peer of the network with this listen port and key.
  datatype Device = Device(port: u16, network: Pubkey, peer: Pubkey)

  function Reported(d: Device, reports: seq<T.Info>, dir: T.Dir): nat
  {
    if reports == [] then 0
    else
      var last := reports[|reports| - 1];
      Reported(d, reports[..|reports| - 1], dir) + last.At(d.network).At(d.peer).traffic.Get(dir)
  }

  function Pending(d: Device, items: seq<T.Item>, dir: T.Dir): nat { T.Total(T.Of(items, d.network, d.peer), dir) }

  // Readings of the device's counters, in the order in which they are compared.
  predicate Reads(d: Device, step: Step) { step.Peer? && step.port == d.port && step.reading.stats.key == d.peer }

  function Readings(d: Device, steps: seq<Step>): seq<PeerStats>
  {
    if steps == [] then [] else (if Reads(d, steps[0]) then [steps[0].reading.stats] else []) + Readings(d, steps[1..])
  }

  lemma {:induction false} ReadingsSplit(d: Device, a: seq<Step>, b: seq<Step>)
    ensures Readings(d, a + b) == Readings(d, a) + Readings(d, b)
  {
    if a == [] {
      assert a + b == b;
    } else {
      assert (a + b)[1..] == a[1..] + b;
      ReadingsSplit(d, a[1..], b);
    }
  }

  ghost predicate Rising(readings: seq<PeerStats>)
  {
    forall i | 0 < i < |readings| :: readings[i - 1].rx <= readings[i].rx && readings[i - 1].tx <= readings[i].tx
  }

  // The network's key belongs to its listen port and to no other.
  ghost predicate OwnKey(d: Device, step: Step)
  {
    step.Peer? ==> (step.port == d.port <==> step.network == d.network)
  }

  ghost predicate OwnKeys(d: Device, steps: seq<Step>)
  {
    forall i | 0 <= i < |steps| :: OwnKey(d, steps[i])
  }

  // Some event was refused in this step.
  predicate Refuses(rx: Receivers, s: State, step: Step)
  {
    var next := Next(rx, s, step);
    !step.Flush? && next.bus.sends - s.bus.sends != |next.bus.events| - |s.bus.events|
  }

  // No traffic report is accepted in a tick in which an event was refused before.
  predicate NoLateSubscriber(rx: Receivers, s: State, steps: seq<Step>, refused: bool)
    decreases |steps|
  {
    steps == [] ||
    (var step := steps[0];
     && (step.Flush? && refused ==> !rx(s.bus.sends))
     && NoLateSubscriber(rx, Next(rx, s, step), steps[1..], RefusedNext(rx, s, step, refused)))
  }

  // Whether an event has been refused since the tick began.
  predicate RefusedNext(rx: Receivers, s: State, step: Step, refused: bool)
  {
    !step.Flush? && !step.Restart? && (refused || Refuses(rx, s, step))
  }

  predicate RefusedAfter(rx: Receivers, s: State, steps: seq<Step>, refused: bool)
    decreases |steps|
  {
    if steps == [] then refused
    else RefusedAfter(rx, Next(rx, s, steps[0]), steps[1..], RefusedNext(rx, s, steps[0], refused))
  }

  /*** Upper bound ***/

  function Cached(d: Device, s: State): Option<PeerStats> { Lookup(EntryOf(s.cache, d.port), d.peer) }

  // Reported and pending traffic never exceed what the counters have grown by, up to the reading in the cache.
  ghost predicate Bounded(d: Device, s: State, seen: seq<PeerStats>, refused: bool, dir: T.Dir)
  {
    var reported, pending := Reported(d, s.bus.traffic, dir), Pending(d, s.items, dir);
    if seen == [] then reported == 0 && pending == 0 && Cached(d, s).None?
    else
      var first, last := seen[0], seen[|seen| - 1];
      && reported <= last.Get(dir) - first.Get(dir)
      && (!refused ==> reported + pending <= last.Get(dir) - first.Get(dir))
      && (Cached(d, s).Some? ==>
            var c := Cached(d, s).value;
            && c.rx <= last.rx && c.tx <= last.tx
            && (!refused ==> reported + pending <= c.Get(dir) - first.Get(dir)))
  }

  lemma OfAppend(items: seq<T.Item>, item: T.Item, network: Pubkey, peer: Pubkey)
    ensures T.Of(items + [item], network, peer)
      == if item.network == network && item.device == peer then T.Of(items, network, peer) + [item] else T.Of(items, network, peer)
  {
    assert (items + [item])[..|items|] == items;
  }

  lemma PendingAppend(d: Device, items: seq<T.Item>, item: T.Item, dir: T.Dir)
    ensures Pending(d, items + [item], dir)
      == Pending(d, items, dir) + if item.network == d.network && item.device == d.peer then item.traffic.Get(dir) else 0
  {
    OfAppend(items, item, d.network, d.peer);
    var own := T.Of(items, d.network, d.peer);
    assert (own + [item])[..|own|] == own;
  }

  // What handling a peer adds to the pending traffic of the device.
  lemma AccountPending(d: Device, items: seq<T.Item>, network: Pubkey, previous: PeerStats, cur: PeerStats, now: nat, dir: T.Dir)
    requires previous.rx <= cur.rx && previous.tx <= cur.tx
    ensures var after := Pending(d, Account(items, network, previous, cur, now), dir);
      && Pending(d, items, dir) <= after
      && (network == d.network && cur.key == d.peer ==> after <= Pending(d, items, dir) + cur.Get(dir) - previous.Get(dir))
      && (network == d.network && cur.key == d.peer && cur.rx - previous.rx + cur.tx - previous.tx != U64 ==>
            after == Pending(d, items, dir) + cur.Get(dir) - previous.Get(dir))
      && (cur.rx - previous.rx + cur.tx - previous.tx == U64 ==> after == Pending(d, items, dir))
  {
    AccountExactly(items, network, previous, cur, now);
    PendingAppend(d, items, T.Item(network, cur.key, now / SECOND, T.Traffic(cur.rx - previous.rx, cur.tx - previous.tx)), dir);
  }

  lemma AccountElsewhere(d: Device, items: seq<T.Item>, network: Pubkey, previous: PeerStats, cur: PeerStats, now: nat, dir: T.Dir)
    requires network != d.network || cur.key != d.peer
    ensures Pending(d, Account(items, network, previous, cur, now), dir) == Pending(d, items, dir)
  {
    if previous.rx <= cur.rx && previous.tx <= cur.tx {
      PendingAppend(d, items, T.Item(network, cur.key, now / SECOND, T.Traffic(cur.rx - previous.rx, cur.tx - previous.tx)), dir);
    }
  }

  // What a handled peer adds to the report under construction.
  function Recorded(s: State, port: u16, network: Pubkey, r: Reading): seq<T.Item>
  {
    var entry, cur := EntryOf(s.cache, port), Expire(r.stats, r.first);
    if cur.key in entry && r.second >= 0 then Account(s.items, network, entry[cur.key], cur, r.second) else s.items
  }

  // Only the peer's own place in the cache can change.
  lemma ObserveFrame(rx: Receivers, s: State, port: u16, network: Pubkey, r: Reading)
    ensures var next := Observe(rx, s, port, network, r).state;
      && next.bus.traffic == s.bus.traffic && next.items == Recorded(s, port, network, r)
      && forall q: u16, peer: Pubkey | q != port || peer != r.stats.key ::
           Lookup(EntryOf(next.cache, q), peer) == Lookup(EntryOf(s.cache, q), peer)
  {
  }

  lemma ObserveElsewhere(d: Device, rx: Receivers, s: State, step: Step, dir: T.Dir)
    requires step.Peer? && OwnKey(d, step) && !Reads(d, step)
    ensures var next := Next(rx, s, step);
      && next.bus.traffic == s.bus.traffic && Cached(d, next) == Cached(d, s)
      && Pending(d, next.items, dir) == Pending(d, s.items, dir)
  {
    ObserveFrame(rx, s, step.port, step.network, step.reading);
    RecordedElsewhere(d, s, step, dir);
  }

  lemma RecordedElsewhere(d: Device, s: State, step: Step, dir: T.Dir)
    requires step.Peer? && OwnKey(d, step) && !Reads(d, step)
    ensures Pending(d, Recorded(s, step.port, step.network, step.reading), dir) == Pending(d, s.items, dir)
  {
    var cur := Expire(step.reading.stats, step.reading.first);
    var entry := EntryOf(s.cache, step.port);
    if cur.key in entry && step.reading.second >= 0 {
      AccountElsewhere(d, s.items, step.network, entry[cur.key], cur, step.reading.second, dir);
    }
  }

  // The device's own reading: unless an event is refused, either nothing happens or the reading is cached and
  // the growth since the cached one, if there is one, is pending.
  lemma ObserveOwn(d: Device, rx: Receivers, s: State, step: Step, dir: T.Dir)
    requires Reads(d, step) && OwnKey(d, step)
    requires Cached(d, s).Some? ==> Cached(d, s).value.rx <= step.reading.stats.rx && Cached(d, s).value.tx <= step.reading.stats.tx
    ensures var next, r := Next(rx, s, step), step.reading;
      && next.bus.traffic == s.bus.traffic
      && (Cached(d, next) == Cached(d, s) || (Cached(d, next).Some? && Cached(d, next).value == Expire(r.stats, r.first)))
      && (!Refuses(rx, s, step) ==>
            if Cached(d, s).Some? && r.second < 0 then next == s
            else
              && Cached(d, next) == Some(Expire(r.stats, r.first))
              && (Cached(d, s).None? ==> next.items == s.items)
              && (Cached(d, s).Some? ==> next.items == Account(s.items, d.network, Cached(d, s).value, Expire(r.stats, r.first), r.second)))
  {
  }

  lemma {:induction false} BuryShape(d: Device, rx: Receivers, s: State, port: u16, network: Pubkey, dead: seq<Pubkey>)
    ensures var r := Bury(rx, s, port, network, dead).state;
      && r.bus.traffic == s.bus.traffic && r.items == s.items
      && (Cached(d, r) == Cached(d, s) || (port == d.port && d.peer in dead && Cached(d, r).None?))
    decreases |dead|
  {
    if dead != [] {
      var gone := s.(cache := s.cache[port := EntryOf(s.cache, port) - {dead[0]}]);
      var r := Send(rx, gone, port, Disconnected(network, dead[0]));
      if r.ok { BuryShape(d, rx, r.state, port, network, dead[1..]); }
    }
  }

  lemma ReportedAppend(d: Device, reports: seq<T.Info>, items: seq<T.Item>, dir: T.Dir)
    ensures Reported(d, reports + [T.Record(0, items)], dir) == Reported(d, reports, dir) + Pending(d, items, dir) % U64
  {
    assert (reports + [T.Record(0, items)])[..|reports|] == reports;
    T.RecordOfDevice(0, items, d.network, d.peer);
    T.DeviceAccount(T.Of(items, d.network, d.peer), dir);
  }

  function SeenNext(d: Device, seen: seq<PeerStats>, step: Step): seq<PeerStats>
  {
    if Reads(d, step) then seen + [step.reading.stats] else seen
  }

  // The invariant with the figures it relates spelled out.
  ghost predicate Figures(reported: nat, pending: nat, cached: Option<PeerStats>, first: PeerStats, last: PeerStats, refused: bool, dir: T.Dir)
  {
    && reported <= last.Get(dir) - first.Get(dir)
    && (!refused ==> reported + pending <= last.Get(dir) - first.Get(dir))
    && (cached.Some? ==>
          && cached.value.rx <= last.rx && cached.value.tx <= last.tx
          && (!refused ==> reported + pending <= cached.value.Get(dir) - first.Get(dir)))
  }

  lemma OwnBounded(d: Device, rx: Receivers, s: State, seen: seq<PeerStats>, step: Step, refused: bool, dir: T.Dir)
    requires Bounded(d, s, seen, refused, dir) && Reads(d, step) && OwnKey(d, step) && Rising(SeenNext(d, seen, step))
    ensures Bounded(d, Next(rx, s, step), SeenNext(d, seen, step), RefusedNext(rx, s, step, refused), dir)
  {
    var r := step.reading;
    var cur := Expire(r.stats, r.first);
    var after := SeenNext(d, seen, step);
    if seen != [] {
      assert after[|seen| - 1] == seen[|seen| - 1] && after[|seen|] == r.stats && after[0] == seen[0];
    }
    ObserveOwn(d, rx, s, step, dir);
    if Cached(d, s).Some? && r.second >= 0 {
      AccountPending(d, s.items, d.network, Cached(d, s).value, cur, r.second, dir);
    }
    var next := Next(rx, s, step);
    assert Figures(Reported(d, next.bus.traffic, dir), Pending(d, next.items, dir), Cached(d, next), after[0], r.stats,
      RefusedNext(rx, s, step, refused), dir);
  }

  // Steps that leave the device's figures alone, but for the cached reading, which they may drop.
  lemma KeptBounded(d: Device, s: State, next: State, seen: seq<PeerStats>, refused: bool, later: bool, dir: T.Dir)
    requires Bounded(d, s, seen, refused, dir) && (refused ==> later)
    requires next.bus.traffic == s.bus.traffic && Pending(d, next.items, dir) == Pending(d, s.items, dir)
    requires Cached(d, next) == Cached(d, s) || Cached(d, next).None?
    ensures Bounded(d, next, seen, later, dir)
  {
  }

  // An accepted report turns what is pending into reported traffic; a refused one drops it with the cache.
  lemma FlushFigures(d: Device, rx: Receivers, s: State, dir: T.Dir)
    ensures var next := Next(rx, s, Flush);
      && Pending(d, next.items, dir) == 0
      && Reported(d, next.bus.traffic, dir)
           == Reported(d, s.bus.traffic, dir) + (if rx(s.bus.sends) then Pending(d, s.items, dir) % U64 else 0)
      && Cached(d, next) == if rx(s.bus.sends) then Cached(d, s) else None
  {
    if rx(s.bus.sends) {
      ReportedAppend(d, s.bus.traffic, s.items, dir);
    }
  }

  lemma FlushBounded(d: Device, rx: Receivers, s: State, seen: seq<PeerStats>, refused: bool, dir: T.Dir)
    requires Bounded(d, s, seen, refused, dir) && (refused ==> !rx(s.bus.sends))
    ensures Bounded(d, Next(rx, s, Flush), seen, false, dir)
  {
    FlushFigures(d, rx, s, dir);
    var next := Next(rx, s, Flush);
    var reported, pending := Reported(d, s.bus.traffic, dir), Pending(d, s.items, dir);
    if seen != [] && rx(s.bus.sends) {
      assert pending % U64 <= pending;
      assert Figures(reported + pending % U64, 0, Cached(d, s), seen[0], seen[|seen| - 1], false, dir);
    }
  }

  lemma NextBounded(d: Device, rx: Receivers, s: State, seen: seq<PeerStats>, step: Step, refused: bool, dir: T.Dir)
    requires Bounded(d, s, seen, refused, dir) && OwnKey(d, step) && Rising(SeenNext(d, seen, step))
    requires step.Flush? && refused ==> !rx(s.bus.sends)
    ensures Bounded(d, Next(rx, s, step), SeenNext(d, seen, step), RefusedNext(rx, s, step, refused), dir)
  {
    var next, later := Next(rx, s, step), RefusedNext(rx, s, step, refused);
    if Reads(d, step) {
      OwnBounded(d, rx, s, seen, step, refused, dir);
    } else if step.Flush? {
      FlushBounded(d, rx, s, seen, refused, dir);
    } else if step.Restart? {
      assert Pending(d, [], dir) == 0;
    } else {
      QuietStep(d, rx, s, step, dir);
      KeptBounded(d, s, next, seen, refused, later, dir);
    }
  }

  // A step that neither reads the device nor ends the tick.
  lemma QuietStep(d: Device, rx: Receivers, s: State, step: Step, dir: T.Dir)
    requires OwnKey(d, step) && !Reads(d, step) && !step.Flush? && !step.Restart?
    ensures var next := Next(rx, s, step);
      && next.bus.traffic == s.bus.traffic && Pending(d, next.items, dir) == Pending(d, s.items, dir)
      && (Cached(d, next) == Cached(d, s)
          || (step.Sweep? && step.port == d.port && d.peer !in step.alive && Cached(d, next).None?))
  {
    match step
    case Enter(_) =>
    case Sweep(port, network, alive) => BuryShape(d, rx, s, port, network, Dead(s, port, alive));
    case Peer(_, _, _) => ObserveElsewhere(d, rx, s, step, dir);
  }

  lemma {:induction false} PlayBounded(d: Device, rx: Receivers, s: State, seen: seq<PeerStats>, steps: seq<Step>, refused: bool, dir: T.Dir)
    requires Bounded(d, s, seen, refused, dir) && OwnKeys(d, steps) && Rising(seen + Readings(d, steps))
    requires NoLateSubscriber(rx, s, steps, refused)
    ensures Bounded(d, Play(rx, s, steps), seen + Readings(d, steps), RefusedAfter(rx, s, steps, refused), dir)
    decreases |steps|
  {
    if steps == [] {
      assert seen + Readings(d, steps) == seen;
    } else {
      var step := steps[0];
      var next := SeenNext(d, seen, step);
      assert next + Readings(d, steps[1..]) == seen + Readings(d, steps);
      RisingPrefix(next, Readings(d, steps[1..]));
      assert OwnKey(d, step);
      NextBounded(d, rx, s, seen, step, refused, dir);
      PlayBounded(d, rx, Next(rx, s, step), next, steps[1..], RefusedNext(rx, s, step, refused), dir);
    }
  }

  lemma RisingPrefix(a: seq<PeerStats>, b: seq<PeerStats>)
    requires Rising(a + b)
    ensures Rising(a)
  {
    forall i | 0 < i < |a| ensures a[i - 1].rx <= a[i].rx && a[i - 1].tx <= a[i].tx {
      assert a[i] == (a + b)[i] && a[i - 1] == (a + b)[i - 1];
    }
  }

  // Growth of the device's counters over the readings of a run.
  function Growth(readings: seq<PeerStats>, dir: T.Dir): int
  {
    if readings == [] then 0 else readings[|readings| - 1].Get(dir) - readings[0].Get(dir)
  }

  /** While counters do not decrease, the traffic reported for a device never exceeds their growth, whatever
      fails and however often the watchdog restarts, provided no report is accepted in a tick in which an
      event was refused before. */
  lemma NeverOverReported(rx: Receivers, ticks: seq<Tick>, d: Device, dir: T.Dir)
    requires NoLateSubscriber(rx, START, AllSteps(ticks), false) && OwnKeys(d, AllSteps(ticks)) && Rising(Readings(d, AllSteps(ticks)))
    ensures Reported(d, Run(rx, ticks).bus.traffic, dir) <= Growth(Readings(d, AllSteps(ticks)), dir)
  {
    StartBounded(d, dir);
    RunBounded(d, rx, START, AllSteps(ticks), dir);
  }

  lemma StartBounded(d: Device, dir: T.Dir)
    ensures Bounded(d, START, [], false, dir)
  {
  }

  lemma RunBounded(d: Device, rx: Receivers, s: State, steps: seq<Step>, dir: T.Dir)
    requires Bounded(d, s, [], false, dir) && OwnKeys(d, steps) && Rising(Readings(d, steps)) && NoLateSubscriber(rx, s, steps, false)
    ensures Reported(d, Play(rx, s, steps).bus.traffic, dir) <= Growth(Readings(d, steps), dir)
  {
    assert [] + Readings(d, steps) == Readings(d, steps);
    PlayBounded(d, rx, s, [], steps, false, dir);
  }
}
