/** For which receivers the traffic reported for a device never exceeds the growth of its counters: exactly. */
module OverReporting {
  import opened Basics
  import opened Watchdog
  import opened WatchdogTraffic
  import opened TrafficReports
  import F = PaddedRuns
  import T = Traffic

  // No run, not even one whose snapshots list a peer several times, reports more than the counters have grown by.
  ghost predicate NeverOver(rx: Receivers)
  {
    forall ticks: seq<Tick>, d: Device, dir: T.Dir | OwnKeys(d, AllSteps(ticks)) && Rising(Readings(d, AllSteps(ticks))) ::
      Reported(d, Run(rx, ticks).bus.traffic, dir) <= Growth(Readings(d, AllSteps(ticks)), dir)
  }

  // The same for runs whose ticks find distinct networks with distinct peers.
  ghost predicate NeverOverDistinct(rx: Receivers)
  {
    forall ticks: seq<Tick>, d: Device, dir: T.Dir
      | OwnKeys(d, AllSteps(ticks)) && Rising(Readings(d, AllSteps(ticks))) && DistinctTicks(ticks) ::
      Reported(d, Run(rx, ticks).bus.traffic, dir) <= Growth(Readings(d, AllSteps(ticks)), dir)
  }

  // Once a send is refused, all later ones are.
  ghost predicate NeverRecovers(rx: Receivers)
  {
    forall i: nat, j: nat | i < j && !rx(i) :: !rx(j)
  }

  // After an accepted send and then a refused one, at most one more is accepted.
  ghost predicate RecoversOnce(rx: Receivers)
  {
    forall a: nat, i: nat, j: nat, m: nat :: !RecoversTwice(rx, a, i, j, m)
  }

  predicate RecoversTwice(rx: Receivers, a: nat, i: nat, j: nat, m: nat)
  {
    a < i < j < m && rx(a) && !rx(i) && rx(j) && rx(m)
  }

  /*** Any snapshots ***/

  lemma {:induction false} NoRecovery(rx: Receivers, s: State, steps: seq<Step>, refused: bool)
    requires NeverRecovers(rx) && (refused ==> !rx(s.bus.sends))
    ensures NoLateSubscriber(rx, s, steps, refused)
    decreases |steps|
  {
    if steps != [] {
      var next := Next(rx, s, steps[0]);
      NextSends(rx, s, steps[0]);
      NoRecovery(rx, next, steps[1..], RefusedNext(rx, s, steps[0], refused));
    }
  }

  /** Reports exceed the counters in no run at all if and only if a refused send is never followed by an accepted one. */
  lemma NeverOverReportedExactly(rx: Receivers)
    ensures NeverOver(rx) <==> NeverRecovers(rx)
  {
    if NeverRecovers(rx) {
      forall ticks: seq<Tick>, d: Device, dir: T.Dir | OwnKeys(d, AllSteps(ticks)) && Rising(Readings(d, AllSteps(ticks)))
        ensures Reported(d, Run(rx, ticks).bus.traffic, dir) <= Growth(Readings(d, AllSteps(ticks)), dir)
      {
        NoRecovery(rx, START, AllSteps(ticks), false);
        NeverOverReported(rx, ticks, d, dir);
      }
    } else {
      var i: nat, j: nat :| i < j && !rx(i) && rx(j);
      var ticks := F.RepeatedPeerCountsTwice(rx, i, j);
    }
  }

  /*** Distinct peers: where the receivers are in the pattern accepted, refused, accepted, accepted ***/

  function Phase(rx: Receivers, n: nat): (p: nat)
    ensures p <= 4
  {
    if n == 0 then 0 else Advance(Phase(rx, n - 1), rx(n - 1))
  }

  function Advance(p: nat, heard: bool): (q: nat)
    requires p <= 4
    ensures p <= q <= 4
  {
    if p == 4 then 4
    else if p == 1 then (if heard then 1 else 2)
    else if heard then p + 1 else p
  }

  // The phase never goes back, and stays at 1 only while every send is accepted.
  lemma {:induction false} PhaseGrows(rx: Receivers, m: nat, n: nat)
    requires m <= n
    ensures Phase(rx, m) <= Phase(rx, n)
    ensures Phase(rx, m) == Phase(rx, n) == 1 ==> forall i | m <= i < n :: rx(i)
    decreases n - m
  {
    if m < n { PhaseGrows(rx, m, n - 1); }
  }

  lemma {:induction false} Accepted(rx: Receivers, n: nat) returns (a: nat)
    requires Phase(rx, n) >= 1
    ensures a < n && rx(a)
  {
    if Phase(rx, n - 1) >= 1 { a := Accepted(rx, n - 1); } else { a := n - 1; }
  }

  lemma {:induction false} Dropped(rx: Receivers, n: nat) returns (a: nat, i: nat)
    requires Phase(rx, n) >= 2
    ensures a < i < n && rx(a) && !rx(i)
  {
    if Phase(rx, n - 1) >= 2 {
      a, i := Dropped(rx, n - 1);
    } else {
      a := Accepted(rx, n - 1);
      i := n - 1;
    }
  }

  lemma {:induction false} Resumed(rx: Receivers, n: nat) returns (a: nat, i: nat, j: nat)
    requires Phase(rx, n) >= 3
    ensures a < i < j < n && rx(a) && !rx(i) && rx(j)
  {
    if Phase(rx, n - 1) >= 3 {
      a, i, j := Resumed(rx, n - 1);
    } else {
      a, i := Dropped(rx, n - 1);
      j := n - 1;
    }
  }

  lemma {:induction false} NeverFour(rx: Receivers, n: nat)
    requires RecoversOnce(rx)
    ensures Phase(rx, n) < 4
  {
    if n > 0 {
      NeverFour(rx, n - 1);
      if Phase(rx, n - 1) == 3 {
        var a, i, j := Resumed(rx, n - 1);
        assert !RecoversTwice(rx, a, i, j, n - 1);
      }
    }
  }

  // The device is read at most once between two ends of ticks.
  predicate OncePerTick(d: Device, steps: seq<Step>, read: bool)
  {
    steps == [] || ((Reads(d, steps[0]) ==> !read) && OncePerTick(d, steps[1..], ReadNext(d, steps[0], read)))
  }

  predicate ReadNext(d: Device, step: Step, read: bool)
  {
    !step.Flush? && !step.Restart? && (read || Reads(d, step))
  }

  // The figures of the device in each phase.
  ghost predicate InPhase(reported: nat, pending: nat, cached: Option<PeerStats>, first: PeerStats, last: PeerStats,
                          phase: nat, read: bool, dir: T.Dir)
  {
    && reported <= last.Get(dir) - first.Get(dir)
    && (cached.Some? ==> cached.value.rx <= last.rx && cached.value.tx <= last.tx && first.Get(dir) <= cached.value.Get(dir))
    && (phase == 0 ==> reported == 0 && pending == 0 && (!read ==> cached.None?))
    && (phase <= 2 ==> reported + pending <= last.Get(dir) - first.Get(dir))
    && (cached.Some? && (phase <= 1 || (phase == 2 && !read)) ==> reported + pending <= cached.value.Get(dir) - first.Get(dir))
  }

  ghost predicate Phased(d: Device, rx: Receivers, s: State, seen: seq<PeerStats>, read: bool, dir: T.Dir)
  {
    var reported, pending := Reported(d, s.bus.traffic, dir), Pending(d, s.items, dir);
    if seen == [] then reported == 0 && pending == 0 && Cached(d, s).None? && !read
    else InPhase(reported, pending, Cached(d, s), seen[0], seen[|seen| - 1], Phase(rx, s.bus.sends), read, dir)
  }

  lemma LaterPhase(reported: nat, pending: nat, cached: Option<PeerStats>, later: Option<PeerStats>,
                   first: PeerStats, last: PeerStats, p: nat, q: nat, read: bool, dir: T.Dir)
    requires InPhase(reported, pending, cached, first, last, p, read, dir) && p <= q && (later == cached || later.None?)
    ensures InPhase(reported, pending, later, first, last, q, read, dir)
  {
  }

  lemma QuietPhased(d: Device, rx: Receivers, s: State, seen: seq<PeerStats>, step: Step, read: bool, dir: T.Dir)
    requires Phased(d, rx, s, seen, read, dir) && OwnKey(d, step)
    requires !Reads(d, step) && !step.Flush? && !step.Restart?
    ensures Phased(d, rx, Next(rx, s, step), seen, read, dir)
  {
    var next := Next(rx, s, step);
    QuietStep(d, rx, s, step, dir);
    NextSends(rx, s, step);
    PhaseGrows(rx, s.bus.sends, next.bus.sends);
    if seen != [] {
      LaterPhase(Reported(d, s.bus.traffic, dir), Pending(d, s.items, dir), Cached(d, s), Cached(d, next), seen[0],
        seen[|seen| - 1], Phase(rx, s.bus.sends), Phase(rx, next.bus.sends), read, dir);
    }
  }

  lemma FlushInPhase(reported: nat, pending: nat, cached: Option<PeerStats>, first: PeerStats, last: PeerStats,
                     p: nat, heard: bool, read: bool, dir: T.Dir)
    requires InPhase(reported, pending, cached, first, last, p, read, dir) && p <= 3 && Advance(p, heard) < 4
    ensures InPhase(reported + (if heard then pending % U64 else 0), 0, if heard then cached else None, first, last,
      Advance(p, heard), false, dir)
  {
    assert pending % U64 <= pending;
  }

  lemma FlushPhased(d: Device, rx: Receivers, s: State, seen: seq<PeerStats>, read: bool, dir: T.Dir)
    requires Phased(d, rx, s, seen, read, dir) && Phase(rx, s.bus.sends + 1) < 4
    ensures Phased(d, rx, Next(rx, s, Flush), seen, false, dir)
  {
    FlushFigures(d, rx, s, dir);
    if seen != [] {
      FlushInPhase(Reported(d, s.bus.traffic, dir), Pending(d, s.items, dir), Cached(d, s), seen[0], seen[|seen| - 1],
        Phase(rx, s.bus.sends), rx(s.bus.sends), read, dir);
    }
  }

  // What handling the device's own reading does to its figures, refused or not.
  lemma OwnFigures(d: Device, rx: Receivers, s: State, step: Step, dir: T.Dir)
    requires Reads(d, step) && OwnKey(d, step)
    requires Cached(d, s).Some? ==> Cached(d, s).value.rx <= step.reading.stats.rx && Cached(d, s).value.tx <= step.reading.stats.tx
    ensures var next, before := Next(rx, s, step), Pending(d, s.items, dir);
      && next.bus.traffic == s.bus.traffic
      && (Cached(d, next) == Cached(d, s) || (Cached(d, next).Some? && SameCounters(Cached(d, next).value, step.reading.stats)))
      && (Cached(d, s).None? ==> Pending(d, next.items, dir) == before)
      && (Cached(d, s).Some? ==>
            before <= Pending(d, next.items, dir) <= before + step.reading.stats.Get(dir) - Cached(d, s).value.Get(dir))
      && (!Refuses(rx, s, step) && Cached(d, next).Some? ==>
            SameCounters(Cached(d, next).value, step.reading.stats) || next == s)
  {
    var r := step.reading;
    ObserveOwn(d, rx, s, step, dir);
    ObserveFrame(rx, s, step.port, step.network, r);
    if Cached(d, s).Some? && r.second >= 0 {
      AccountPending(d, s.items, d.network, Cached(d, s).value, Expire(r.stats, r.first), r.second, dir);
    }
  }

  lemma OwnInPhase(reported: nat, before: nat, after: nat, cached: Option<PeerStats>, next: Option<PeerStats>,
                   first: PeerStats, last: PeerStats, cur: PeerStats, p: nat, q: nat, kept: bool, dir: T.Dir)
    requires InPhase(reported, before, cached, first, last, p, false, dir) && p <= q
    requires last.rx <= cur.rx && last.tx <= cur.tx
    requires cached.None? ==> after == before
    requires cached.Some? ==> before <= after <= before + cur.Get(dir) - cached.value.Get(dir)
    requires next == cached || (next.Some? && SameCounters(next.value, cur))
    requires kept && next.Some? ==> SameCounters(next.value, cur) || (next == cached && after == before)
    requires p == q == 1 ==> kept
    ensures InPhase(reported, after, next, first, cur, q, true, dir)
  {
  }

  lemma OwnPhased(d: Device, rx: Receivers, s: State, seen: seq<PeerStats>, step: Step, dir: T.Dir)
    requires Phased(d, rx, s, seen, false, dir) && Reads(d, step) && OwnKey(d, step) && Rising(SeenNext(d, seen, step))
    ensures Phased(d, rx, Next(rx, s, step), SeenNext(d, seen, step), true, dir)
  {
    var next, cur, after := Next(rx, s, step), step.reading.stats, SeenNext(d, seen, step);
    if seen != [] {
      assert after[|seen| - 1] == seen[|seen| - 1] && after[|seen|] == cur && after[0] == seen[0];
    }
    OwnFigures(d, rx, s, step, dir);
    NextSends(rx, s, step);
    PhaseGrows(rx, s.bus.sends, next.bus.sends);
    if seen != [] {
      OwnInPhase(Reported(d, s.bus.traffic, dir), Pending(d, s.items, dir), Pending(d, next.items, dir), Cached(d, s),
        Cached(d, next), seen[0], seen[|seen| - 1], cur, Phase(rx, s.bus.sends), Phase(rx, next.bus.sends),
        !Refuses(rx, s, step), dir);
    }
  }

  lemma RestartPhased(d: Device, rx: Receivers, s: State, seen: seq<PeerStats>, read: bool, dir: T.Dir)
    requires Phased(d, rx, s, seen, read, dir)
    ensures Phased(d, rx, Next(rx, s, Restart), seen, false, dir)
  {
    assert Pending(d, [], dir) == 0;
  }

  lemma NextPhased(d: Device, rx: Receivers, s: State, seen: seq<PeerStats>, step: Step, read: bool, dir: T.Dir)
    requires Phased(d, rx, s, seen, read, dir) && OwnKey(d, step) && Rising(SeenNext(d, seen, step))
    requires RecoversOnce(rx) && (Reads(d, step) ==> !read)
    ensures Phased(d, rx, Next(rx, s, step), SeenNext(d, seen, step), ReadNext(d, step, read), dir)
  {
    if Reads(d, step) {
      OwnPhased(d, rx, s, seen, step, dir);
    } else if step.Flush? {
      NeverFour(rx, s.bus.sends + 1);
      FlushPhased(d, rx, s, seen, read, dir);
    } else if step.Restart? {
      RestartPhased(d, rx, s, seen, read, dir);
    } else {
      QuietPhased(d, rx, s, seen, step, read, dir);
    }
  }

  lemma {:induction false} PlayPhased(d: Device, rx: Receivers, s: State, seen: seq<PeerStats>, steps: seq<Step>, read: bool, dir: T.Dir)
    requires Phased(d, rx, s, seen, read, dir) && RecoversOnce(rx) && OncePerTick(d, steps, read)
    requires OwnKeys(d, steps) && Rising(seen + Readings(d, steps))
    ensures Reported(d, Play(rx, s, steps).bus.traffic, dir) <= Growth(seen + Readings(d, steps), dir)
    decreases |steps|
  {
    if steps == [] {
      assert seen + Readings(d, steps) == seen;
    } else {
      var step := steps[0];
      var after := SeenNext(d, seen, step);
      assert after + Readings(d, steps[1..]) == seen + Readings(d, steps);
      RisingPrefix(after, Readings(d, steps[1..]));
      assert OwnKey(d, step);
      NextPhased(d, rx, s, seen, step, read, dir);
      PlayPhased(d, rx, Next(rx, s, step), after, steps[1..], ReadNext(d, step, read), dir);
    }
  }

  /*** From ticks to steps ***/

  lemma {:induction false} OnceThenEnd(d: Device, steps: seq<Step>, end: Step, rest: seq<Step>, read: bool)
    requires OwnKeys(d, steps) && Mentions(steps, d.network, d.peer) + (if read then 1 else 0) <= 1
    requires (end.Flush? || end.Restart?) && OncePerTick(d, rest, false)
    ensures OncePerTick(d, steps + ([end] + rest), read)
    decreases |steps|
  {
    if steps == [] {
      assert steps + ([end] + rest) == [end] + rest && ([end] + rest)[1..] == rest;
    } else {
      var all := steps + ([end] + rest);
      assert all[0] == steps[0] && all[1..] == steps[1..] + ([end] + rest);
      assert OwnKey(d, steps[0]);
      assert OwnKeys(d, steps[1..]) by { assert forall i | 0 <= i < |steps[1..]| :: steps[1..][i] == steps[i + 1]; }
      OnceThenEnd(d, steps[1..], end, rest, ReadNext(d, steps[0], read));
    }
  }

  lemma OwnKeysParts(d: Device, a: seq<Step>, b: seq<Step>)
    requires OwnKeys(d, a + b)
    ensures OwnKeys(d, a) && OwnKeys(d, b)
  {
    assert forall i | 0 <= i < |a| :: (a + b)[i] == a[i];
    assert forall i | 0 <= i < |b| :: (a + b)[|a| + i] == b[i];
  }

  lemma TickReadOnce(d: Device, tick: Tick, later: seq<Step>)
    requires (tick.Some? ==> DistinctKeys(tick.value)) && OwnKeys(d, Script(tick)) && OncePerTick(d, later, false)
    ensures OncePerTick(d, Script(tick) + later, false)
  {
    match tick
    case None =>
      OnceThenEnd(d, [], Restart, later, false);
      assert [] + ([Restart] + later) == Script(tick) + later;
    case Some(spaces) =>
      OwnKeysParts(d, SpacesSteps(spaces), [Flush]);
      SpacesMentions(spaces, d.network, d.peer);
      OnceThenEnd(d, SpacesSteps(spaces), Flush, later, false);
      assert SpacesSteps(spaces) + ([Flush] + later) == Script(tick) + later;
  }

  lemma {:induction false} DistinctReadOnce(d: Device, ticks: seq<Tick>)
    requires DistinctTicks(ticks) && OwnKeys(d, AllSteps(ticks))
    ensures OncePerTick(d, AllSteps(ticks), false)
  {
    if ticks != [] {
      var tick, rest := ticks[0], ticks[1..];
      OwnKeysParts(d, Script(tick), AllSteps(rest));
      assert DistinctTicks(rest) by { assert forall i | 0 <= i < |rest| :: rest[i] == ticks[i + 1]; }
      DistinctReadOnce(d, rest);
      TickReadOnce(d, tick, AllSteps(rest));
    }
  }

  lemma DistinctNotOver(rx: Receivers, ticks: seq<Tick>, d: Device, dir: T.Dir)
    requires RecoversOnce(rx) && DistinctTicks(ticks) && OwnKeys(d, AllSteps(ticks)) && Rising(Readings(d, AllSteps(ticks)))
    ensures Reported(d, Run(rx, ticks).bus.traffic, dir) <= Growth(Readings(d, AllSteps(ticks)), dir)
  {
    DistinctReadOnce(d, ticks);
    StepsNotOver(d, rx, AllSteps(ticks), dir);
  }

  lemma StepsNotOver(d: Device, rx: Receivers, steps: seq<Step>, dir: T.Dir)
    requires RecoversOnce(rx) && OncePerTick(d, steps, false) && OwnKeys(d, steps) && Rising(Readings(d, steps))
    ensures Reported(d, Play(rx, START, steps).bus.traffic, dir) <= Growth(Readings(d, steps), dir)
  {
    assert [] + Readings(d, steps) == Readings(d, steps);
    assert Phased(d, rx, START, [], false, dir);
    PlayPhased(d, rx, START, [], steps, false, dir);
  }

  /** When ticks find distinct networks with distinct peers, reports exceed the counters in no run if and only if,
      after an accepted send and then a refused one, at most one more is accepted. */
  lemma NeverOverReportedDistinct(rx: Receivers)
    ensures NeverOverDistinct(rx) <==> RecoversOnce(rx)
  {
    if RecoversOnce(rx) {
      forall ticks: seq<Tick>, d: Device, dir: T.Dir
        | OwnKeys(d, AllSteps(ticks)) && Rising(Readings(d, AllSteps(ticks))) && DistinctTicks(ticks)
        ensures Reported(d, Run(rx, ticks).bus.traffic, dir) <= Growth(Readings(d, AllSteps(ticks)), dir)
      {
        DistinctNotOver(rx, ticks, d, dir);
      }
    } else {
      var a: nat, i: nat, j: nat, m: nat :| RecoversTwice(rx, a, i, j, m);
      var ticks := F.LateSubscriberCountsTwice(rx, a, i, j, m, 1);
    }
  }
}
