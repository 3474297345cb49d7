/** Delivered connection events against the peer cache, over whole runs; and the cache after one network. */
module WatchdogEvents {
  import opened Basics
  import opened Config
  import opened Watchdog

  // The cache holds this peer with a live handshake.
  predicate Up(cache: PeerCache, port: u16, peer: Pubkey)
  {
    peer in EntryOf(cache, port) && EntryOf(cache, port)[peer].handshake.Some?
  }

  // A connection event of this peer.
  predicate About(e: Sent, port: u16, peer: Pubkey)
  {
    e.port == port && e.event.peer == peer && !e.event.Endpoint?
  }

  // The last delivered connection event of this peer says it connected.
  predicate LastUp(events: seq<Sent>, port: u16, peer: Pubkey)
  {
    if events == [] then false
    else
      var last := events[|events| - 1];
      if About(last, port, peer) then last.event.Connected? else LastUp(events[..|events| - 1], port, peer)
  }

  predicate Joined(e: Sent, port: u16, peer: Pubkey) { About(e, port, peer) && e.event.Connected? }

  predicate Left(e: Sent, port: u16, peer: Pubkey) { About(e, port, peer) && e.event.Disconnected? }

  // Between two connects there is a disconnect.
  ghost predicate Alternate(events: seq<Sent>, port: u16, peer: Pubkey)
  {
    forall i, j | 0 <= i < j < |events| && Joined(events[i], port, peer) && Joined(events[j], port, peer) ::
      exists k :: i < k < j && Left(events[k], port, peer)
  }

  lemma LastUpAppend(events: seq<Sent>, e: Sent, port: u16, peer: Pubkey)
    ensures LastUp(events + [e], port, peer) == if About(e, port, peer) then e.event.Connected? else LastUp(events, port, peer)
  {
    assert (events + [e])[..|events|] == events;
  }

  // A peer that last disconnected, or never connected, has left after each of its connects.
  lemma {:induction false} LeftSince(events: seq<Sent>, port: u16, peer: Pubkey, i: nat)
    requires !LastUp(events, port, peer) && i < |events| && Joined(events[i], port, peer)
    ensures exists k :: i < k < |events| && Left(events[k], port, peer)
  {
    var last := events[|events| - 1];
    if About(last, port, peer) {
      assert Left(events[|events| - 1], port, peer);
    } else {
      LeftSince(events[..|events| - 1], port, peer, i);
    }
  }

  lemma AlternateAppend(events: seq<Sent>, e: Sent, port: u16, peer: Pubkey)
    requires Alternate(events, port, peer)
    requires Joined(e, port, peer) ==> !LastUp(events, port, peer)
    ensures Alternate(events + [e], port, peer)
  {
    var next := events + [e];
    forall i, j | 0 <= i < j < |next| && Joined(next[i], port, peer) && Joined(next[j], port, peer)
      ensures exists k :: i < k < j && Left(next[k], port, peer)
    {
      if j == |events| {
        LeftSince(events, port, peer, i);
        var k :| i < k < |events| && Left(events[k], port, peer);
        assert Left(next[k], port, peer);
      } else {
        var k :| i < k < j && Left(events[k], port, peer);
        assert Left(next[k], port, peer);
      }
    }
  }

  /*** Invariants ***/

  // What holds in every run: a peer cached as connected was last reported as connected.
  ghost predicate Reported(s: State, port: u16, peer: Pubkey)
  {
    Up(s.cache, port, peer) ==> LastUp(s.bus.events, port, peer)
  }

  // What holds in a run without losses: cache and reports agree both ways.
  ghost predicate Exact(s: State, port: u16, peer: Pubkey)
  {
    && (Up(s.cache, port, peer) <==> LastUp(s.bus.events, port, peer))
    && Alternate(s.bus.events, port, peer)
  }

  lemma SendLast(rx: Receivers, s: State, at: u16, event: Event, port: u16, peer: Pubkey)
    ensures var r := Send(rx, s, at, event);
      && r.state.cache == s.cache
      && LastUp(r.state.bus.events, port, peer)
           == if r.ok && About(Sent(at, event), port, peer) then event.Connected? else LastUp(s.bus.events, port, peer)
  {
    LastUpAppend(s.bus.events, Sent(at, event), port, peer);
  }

  lemma SendAlternate(rx: Receivers, s: State, at: u16, event: Event, port: u16, peer: Pubkey)
    requires Alternate(s.bus.events, port, peer)
    requires Joined(Sent(at, event), port, peer) ==> !LastUp(s.bus.events, port, peer)
    ensures Alternate(Send(rx, s, at, event).state.bus.events, port, peer)
  {
    AlternateAppend(s.bus.events, Sent(at, event), port, peer);
  }

  lemma EndpointLast(rx: Receivers, s: State, at: u16, network: Pubkey, previous: PeerStats, cur: PeerStats, port: u16, peer: Pubkey)
    ensures var r := SendEndpoint(rx, s, at, network, previous, cur);
      && r.state.cache == s.cache
      && LastUp(r.state.bus.events, port, peer) == LastUp(s.bus.events, port, peer)
      && (Alternate(s.bus.events, port, peer) ==> Alternate(r.state.bus.events, port, peer))
  {
    if cur.endpoint.Some? {
      var event := Endpoint(network, cur.key, cur.endpoint.value);
      SendLast(rx, s, at, event, port, peer);
      if Alternate(s.bus.events, port, peer) { SendAlternate(rx, s, at, event, port, peer); }
    }
  }

  lemma HandshakeLast(rx: Receivers, s: State, at: u16, network: Pubkey, up: bool, cur: PeerStats, port: u16, peer: Pubkey)
    ensures var r := SendHandshake(rx, s, at, network, up, cur);
      && r.state.cache == s.cache
      && LastUp(r.state.bus.events, port, peer)
           == if r.ok && at == port && cur.key == peer && up != cur.handshake.Some? then cur.handshake.Some?
              else LastUp(s.bus.events, port, peer)
  {
    SendLast(rx, s, at, Disconnected(network, cur.key), port, peer);
    if cur.handshake.Some? {
      SendLast(rx, s, at, Connected(network, cur.key, cur.endpoint.value), port, peer);
    }
  }

  lemma HandshakeAlternate(rx: Receivers, s: State, at: u16, network: Pubkey, up: bool, cur: PeerStats, port: u16, peer: Pubkey)
    requires Alternate(s.bus.events, port, peer)
    requires at == port && cur.key == peer && LastUp(s.bus.events, port, peer) ==> up
    ensures Alternate(SendHandshake(rx, s, at, network, up, cur).state.bus.events, port, peer)
  {
    SendAlternate(rx, s, at, Disconnected(network, cur.key), port, peer);
    if !up && cur.handshake.Some? {
      SendAlternate(rx, s, at, Connected(network, cur.key, cur.endpoint.value), port, peer);
    }
  }

  lemma StoreUp(s: State, at: u16, cur: PeerStats, port: u16, peer: Pubkey)
    ensures Up(Store(s, at, cur).cache, port, peer)
      == if at == port && cur.key == peer then cur.handshake.Some? else Up(s.cache, port, peer)
  {
  }

  // One handled peer, seen from that peer or any other.
  lemma ObserveKeeps(rx: Receivers, s: State, at: u16, network: Pubkey, r: Reading, port: u16, peer: Pubkey)
    ensures var next := Observe(rx, s, at, network, r).state;
      && (Reported(s, port, peer) ==> Reported(next, port, peer))
      && (Exact(s, port, peer) ==> Exact(next, port, peer))
  {
    var cur := Expire(r.stats, r.first);
    var entry := EntryOf(s.cache, at);
    if cur.key !in entry {
      HandshakeLast(rx, s, at, network, false, cur, port, peer);
      if Exact(s, port, peer) { HandshakeAlternate(rx, s, at, network, false, cur, port, peer); }
      StoreUp(SendHandshake(rx, s, at, network, false, cur).state, at, cur, port, peer);
    } else if r.second >= 0 {
      var previous := entry[cur.key];
      var up := previous.handshake.Some?;
      var s1 := s.(items := Account(s.items, network, previous, cur, r.second));
      EndpointLast(rx, s1, at, network, previous, cur, port, peer);
      var e := SendEndpoint(rx, s1, at, network, previous, cur);
      if e.ok {
        HandshakeLast(rx, e.state, at, network, up, cur, port, peer);
        if Exact(s, port, peer) { HandshakeAlternate(rx, e.state, at, network, up, cur, port, peer); }
        StoreUp(SendHandshake(rx, e.state, at, network, up, cur).state, at, cur, port, peer);
      }
    }
  }

  lemma {:induction false} BuryKeeps(rx: Receivers, s: State, at: u16, network: Pubkey, dead: seq<Pubkey>, port: u16, peer: Pubkey)
    requires Reported(s, port, peer)
    ensures Reported(Bury(rx, s, at, network, dead).state, port, peer)
    decreases |dead|
  {
    if dead != [] {
      var gone := s.(cache := s.cache[at := EntryOf(s.cache, at) - {dead[0]}]);
      SendLast(rx, gone, at, Disconnected(network, dead[0]), port, peer);
      var r := Send(rx, gone, at, Disconnected(network, dead[0]));
      if r.ok { BuryKeeps(rx, r.state, at, network, dead[1..], port, peer); }
    }
  }

  /*** When agreement is lost, exactly ***/

  // The first refused report of these dead peers is this peer's.
  predicate RefusedFirst(rx: Receivers, sends: nat, dead: seq<Pubkey>, peer: Pubkey)
    decreases |dead|
  {
    dead != [] && if rx(sends) then RefusedFirst(rx, sends + 1, dead[1..], peer) else dead[0] == peer
  }

  // The step drops the peer from the cache, where it is connected, without a delivered disconnect: a refused
  // traffic report, a failed listing, or a refused report of its own death.
  ghost predicate Forgets(rx: Receivers, s: State, step: Step, port: u16, peer: Pubkey)
  {
    Up(s.cache, port, peer) &&
    match step
    case Flush => !rx(s.bus.sends)
    case Restart => true
    case Sweep(at, _, alive) => at == port && RefusedFirst(rx, s.bus.sends, Dead(s, at, alive), peer)
    case _ => false
  }

  lemma {:induction false} RefusedIsDead(rx: Receivers, sends: nat, dead: seq<Pubkey>, peer: Pubkey)
    requires RefusedFirst(rx, sends, dead, peer)
    ensures peer in dead
    decreases |dead|
  {
    if rx(sends) { RefusedIsDead(rx, sends + 1, dead[1..], peer); }
  }

  ghost predicate Unrepeated(dead: seq<Pubkey>) { forall i, j | 0 <= i < j < |dead| :: dead[i] != dead[j] }

  // Removing one dead peer and reporting it.
  lemma BuryOne(rx: Receivers, s: State, at: u16, network: Pubkey, first: Pubkey, port: u16, peer: Pubkey)
    requires Exact(s, port, peer)
    ensures var gone := s.(cache := s.cache[at := EntryOf(s.cache, at) - {first}]);
      var r := Send(rx, gone, at, Disconnected(network, first));
      && (Exact(r.state, port, peer) <==> !(at == port && first == peer && Up(s.cache, port, peer) && !r.ok))
      && (at != port || first != peer ==> Up(r.state.cache, port, peer) == Up(s.cache, port, peer))
      && r.state.bus.sends == s.bus.sends + 1 && r.ok == rx(s.bus.sends)
  {
    var gone := s.(cache := s.cache[at := EntryOf(s.cache, at) - {first}]);
    SendLast(rx, gone, at, Disconnected(network, first), port, peer);
    SendAlternate(rx, gone, at, Disconnected(network, first), port, peer);
  }

  lemma {:induction false} BuryExact(rx: Receivers, s: State, at: u16, network: Pubkey, dead: seq<Pubkey>, port: u16, peer: Pubkey)
    requires Exact(s, port, peer) && Unrepeated(dead)
    ensures Exact(Bury(rx, s, at, network, dead).state, port, peer)
      <==> !(at == port && Up(s.cache, port, peer) && RefusedFirst(rx, s.bus.sends, dead, peer))
    decreases |dead|
  {
    if dead != [] {
      var first, rest := dead[0], dead[1..];
      assert first !in rest;
      BuryOne(rx, s, at, network, first, port, peer);
      var gone := s.(cache := s.cache[at := EntryOf(s.cache, at) - {first}]);
      var r := Send(rx, gone, at, Disconnected(network, first));
      if r.ok {
        BuryExact(rx, r.state, at, network, rest, port, peer);
        if first == peer && RefusedFirst(rx, r.state.bus.sends, rest, peer) {
          RefusedIsDead(rx, r.state.bus.sends, rest, peer);
        }
      }
    }
  }

  lemma ClearedExact(s: State, next: State, port: u16, peer: Pubkey)
    requires Exact(s, port, peer) && next.cache == map[] && next.bus.events == s.bus.events
    ensures Exact(next, port, peer) <==> !Up(s.cache, port, peer)
  {
  }

  /** While cache and reports agree on a peer, one step keeps them in agreement if and only if it does not forget
      the peer. */
  lemma NextExact(rx: Receivers, s: State, step: Step, port: u16, peer: Pubkey)
    requires Exact(s, port, peer)
    ensures Exact(Next(rx, s, step), port, peer) <==> !Forgets(rx, s, step, port, peer)
  {
    match step
    case Enter(at) =>
    case Peer(at, network, reading) => ObserveKeeps(rx, s, at, network, reading, port, peer);
    case Sweep(at, network, alive) => BuryExact(rx, s, at, network, Dead(s, at, alive), port, peer);
    case Flush => if !rx(s.bus.sends) { ClearedExact(s, Next(rx, s, step), port, peer); }
    case Restart => ClearedExact(s, Next(rx, s, step), port, peer);
  }

  ghost predicate SomeForgets(rx: Receivers, s: State, steps: seq<Step>, port: u16, peer: Pubkey)
    decreases |steps|
  {
    steps != [] && (Forgets(rx, s, steps[0], port, peer) || SomeForgets(rx, Next(rx, s, steps[0]), steps[1..], port, peer))
  }

  // Agreement now and after every step.
  ghost predicate AlwaysExact(rx: Receivers, s: State, steps: seq<Step>, port: u16, peer: Pubkey)
    decreases |steps|
  {
    Exact(s, port, peer) && (steps == [] || AlwaysExact(rx, Next(rx, s, steps[0]), steps[1..], port, peer))
  }

  lemma {:induction false} PlayExact(rx: Receivers, s: State, steps: seq<Step>, port: u16, peer: Pubkey)
    requires Exact(s, port, peer)
    ensures AlwaysExact(rx, s, steps, port, peer) <==> !SomeForgets(rx, s, steps, port, peer)
    decreases |steps|
  {
    if steps != [] {
      var next := Next(rx, s, steps[0]);
      NextExact(rx, s, steps[0], port, peer);
      if Exact(next, port, peer) { PlayExact(rx, next, steps[1..], port, peer); }
    }
  }

  lemma {:induction false} AlwaysAtEnd(rx: Receivers, s: State, steps: seq<Step>, port: u16, peer: Pubkey)
    requires AlwaysExact(rx, s, steps, port, peer)
    ensures Exact(Play(rx, s, steps), port, peer)
    decreases |steps|
  {
    if steps != [] { AlwaysAtEnd(rx, Next(rx, s, steps[0]), steps[1..], port, peer); }
  }

  /** In a run, cache and delivered events agree on a peer after every step, with a disconnect between any two
      connects, if and only if no step forgets the peer. */
  lemma AgreementExactly(rx: Receivers, ticks: seq<Tick>, port: u16, peer: Pubkey)
    ensures AlwaysExact(rx, START, AllSteps(ticks), port, peer)
      <==> !SomeForgets(rx, START, AllSteps(ticks), port, peer)
  {
    PlayExact(rx, START, AllSteps(ticks), port, peer);
  }

  // A step in which no dead peer's report is refused and the watchdog is not restarted.
  predicate Lossless(rx: Receivers, s: State, step: Step)
  {
    match step
    case Sweep(port, network, alive) => Bury(rx, s, port, network, Dead(s, port, alive)).ok
    case Flush => rx(s.bus.sends)
    case Restart => false
    case _ => true
  }

  predicate LosslessRun(rx: Receivers, s: State, steps: seq<Step>)
    decreases |steps|
  {
    steps == [] || (Lossless(rx, s, steps[0]) && LosslessRun(rx, Next(rx, s, steps[0]), steps[1..]))
  }

  lemma {:induction false} NoneRefused(rx: Receivers, s: State, port: u16, network: Pubkey, dead: seq<Pubkey>, peer: Pubkey)
    requires Bury(rx, s, port, network, dead).ok
    ensures !RefusedFirst(rx, s.bus.sends, dead, peer)
    decreases |dead|
  {
    if dead != [] {
      var gone := s.(cache := s.cache[port := EntryOf(s.cache, port) - {dead[0]}]);
      NoneRefused(rx, Send(rx, gone, port, Disconnected(network, dead[0])).state, port, network, dead[1..], peer);
    }
  }

  lemma {:induction false} LosslessForgetsNone(rx: Receivers, s: State, steps: seq<Step>, port: u16, peer: Pubkey)
    requires LosslessRun(rx, s, steps)
    ensures !SomeForgets(rx, s, steps, port, peer)
    decreases |steps|
  {
    if steps != [] {
      if steps[0].Sweep? {
        NoneRefused(rx, s, steps[0].port, steps[0].network, Dead(s, steps[0].port, steps[0].alive), peer);
      }
      LosslessForgetsNone(rx, Next(rx, s, steps[0]), steps[1..], port, peer);
    }
  }

  lemma NextKeeps(rx: Receivers, s: State, step: Step, port: u16, peer: Pubkey)
    requires Reported(s, port, peer)
    ensures Reported(Next(rx, s, step), port, peer)
  {
    match step
    case Enter(at) =>
    case Peer(at, network, reading) => ObserveKeeps(rx, s, at, network, reading, port, peer);
    case Sweep(at, network, alive) => BuryKeeps(rx, s, at, network, Dead(s, at, alive), port, peer);
    case Flush =>
    case Restart =>
  }

  lemma {:induction false} PlayKeepsReported(rx: Receivers, s: State, steps: seq<Step>, port: u16, peer: Pubkey)
    requires Reported(s, port, peer)
    ensures Reported(Play(rx, s, steps), port, peer)
    decreases |steps|
  {
    if steps != [] {
      NextKeeps(rx, s, steps[0], port, peer);
      PlayKeepsReported(rx, Next(rx, s, steps[0]), steps[1..], port, peer);
    }
  }

  /** In every run, failed sends and restarts included, a peer cached with a handshake was last reported as
      connected. */
  lemma CachedIsReported(rx: Receivers, ticks: seq<Tick>, port: u16, peer: Pubkey)
    ensures Up(Run(rx, ticks).cache, port, peer) ==> LastUp(Run(rx, ticks).bus.events, port, peer)
  {
    PlayKeepsReported(rx, START, AllSteps(ticks), port, peer);
  }

  /** Without a restart and without a refused report of a dead peer the converse holds too, and two reports
      of a connect have one of a disconnect between them. */
  lemma ReportedIsCached(rx: Receivers, ticks: seq<Tick>, port: u16, peer: Pubkey)
    requires LosslessRun(rx, START, AllSteps(ticks))
    ensures Up(Run(rx, ticks).cache, port, peer) <==> LastUp(Run(rx, ticks).bus.events, port, peer)
    ensures Alternate(Run(rx, ticks).bus.events, port, peer)
  {
    AgreementExactly(rx, ticks, port, peer);
    LosslessForgetsNone(rx, START, AllSteps(ticks), port, peer);
    AlwaysAtEnd(rx, START, AllSteps(ticks), port, peer);
  }

  /*** The cache after one network ***/

  function Reports(port: u16, network: Pubkey, dead: seq<Pubkey>): seq<Sent>
  {
    seq(|dead|, i requires 0 <= i < |dead| => Sent(port, Disconnected(network, dead[i])))
  }

  function KeysOf(s: State, port: u16): set<Pubkey> { EntryOf(s.cache, port).Keys }

  function Members(s: seq<Pubkey>): set<Pubkey> { set x | x in s }

  // No network but this one has its entry changed.
  ghost predicate OthersUntouched(s: State, next: State, port: u16)
  {
    forall q: u16 | q != port :: Lookup(next.cache, q) == Lookup(s.cache, q)
  }

  // The first k dead peers were reported, and all of them or one more were removed.
  ghost predicate Buried(s: State, r: Result, port: u16, network: Pubkey, dead: seq<Pubkey>, k: nat)
  {
    && k <= |dead| && (r.ok <==> k == |dead|)
    && r.state.bus.events == s.bus.events + Reports(port, network, dead[..k])
    && KeysOf(r.state, port) == KeysOf(s, port) - Members(dead[..if r.ok then k else k + 1])
    && OthersUntouched(s, r.state, port)
  }

  lemma BuriedFront(s: State, gone: State, r: Result, port: u16, network: Pubkey, first: Pubkey, rest: seq<Pubkey>, j: nat)
    requires Buried(gone, r, port, network, rest, j) && OthersUntouched(s, gone, port)
    requires gone.bus.events == s.bus.events + [Sent(port, Disconnected(network, first))]
    requires KeysOf(gone, port) == KeysOf(s, port) - {first}
    ensures Buried(s, r, port, network, [first] + rest, j + 1)
  {
    var dead, n := [first] + rest, if r.ok then j else j + 1;
    assert dead[..j + 1] == [first] + rest[..j] && dead[..n + 1] == [first] + rest[..n];
    assert Reports(port, network, dead[..j + 1]) == [Sent(port, Disconnected(network, first))] + Reports(port, network, rest[..j]);
    assert Members(dead[..n + 1]) == {first} + Members(rest[..n]);
  }

  /** The dead peers are removed and reported in order. At the first refused report that peer is removed
      unreported, and the ones after it stay cached. */
  lemma {:induction false} BuryExactly(rx: Receivers, s: State, port: u16, network: Pubkey, dead: seq<Pubkey>) returns (k: nat)
    ensures Buried(s, Bury(rx, s, port, network, dead), port, network, dead, k)
    decreases |dead|
  {
    if dead == [] {
      k := 0;
      assert Reports(port, network, dead[..0]) == [] && Members(dead[..0]) == {};
    } else {
      var first, rest := dead[0], dead[1..];
      var gone := s.(cache := s.cache[port := EntryOf(s.cache, port) - {first}]);
      var r := Send(rx, gone, port, Disconnected(network, first));
      if r.ok {
        var j := BuryExactly(rx, r.state, port, network, rest);
        k := j + 1;
        assert dead == [first] + rest;
        BuriedFront(s, r.state, Bury(rx, r.state, port, network, rest), port, network, first, rest, j);
      } else {
        k := 0;
        assert dead[..0] == [] && dead[..1] == [first];
        assert Reports(port, network, []) == [] && Members([first]) == {first};
      }
    }
  }

  lemma ObserveShape(rx: Receivers, s: State, port: u16, network: Pubkey, r: Reading)
    ensures var o := Observe(rx, s, port, network, r);
      && OthersUntouched(s, o.state, port)
      && KeysOf(o.state, port) == KeysOf(s, port) + if o.ok then {r.stats.key} else {}
  {
  }

  // Every peer of the snapshot is handled without an error.
  predicate AllHandled(rx: Receivers, s: State, net: NetworkStats, peers: seq<Reading>)
    decreases |peers|
  {
    peers == [] || (var o := Observe(rx, s, net.port, net.key, peers[0]); o.ok && AllHandled(rx, o.state, net, peers[1..]))
  }

  function KeysIn(peers: seq<Reading>): set<Pubkey> { set i | 0 <= i < |peers| :: peers[i].stats.key }

  lemma {:induction false} PeersShape(rx: Receivers, s: State, net: NetworkStats, peers: seq<Reading>)
    ensures var p := Play(rx, s, PeerSteps(net, peers));
      && OthersUntouched(s, p, net.port)
      && KeysOf(s, net.port) <= KeysOf(p, net.port) <= KeysOf(s, net.port) + KeysIn(peers)
      && (AllHandled(rx, s, net, peers) ==> KeysOf(p, net.port) == KeysOf(s, net.port) + KeysIn(peers))
    decreases |peers|
  {
    if peers != [] {
      var rest := peers[1..];
      assert PeerSteps(net, peers)[1..] == PeerSteps(net, rest);
      var o := Observe(rx, s, net.port, net.key, peers[0]);
      ObserveShape(rx, s, net.port, net.key, peers[0]);
      PeersShape(rx, o.state, net, rest);
      assert peers == [peers[0]] + rest;
      assert KeysIn(peers) == {peers[0].stats.key} + KeysIn(rest);
    }
  }

  /** After a network whose sweep succeeds, its cached peers are among those of the snapshot, all of them when
      every peer was handled, each removed peer had its one disconnect sent, and no other network's entry changed. */
  lemma NetworkShape(rx: Receivers, s: State, net: NetworkStats)
    ensures var entered := Next(rx, s, Enter(net.port));
      var handled := Play(rx, entered, PeerSteps(net, net.peers));
      var dead := Dead(handled, net.port, Alive(net));
      var swept := Bury(rx, handled, net.port, net.key, dead);
      var end := Play(rx, s, NetworkSteps(net));
      && end == swept.state && OthersUntouched(s, end, net.port)
      && (swept.ok ==> KeysOf(end, net.port) <= KeysIn(net.peers))
      && (swept.ok && AllHandled(rx, entered, net, net.peers) ==> KeysOf(end, net.port) == KeysIn(net.peers))
      && (swept.ok ==> end.bus.events == handled.bus.events + Reports(net.port, net.key, dead))
      && Members(dead) == KeysOf(s, net.port) - KeysIn(net.peers)
  {
    var entered := Next(rx, s, Enter(net.port));
    var handled := Play(rx, entered, PeerSteps(net, net.peers));
    var dead := Dead(handled, net.port, Alive(net));
    PlayNetwork(rx, s, net);
    PeersShape(rx, entered, net, net.peers);
    assert KeysIn(net.peers) == Alive(net) && KeysOf(entered, net.port) == KeysOf(s, net.port);
    var k := BuryExactly(rx, handled, net.port, net.key, dead);
    assert dead[..|dead|] == dead;
    assert Members(dead) == KeysOf(handled, net.port) - Alive(net);
  }
}
