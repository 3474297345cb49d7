/** What handling one peer of a snapshot does, said in terms of its reading: the events it calls for and which of them
    are delivered, the traffic it records, and what is cached of it (src/watchdog.rs). */
module PeerHandling {
  import opened Basics
  import opened Watchdog
  import T = Traffic

  const TIMEOUT: nat := 181 * 1_000_000_000

  // The last handshake is not in the future, and less than 181 seconds ago.
  predicate Live(r: Reading)
  {
    r.stats.handshake.Some? && r.stats.handshake.value <= r.first < r.stats.handshake.value + TIMEOUT
  }

  // The cached reading of a peer.
  function Known(s: State, port: u16, peer: Pubkey): Option<PeerStats> { Lookup(EntryOf(s.cache, port), peer) }

  // A new endpoint of a known peer is announced first, then a change of its connection.
  function Wanted(known: Option<PeerStats>, network: Pubkey, r: Reading): seq<Event>
  {
    Moves(known, network, r) + Changes(known.Some? && known.value.handshake.Some?, network, r)
  }

  function Moves(known: Option<PeerStats>, network: Pubkey, r: Reading): seq<Event>
  {
    if known.Some? && r.stats.endpoint.Some? && r.stats.endpoint != known.value.endpoint
    then [Endpoint(network, r.stats.key, r.stats.endpoint.value)]
    else []
  }

  function Changes(up: bool, network: Pubkey, r: Reading): seq<Event>
  {
    if up && !Live(r) then [Disconnected(network, r.stats.key)]
    else if !up && Live(r) then [Connected(network, r.stats.key, r.stats.endpoint.value)]
    else []
  }

  // How many of the next n sends are accepted before the first refused one.
  function Accepted(rx: Receivers, sends: nat, n: nat): (h: nat)
    ensures h <= n
    decreases n
  {
    if n == 0 || !rx(sends) then 0 else 1 + Accepted(rx, sends + 1, n - 1)
  }

  function Labelled(port: u16, events: seq<Event>): seq<Sent>
  {
    seq(|events|, i requires 0 <= i < |events| => Sent(port, events[i]))
  }

  // Events are delivered in order up to the first refused one, which uses up a send.
  predicate Delivers(rx: Receivers, before: Bus, after: Bus, port: u16, events: seq<Event>, ok: bool)
  {
    var h := Accepted(rx, before.sends, |events|);
    && ok == (h == |events|)
    && after.events == before.events + Labelled(port, events[..h])
    && after.sends == before.sends + (if ok then h else h + 1)
    && after.traffic == before.traffic
  }

  // Growth since the cached reading, unless a counter went back, nothing grew, or the growth is the word size.
  function Grown(known: Option<PeerStats>, network: Pubkey, r: Reading): seq<T.Item>
  {
    if known.None? || r.stats.rx < known.value.rx || r.stats.tx < known.value.tx || r.second < 0 then []
    else
      var rx, tx := r.stats.rx - known.value.rx, r.stats.tx - known.value.tx;
      if rx + tx == 0 || rx + tx == 0x1_0000_0000_0000_0000 then []
      else [T.Item(network, r.stats.key, r.second / 1_000_000_000, T.Traffic(rx, tx))]
  }

  // What is cached of the reading: a handshake that is not live is forgotten.
  function Cacheable(r: Reading): PeerStats { if Live(r) then r.stats else r.stats.(handshake := None) }

  /*** Proof ***/

  lemma ExpiresUnlessLive(r: Reading)
    ensures Expire(r.stats, r.first) == Cacheable(r)
  {
    if r.stats.handshake.Some? {
      var ago := r.first - r.stats.handshake.value;
      assert 0 <= ago ==> (ago / SECOND > WIREGUARD_HANDSHAKE_TIMEOUT <==> ago >= TIMEOUT);
    }
  }

  lemma RecordsGrowth(items: seq<T.Item>, network: Pubkey, known: PeerStats, r: Reading)
    requires r.second >= 0
    ensures Account(items, network, known, Cacheable(r), r.second) == items + Grown(Some(known), network, r)
  {
    assert items + [] == items;
    if known.rx <= r.stats.rx && known.tx <= r.stats.tx {
      AccountExactly(items, network, known, Cacheable(r), r.second);
    }
  }

  lemma SendDelivers(rx: Receivers, s: State, port: u16, event: Event)
    ensures var r := Send(rx, s, port, event); Delivers(rx, s.bus, r.state.bus, port, [event], r.ok)
  {
    assert Accepted(rx, s.bus.sends + 1, 0) == 0;
    var h := Accepted(rx, s.bus.sends, 1);
    assert [event][..h] == if rx(s.bus.sends) then [event] else [];
    assert s.bus.events + [] == s.bus.events;
  }

  lemma NothingDelivered(rx: Receivers, b: Bus, port: u16)
    ensures Delivers(rx, b, b, port, [], true)
  {
    assert b.events + [] == b.events;
  }

  lemma {:induction false} AcceptedSplit(rx: Receivers, sends: nat, m: nat, n: nat)
    ensures var h := Accepted(rx, sends, m);
      Accepted(rx, sends, m + n) == if h < m then h else m + Accepted(rx, sends + m, n)
    decreases m
  {
    if m > 0 && rx(sends) { AcceptedSplit(rx, sends + 1, m - 1, n); }
  }

  lemma StopDelivers(rx: Receivers, a: Bus, b: Bus, port: u16, first: seq<Event>, second: seq<Event>)
    requires Delivers(rx, a, b, port, first, false)
    ensures Delivers(rx, a, b, port, first + second, false)
  {
    AcceptedSplit(rx, a.sends, |first|, |second|);
    var h := Accepted(rx, a.sends, |first|);
    assert (first + second)[..h] == first[..h];
  }

  lemma ThenDelivers(rx: Receivers, a: Bus, b: Bus, c: Bus, port: u16, first: seq<Event>, second: seq<Event>, ok: bool)
    requires Delivers(rx, a, b, port, first, true) && Delivers(rx, b, c, port, second, ok)
    ensures Delivers(rx, a, c, port, first + second, ok)
  {
    AcceptedSplit(rx, a.sends, |first|, |second|);
    var h := Accepted(rx, b.sends, |second|);
    assert first[..|first|] == first;
    assert (first + second)[..|first| + h] == first + second[..h];
    assert Labelled(port, first + second[..h]) == Labelled(port, first) + Labelled(port, second[..h]);
  }

  lemma MovesDelivered(rx: Receivers, s: State, port: u16, network: Pubkey, known: PeerStats, r: Reading)
    ensures var e := SendEndpoint(rx, s, port, network, known, Cacheable(r));
      Delivers(rx, s.bus, e.state.bus, port, Moves(Some(known), network, r), e.ok)
      && e.state == s.(bus := e.state.bus)
  {
    NothingDelivered(rx, s.bus, port);
    if r.stats.endpoint.Some? { SendDelivers(rx, s, port, Endpoint(network, r.stats.key, r.stats.endpoint.value)); }
  }

  lemma ChangesDelivered(rx: Receivers, s: State, port: u16, network: Pubkey, up: bool, r: Reading)
    ensures var h := SendHandshake(rx, s, port, network, up, Cacheable(r));
      Delivers(rx, s.bus, h.state.bus, port, Changes(up, network, r), h.ok)
      && h.state == s.(bus := h.state.bus)
  {
    NothingDelivered(rx, s.bus, port);
    SendDelivers(rx, s, port, Disconnected(network, r.stats.key));
    if Live(r) { SendDelivers(rx, s, port, Connected(network, r.stats.key, r.stats.endpoint.value)); }
  }

  // Everything else in the cache stays.
  ghost predicate OnlyThis(s: State, next: State, port: u16, peer: Pubkey)
  {
    forall q: u16, p: Pubkey | q != port || p != peer :: Known(next, q, p) == Known(s, q, p)
  }

  // The outcome of handling a reading, when the clock can be read.
  ghost predicate Handled(rx: Receivers, s: State, o: Result, port: u16, network: Pubkey, r: Reading)
  {
    var known := Known(s, port, r.stats.key);
    && Delivers(rx, s.bus, o.state.bus, port, Wanted(known, network, r), o.ok)
    && o.state.items == s.items + Grown(known, network, r)
    && Known(o.state, port, r.stats.key) == (if o.ok then Some(Cacheable(r)) else known)
    && OnlyThis(s, o.state, port, r.stats.key)
  }

  lemma StoreKnown(s: State, port: u16, cur: PeerStats)
    ensures Known(Store(s, port, cur), port, cur.key) == Some(cur) && OnlyThis(s, Store(s, port, cur), port, cur.key)
  {
  }

  lemma NewHandled(rx: Receivers, s: State, port: u16, network: Pubkey, r: Reading)
    requires Known(s, port, r.stats.key).None?
    ensures Handled(rx, s, Observe(rx, s, port, network, r), port, network, r)
  {
    ExpiresUnlessLive(r);
    ChangesDelivered(rx, s, port, network, false, r);
    var h := SendHandshake(rx, s, port, network, false, Cacheable(r));
    StoreKnown(h.state, port, Cacheable(r));
    assert [] + Changes(false, network, r) == Changes(false, network, r) && s.items + [] == s.items;
  }

  lemma OldHandled(rx: Receivers, s: State, port: u16, network: Pubkey, r: Reading, known: PeerStats)
    requires Known(s, port, r.stats.key) == Some(known) && r.second >= 0
    ensures Handled(rx, s, Observe(rx, s, port, network, r), port, network, r)
  {
    var up := known.handshake.Some?;
    ExpiresUnlessLive(r);
    RecordsGrowth(s.items, network, known, r);
    var s1 := s.(items := s.items + Grown(Some(known), network, r));
    MovesDelivered(rx, s1, port, network, known, r);
    var e := SendEndpoint(rx, s1, port, network, known, Cacheable(r));
    if e.ok {
      ChangesDelivered(rx, e.state, port, network, up, r);
      var h := SendHandshake(rx, e.state, port, network, up, Cacheable(r));
      ThenDelivers(rx, s.bus, e.state.bus, h.state.bus, port, Moves(Some(known), network, r), Changes(up, network, r), h.ok);
      StoreKnown(h.state, port, Cacheable(r));
    } else {
      StopDelivers(rx, s.bus, e.state.bus, port, Moves(Some(known), network, r), Changes(up, network, r));
    }
  }

  /** Handling a peer delivers the events its reading calls for, in order up to the first refused one, records its
      growth whether or not they are delivered, and caches the reading if and only if all of them are. A known peer
      is left as it is while the clock is before the epoch. */
  lemma ObserveExactly(rx: Receivers, s: State, port: u16, network: Pubkey, r: Reading)
    ensures var o := Observe(rx, s, port, network, r);
      if Known(s, port, r.stats.key).Some? && r.second < 0 then o == Result(s, false)
      else Handled(rx, s, o, port, network, r)
  {
    var known := Known(s, port, r.stats.key);
    if known.None? {
      NewHandled(rx, s, port, network, r);
    } else if r.second >= 0 {
      OldHandled(rx, s, port, network, r, known.value);
    }
  }

  /** After a peer is handled without an error it is cached as connected if and only if its handshake is live. */
  lemma ConnectedExactly(rx: Receivers, s: State, port: u16, network: Pubkey, r: Reading)
    requires Observe(rx, s, port, network, r).ok
    ensures var k := Known(Observe(rx, s, port, network, r).state, port, r.stats.key);
      k.Some? && (k.value.handshake.Some? <==>
        r.stats.handshake.Some? && r.stats.handshake.value <= r.first < r.stats.handshake.value + 181 * SECOND)
  {
    ObserveExactly(rx, s, port, network, r);
  }
}
