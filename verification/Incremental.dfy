/** From a converged kernel, a partial update leaves what a whole update with it merged in leaves. */
module Incremental {
  import opened Basics
  import opened Config
  import opened Addressing
  import opened Forwarding
  import opened Kernel
  import opened Reconciler
  import opened Effects
  import opened NetworkEffect
  import opened Invariants
  import opened Convergence

  lemma EffectKeepsWired(env: Env, n: NetworkState, k: Kernel)
    requires Wired(k)
    ensures Wired(Effect(env, n, k))
  {
    forall p: u16 | VethName(p) in Effect(env, n, k).root
      ensures Effect(env, n, k).root[VethName(p)].peer == Some(NetnsName(p))
    {
      if p != n.listenPort { NamesDiffer(p, n.listenPort); }
    }
  }

  lemma DropKeepsWired(k: Kernel, names: set<string>)
    requires Wired(k)
    ensures Wired(DropAll(k, names))
  {
  }

  lemma BridgeKeepsWired(k: Kernel)
    requires Wired(k)
    ensures Wired(BridgeEffect(k))
  {
    forall p: u16 | VethName(p) in BridgeEffect(k).root
      ensures BridgeEffect(k).root[VethName(p)].peer == Some(NetnsName(p))
    {
      LinkNamesDiffer(p);
    }
  }

  lemma {:induction false} EffectAllKeepsWired(env: Env, k: Kernel, networks: seq<NetworkState>)
    requires Wired(k)
    ensures Wired(EffectAll(env, k, networks))
    decreases |networks|
  {
    if networks != [] {
      EffectKeepsWired(env, networks[0], k);
      EffectAllKeepsWired(env, Effect(env, networks[0], k), networks[1..]);
    }
  }

  /** A successful run keeps the wiring. */
  lemma ApplyKeepsWired(env: Env, w: World, c: Networks)
    requires Wired(w.kernel) && Apply(env, w, c).Done?
    ensures Wired(Apply(env, w, c).world.kernel)
  {
    ApplyDone(env, w, c);
    var bridged, networks := BridgeEffect(w.kernel), Keyed(c);
    var names := ManagedIn(env.order(bridged.spaces.Keys - NetnsNames(networks)));
    BridgeKeepsWired(w.kernel);
    DropKeepsWired(bridged, names);
    EffectAllKeepsWired(env, DropAll(bridged, names), networks);
  }

  /*** Deletions and applications of different networks commute ***/

  lemma RemoveUpdate<V>(m: map<string, V>, names: set<string>, x: string, v: V)
    requires x !in names
    ensures (m - names)[x := v] == m[x := v] - names
  {
  }

  lemma CutUpdate(root: map<string, Link>, names: set<string>, l: string, v: Link)
    requires v.peer.Some? ==> v.peer.value !in names
    ensures Cut(root, names)[l := v] == Cut(root[l := v], names)
  {
  }

  lemma EffectDropCommute(env: Env, n: NetworkState, k: Kernel, names: set<string>)
    requires Wired(k) && NetnsName(n.listenPort) !in names
    ensures Effect(env, n, DropAll(k, names)) == DropAll(Effect(env, n, k), names)
  {
    var ns, veth := NetnsName(n.listenPort), VethName(n.listenPort);
    var dropped := DropAll(k, names);
    var outer := OuterTarget(OuterBefore(n, k));
    assert SpaceBefore(n, dropped) == SpaceBefore(n, k);
    assert OuterBefore(n, dropped) == OuterBefore(n, k) && outer.peer == Some(ns);
    RemoveUpdate(k.spaces, names, ns, SpaceEffect(env, n, SpaceBefore(n, k)));
    CutUpdate(k.root, names, veth, outer);
  }

  /*** A partial run as one deletion followed by one pass over the new networks ***/

  // The namespaces that the None entries remove.
  function Removed(partial: Partial, ports: seq<u16>, listed: set<string>): set<string>
    requires forall p | p in ports :: p in partial
  {
    set i | 0 <= i < |ports| && partial[ports[i]].None? && NetnsName(ports[i]) in listed :: NetnsName(ports[i])
  }

  // The networks that the Some entries carry.
  function Given(partial: Partial, ports: seq<u16>): seq<NetworkState>
    requires forall p | p in ports :: p in partial
    decreases |ports|
  {
    if ports == [] then []
    else
      assert ports[0] in ports;
      GivenBy(partial[ports[0]]) + Given(partial, ports[1..])
  }

  ghost predicate KeyedPartial(partial: Partial)
  {
    forall p | p in partial && partial[p].Some? :: partial[p].value.listenPort == p
  }

  ghost predicate Distinct(ports: seq<u16>) { forall i, j | 0 <= i < j < |ports| :: ports[i] != ports[j] }

  lemma RemovedFront(partial: Partial, ports: seq<u16>, listed: set<string>)
    requires ports != [] && (forall p | p in ports :: p in partial)
    ensures Removed(partial, ports, listed) == Removed(partial, ports[1..], listed)
      + RemovedBy(ports[0], partial[ports[0]], listed)
  {
    var rest := ports[1..];
    forall x | x in Removed(partial, ports, listed)
      ensures x in Removed(partial, rest, listed) || (x == NetnsName(ports[0]) && partial[ports[0]].None? && x in listed)
    {
      var i :| 0 <= i < |ports| && partial[ports[i]].None? && NetnsName(ports[i]) in listed && x == NetnsName(ports[i]);
      if i > 0 { assert rest[i - 1] == ports[i]; }
    }
    forall i | 0 <= i < |rest| && partial[rest[i]].None? && NetnsName(rest[i]) in listed
      ensures NetnsName(rest[i]) in Removed(partial, ports, listed)
    {
      assert ports[i + 1] == rest[i];
    }
  }

  lemma NotRemoved(partial: Partial, ports: seq<u16>, listed: set<string>, p: u16)
    requires forall q | q in ports :: q in partial
    requires p !in ports
    ensures NetnsName(p) !in Removed(partial, ports, listed)
  {
    forall i | 0 <= i < |ports| ensures NetnsName(ports[i]) != NetnsName(p) {
      assert ports[i] in ports;
      NamesDiffer(ports[i], p);
    }
  }

  // The names and networks of an entry, put in front of those of the entries after it.
  function RemovedBy(port: u16, entry: Option<NetworkState>, listed: set<string>): set<string>
  {
    if entry.None? && NetnsName(port) in listed then {NetnsName(port)} else {}
  }

  function GivenBy(entry: Option<NetworkState>): seq<NetworkState>
  {
    if entry.Some? then [entry.value] else []
  }

  lemma EntryDone(env: Env, w: World, stored: Networks, port: u16, entry: Option<NetworkState>, listed: set<string>,
                  removed: set<string>, given: seq<NetworkState>)
    requires Wired(w.kernel) && NetnsName(port) !in removed && (entry.Some? ==> entry.value.listenPort == port)
    requires ApplyEntry(env, w, stored, port, entry, listed).run.Done?
    ensures var k := ApplyEntry(env, w, stored, port, entry, listed).run.world.kernel;
      && Wired(k)
      && EffectAll(env, DropAll(k, removed), given)
           == EffectAll(env, DropAll(w.kernel, removed + RemovedBy(port, entry, listed)), GivenBy(entry) + given)
  {
    var k := w.kernel;
    match entry
    case Some(n) =>
      NetworkDone(env, w, n);
      EffectKeepsWired(env, n, k);
      EffectDropCommute(env, n, k, removed);
      assert removed + {} == removed && ([n] + given)[1..] == given;
    case None =>
      assert [] + given == given;
      if NetnsName(port) in listed {
        DropOne(k, NetnsName(port));
        DropKeepsWired(k, {NetnsName(port)});
        DropFirst(k, NetnsName(port), removed);
        assert {NetnsName(port)} + removed == removed + {NetnsName(port)};
      } else {
        assert removed + {} == removed;
      }
  }

  lemma {:induction false} EntriesDone(env: Env, w: World, stored: Networks, partial: Partial, ports: seq<u16>, listed: set<string>)
    requires forall p | p in ports :: p in partial
    requires Wired(w.kernel) && KeyedPartial(partial) && Distinct(ports)
    ensures var r := ApplyEntries(env, w, stored, partial, ports, listed);
      r.run.Done? ==>
        r.run.world.kernel == EffectAll(env, DropAll(w.kernel, Removed(partial, ports, listed)), Given(partial, ports))
    decreases |ports|
  {
    if ports == [] {
      assert Removed(partial, ports, listed) == {};
      DropNone(w.kernel);
    } else {
      var p, rest := ports[0], ports[1..];
      assert p in ports;
      var first := ApplyEntry(env, w, stored, p, partial[p], listed);
      if first.run.Done? {
        var k, next := w.kernel, first.run.world.kernel;
        var removed := Removed(partial, rest, listed);
        RemovedFront(partial, ports, listed);
        NotRemoved(partial, rest, listed, p);
        EntryDone(env, w, stored, p, partial[p], listed, removed, Given(partial, rest));
        EntriesDone(env, first.run.world, first.stored, partial, rest, listed);
      }
    }
  }

  lemma DropOne(k: Kernel, name: string)
    ensures DropSpace(k, name) == DropAll(k, {name})
  {
  }

  /*** The whole run skips the networks that are settled already ***/

  // These networks of a configuration, in the given order of their ports.
  function At(c: Networks, ports: seq<u16>): seq<NetworkState>
    requires forall p | p in ports :: p in c
  {
    seq(|ports|, i requires 0 <= i < |ports| => assert ports[i] in ports; c[ports[i]])
  }

  function Updated(partial: Partial, ports: seq<u16>): (r: seq<u16>)
    ensures forall p :: p in r <==> p in ports && p in partial && partial[p].Some?
    decreases |ports|
  {
    if ports == [] then []
    else (if ports[0] in partial && partial[ports[0]].Some? then [ports[0]] else []) + Updated(partial, ports[1..])
  }

  ghost predicate Rising(s: seq<u16>) { forall i, j | 0 <= i < j < |s| :: s[i] < s[j] }

  lemma {:induction false} UpdatedRising(partial: Partial, ports: seq<u16>)
    requires Rising(ports)
    ensures Rising(Updated(partial, ports))
    decreases |ports|
  {
    if ports != [] {
      UpdatedRising(partial, ports[1..]);
      var rest := Updated(partial, ports[1..]);
      forall i | 0 <= i < |rest| ensures ports[0] < rest[i] {
        assert rest[i] in rest;
        var j :| 0 <= j < |ports[1..]| && ports[1..][j] == rest[i];
        assert ports[j + 1] == rest[i];
      }
    }
  }

  lemma HasElement(s: seq<u16>)
    requires s != []
    ensures exists x :: x in s
  {
    assert s[0] in s;
  }

  // Rising sequences with the same elements are equal.
  lemma {:induction false} RisingUnique(a: seq<u16>, b: seq<u16>)
    requires Rising(a) && Rising(b) && forall x :: x in a <==> x in b
    ensures a == b
  {
    if a == [] {
      if b != [] { HasElement(b); }
    } else {
      assert a[0] in b && a != [];
      assert b != [];
      assert b[0] in a;
      assert a[0] == b[0];
      forall x
        ensures x in a[1..] <==> x in b[1..]
      {
        if x in a[1..] { assert x in a && x != a[0]; }
        if x in b[1..] { assert x in b && x != b[0]; }
      }
      RisingUnique(a[1..], b[1..]);
    }
  }

  // The networks that the partial update does not bring are in place.
  ghost predicate OthersSettled(env: Env, k: Kernel, c: Networks, partial: Partial, ports: seq<u16>)
  {
    forall p | p in ports && !(p in partial && partial[p].Some?) :: p in c && Settled(env, c[p], k)
  }

  lemma OthersStaySettled(env: Env, k: Kernel, c: Networks, partial: Partial, p: u16, rest: seq<u16>)
    requires p in c && p !in rest && forall q | q in [p] + rest :: q in c && c[q].listenPort == q
    requires OthersSettled(env, k, c, partial, rest)
    ensures OthersSettled(env, Effect(env, c[p], k), c, partial, rest)
  {
    assert p in [p] + rest;
    forall q | q in rest && !(q in partial && partial[q].Some?)
      ensures Settled(env, c[q], Effect(env, c[p], k))
    {
      assert q in [p] + rest;
      EffectKeepsOthers(env, c[p], c[q], k);
    }
  }

  function EffectPorts(env: Env, k: Kernel, c: Networks, ports: seq<u16>): Kernel
    requires forall p | p in ports :: p in c
    decreases |ports|
  {
    if ports == [] then k
    else
      assert ports[0] in ports;
      EffectPorts(env, Effect(env, c[ports[0]], k), c, ports[1..])
  }

  lemma {:induction false} EffectPortsIsAll(env: Env, k: Kernel, c: Networks, ports: seq<u16>)
    requires forall p | p in ports :: p in c
    ensures EffectPorts(env, k, c, ports) == EffectAll(env, k, At(c, ports))
    decreases |ports|
  {
    if ports != [] {
      assert ports[0] in ports;
      assert At(c, ports)[1..] == At(c, ports[1..]);
      EffectPortsIsAll(env, Effect(env, c[ports[0]], k), c, ports[1..]);
    }
  }

  lemma EffectPortsFront(env: Env, k: Kernel, c: Networks, p: u16, rest: seq<u16>)
    requires p in c && forall q | q in rest :: q in c
    ensures forall q | q in [p] + rest :: q in c
    ensures EffectPorts(env, k, c, [p] + rest) == EffectPorts(env, Effect(env, c[p], k), c, rest)
  {
    assert ([p] + rest)[1..] == rest;
  }

  lemma UpdatedFront(partial: Partial, p: u16, rest: seq<u16>)
    ensures Updated(partial, [p] + rest)
      == if p in partial && partial[p].Some? then [p] + Updated(partial, rest) else Updated(partial, rest)
  {
    assert ([p] + rest)[1..] == rest;
  }

  predicate Brought(partial: Partial, p: u16) { p in partial && partial[p].Some? }

  // One port in front of ports for which skipping makes no difference.
  lemma SkipJoin(env: Env, k: Kernel, next: Kernel, c: Networks, partial: Partial, p: u16, rest: seq<u16>)
    requires p in c && forall q | q in rest :: q in c
    requires next == Effect(env, c[p], k) && (!Brought(partial, p) ==> next == k)
    requires EffectPorts(env, next, c, rest) == EffectPorts(env, next, c, Updated(partial, rest))
    ensures forall q | q in [p] + rest :: q in c
    ensures EffectPorts(env, k, c, [p] + rest) == EffectPorts(env, k, c, Updated(partial, [p] + rest))
  {
    EffectPortsFront(env, k, c, p, rest);
    UpdatedFront(partial, p, rest);
    if Brought(partial, p) { EffectPortsFront(env, k, c, p, Updated(partial, rest)); }
  }

  lemma {:induction false} SkipSettled(env: Env, k: Kernel, c: Networks, partial: Partial, ports: seq<u16>)
    requires forall p | p in ports :: p in c && c[p].listenPort == p
    requires Distinct(ports) && OthersSettled(env, k, c, partial, ports)
    ensures EffectPorts(env, k, c, ports) == EffectPorts(env, k, c, Updated(partial, ports))
    decreases |ports|
  {
    if ports == [] {
      assert Updated(partial, ports) == [];
    } else {
      var p, rest := ports[0], ports[1..];
      assert ports == [p] + rest && p in ports;
      var next := Effect(env, c[p], k);
      SkipFirst(env, k, c, partial, p, rest);
      SkipSettled(env, next, c, partial, rest);
      SkipJoin(env, k, next, c, partial, p, rest);
    }
  }

  // A network that the update does not bring has no effect, and one that it brings leaves the others in place.
  lemma SkipFirst(env: Env, k: Kernel, c: Networks, partial: Partial, p: u16, rest: seq<u16>)
    requires p in c && p !in rest && forall q | q in [p] + rest :: q in c && c[q].listenPort == q
    requires OthersSettled(env, k, c, partial, [p] + rest)
    ensures if p in partial && partial[p].Some?
      then OthersSettled(env, Effect(env, c[p], k), c, partial, rest)
      else Effect(env, c[p], k) == k && OthersSettled(env, k, c, partial, rest)
  {
    assert p in [p] + rest && forall q | q in rest :: q in [p] + rest;
    if p in partial && partial[p].Some? {
      OthersStaySettled(env, k, c, partial, p, rest);
    } else {
      SettledFixed(env, c[p], k);
    }
  }

  lemma GivenFront(partial: Partial, p: u16, rest: seq<u16>)
    requires p in partial && forall q | q in rest :: q in partial
    ensures forall q | q in [p] + rest :: q in partial
    ensures Given(partial, [p] + rest) == GivenBy(partial[p]) + Given(partial, rest)
  {
    assert ([p] + rest)[1..] == rest;
  }

  lemma AtFront(c: Networks, p: u16, rest: seq<u16>)
    requires p in c && forall q | q in rest :: q in c
    ensures forall q | q in [p] + rest :: q in c
    ensures At(c, [p] + rest) == [c[p]] + At(c, rest)
  {
  }

  lemma {:induction false} GivenIsUpdated(c: Networks, partial: Partial, ports: seq<u16>)
    requires forall p | p in ports :: p in partial
    requires forall p | p in partial && partial[p].Some? :: p in c && c[p] == partial[p].value
    ensures Given(partial, ports) == At(c, Updated(partial, ports))
    decreases |ports|
  {
    if ports == [] {
      assert Given(partial, ports) == [] && At(c, Updated(partial, ports)) == [];
    } else {
      var p, rest := ports[0], ports[1..];
      assert ports == [p] + rest && p in ports;
      GivenIsUpdated(c, partial, rest);
      GivenFront(partial, p, rest);
      UpdatedFront(partial, p, rest);
      if partial[p].Some? {
        AtFront(c, p, Updated(partial, rest));
      } else {
        assert [] + Given(partial, rest) == Given(partial, rest);
      }
    }
  }

  /*** The theorem ***/

  ghost predicate KeyedConfig(c: Networks) { forall p | p in c :: c[p].listenPort == p }

  lemma KeyedIsStored(c: Networks)
    requires KeyedConfig(c)
    ensures Keyed(c) == Stored(c) == At(c, AscendingPorts(c.Keys))
  {
  }

  lemma NamesOf(c: Networks)
    requires KeyedConfig(c)
    ensures NetnsNames(Keyed(c)) == set p | p in c :: NetnsName(p)
  {
    var ports := AscendingPorts(c.Keys);
    forall p | p in c ensures NetnsName(p) in NetnsNames(Keyed(c)) {
      assert p in ports;
      var i :| 0 <= i < |ports| && ports[i] == p;
      assert Keyed(c)[i].listenPort == p;
    }
    forall x | x in NetnsNames(Keyed(c)) ensures x in set p | p in c :: NetnsName(p) {
      var i :| 0 <= i < |Keyed(c)| && x == NetnsName(Keyed(c)[i].listenPort);
      assert ports[i] in c;
    }
  }

  lemma ManagedListed(env: Env, s: set<string>)
    requires ListsSets(env)
    ensures ManagedIn(env.order(s)) == set x | x in s && Managed(x)
  {
  }

  // Both runs remove the same namespaces.
  lemma SameRemoved(env: Env, k: Kernel, c: Networks, partial: Partial)
    requires Converged(env, c, k) && KeyedConfig(c) && KeyedPartial(partial) && ListsSets(env)
    ensures ManagedIn(env.order(k.spaces.Keys - NetnsNames(Keyed(Override(c, partial)))))
         == Removed(partial, AscendingPorts(partial.Keys), k.spaces.Keys)
  {
    var wanted := NetnsNames(Keyed(Override(c, partial)));
    ManagedListed(env, k.spaces.Keys - wanted);
    NamesOf(Override(c, partial));
    ManagedAreNamed(env, k, c);
    SameRemovedSets(c, partial, k.spaces.Keys, wanted);
  }

  lemma ManagedAreNamed(env: Env, k: Kernel, c: Networks)
    requires Converged(env, c, k) && KeyedConfig(c)
    ensures forall x | x in k.spaces.Keys && Managed(x) :: x in set p | p in c :: NetnsName(p)
  {
    NamesOf(c);
  }

  lemma SameRemovedSets(c: Networks, partial: Partial, listed: set<string>, wanted: set<string>)
    requires wanted == set p | p in Override(c, partial) :: NetnsName(p)
    requires forall x | x in listed && Managed(x) :: x in set p | p in c :: NetnsName(p)
    ensures (set x | x in listed - wanted && Managed(x)) == Removed(partial, AscendingPorts(partial.Keys), listed)
  {
    SurplusIsRemoved(c, partial, listed, wanted);
    RemovedIsSurplus(c, partial, listed, wanted);
  }

  lemma SurplusIsRemoved(c: Networks, partial: Partial, listed: set<string>, wanted: set<string>)
    requires wanted == set p | p in Override(c, partial) :: NetnsName(p)
    ensures forall p | p in c && NetnsName(p) in listed - wanted :: NetnsName(p) in Removed(partial, AscendingPorts(partial.Keys), listed)
  {
    var ports := AscendingPorts(partial.Keys);
    forall p | p in c && NetnsName(p) in listed - wanted
      ensures NetnsName(p) in Removed(partial, ports, listed)
    {
      assert p !in Override(c, partial);
      assert p in ports;
      var i :| 0 <= i < |ports| && ports[i] == p;
    }
  }

  lemma RemovedIsSurplus(c: Networks, partial: Partial, listed: set<string>, wanted: set<string>)
    requires wanted == set p | p in Override(c, partial) :: NetnsName(p)
    ensures forall x | x in Removed(partial, AscendingPorts(partial.Keys), listed) :: Managed(x) && x in listed - wanted
  {
    var ports := AscendingPorts(partial.Keys);
    forall i | 0 <= i < |ports| && partial[ports[i]].None?
      ensures NetnsName(ports[i]) !in wanted
    {
      assert ports[i] in ports && ports[i] !in Override(c, partial);
      forall p | p in Override(c, partial) ensures NetnsName(p) != NetnsName(ports[i]) { NamesDiffer(p, ports[i]); }
    }
  }

  lemma DropKeepsSettled(env: Env, n: NetworkState, k: Kernel, names: set<string>)
    requires Wired(k) && Settled(env, n, k) && NetnsName(n.listenPort) !in names
    ensures Settled(env, n, DropAll(k, names))
  {
  }

  // After the removals the networks that the partial update does not bring are still in place.
  lemma OthersInPlace(env: Env, k: Kernel, c: Networks, partial: Partial, names: set<string>)
    requires Converged(env, c, k) && Wired(k) && KeyedConfig(c)
    requires names == Removed(partial, AscendingPorts(partial.Keys), k.spaces.Keys)
    ensures OthersSettled(env, DropAll(k, names), Override(c, partial), partial, AscendingPorts(Override(c, partial).Keys))
  {
    var next, ports := Override(c, partial), AscendingPorts(partial.Keys);
    var all, order := AscendingPorts(next.Keys), AscendingPorts(c.Keys);
    forall p | p in all && !(p in partial && partial[p].Some?)
      ensures Settled(env, next[p], DropAll(k, names))
    {
      assert p in next && p in c && p !in ports;
      assert p in order;
      var i :| 0 <= i < |order| && order[i] == p;
      assert Keyed(c)[i] == c[p];
      NotRemoved(partial, ports, k.spaces.Keys, p);
      DropKeepsSettled(env, c[p], k, names);
    }
  }

  lemma SameUpdates(partial: Partial, all: seq<u16>, ports: seq<u16>)
    requires Rising(all) && Rising(ports)
    requires forall p | p in partial && partial[p].Some? :: p in all && p in ports
    ensures Updated(partial, all) == Updated(partial, ports)
  {
    UpdatedRising(partial, all);
    UpdatedRising(partial, ports);
    RisingUnique(Updated(partial, all), Updated(partial, ports));
  }

  // The two passes over networks agree.
  lemma SameEffects(env: Env, k: Kernel, c: Networks, partial: Partial, names: set<string>)
    requires Converged(env, c, k) && Wired(k) && KeyedConfig(c) && KeyedPartial(partial)
    requires names == Removed(partial, AscendingPorts(partial.Keys), k.spaces.Keys)
    ensures EffectAll(env, DropAll(k, names), Keyed(Override(c, partial)))
         == EffectAll(env, DropAll(k, names), Given(partial, AscendingPorts(partial.Keys)))
  {
    var next, ports := Override(c, partial), AscendingPorts(partial.Keys);
    KeyedIsStored(next);
    OthersInPlace(env, k, c, partial, names);
    SamePasses(env, DropAll(k, names), next, partial, AscendingPorts(next.Keys), ports);
  }

  lemma SamePasses(env: Env, k: Kernel, next: Networks, partial: Partial, all: seq<u16>, ports: seq<u16>)
    requires (forall p :: p in all <==> p in next) && (forall p :: p in ports <==> p in partial) && Rising(all) && Rising(ports)
    requires KeyedConfig(next) && OthersSettled(env, k, next, partial, all)
    requires forall p | p in partial && partial[p].Some? :: p in next && next[p] == partial[p].value
    ensures EffectAll(env, k, At(next, all)) == EffectAll(env, k, Given(partial, ports))
  {
    SkipSettled(env, k, next, partial, all);
    EffectPortsIsAll(env, k, next, all);
    EffectPortsIsAll(env, k, next, Updated(partial, all));
    SameUpdates(partial, all, ports);
    GivenIsUpdated(next, partial, ports);
  }

  lemma {:induction false} EntriesStored(env: Env, w: World, stored: Networks, partial: Partial, ports: seq<u16>, listed: set<string>)
    requires forall p | p in ports :: p in partial
    ensures var r := ApplyEntries(env, w, stored, partial, ports, listed);
      r.run.Done? ==> r.stored == EnterAll(stored, partial, ports)
    decreases |ports|
  {
    if ports != [] {
      assert ports[0] in ports;
      var first := ApplyEntry(env, w, stored, ports[0], partial[ports[0]], listed);
      if first.run.Done? {
        EntriesStored(env, first.run.world, first.stored, partial, ports[1..], listed);
      }
    }
  }

  // The removals of a partial update, then its networks.
  function Merged(env: Env, k: Kernel, partial: Partial): Kernel
  {
    var ports := AscendingPorts(partial.Keys);
    EffectAll(env, DropAll(k, Removed(partial, ports, k.spaces.Keys)), Given(partial, ports))
  }

  // The kernel that both runs end in.
  function MergedKernel(env: Env, k: Kernel, c: Networks, partial: Partial): Kernel
  {
    Merged(env, k, partial).(nginx := NginxOf(TablesOf(Stored(Override(c, partial)), env.custom)))
  }

  lemma PartialDone(env: Env, w: World, c: Networks, partial: Partial)
    requires Converged(env, c, w.kernel) && Wired(w.kernel) && KeyedPartial(partial)
    requires ApplyPartial(env, w, c, partial).run.Done?
    ensures ApplyPartial(env, w, c, partial).stored == Override(c, partial)
    ensures ApplyPartial(env, w, c, partial).run.world.kernel == MergedKernel(env, w.kernel, c, partial)
  {
    var ports := AscendingPorts(partial.Keys);
    BridgeQuiet(env, w);
    var list := NetnsList(env, ApplyBridge(env, w).world);
    EntriesDone(env, list.world, c, partial, ports, list.value);
    EntriesStored(env, list.world, c, partial, ports, list.value);
    AnyOrderOverrides(c, partial, ports);
    var entries := ApplyEntries(env, list.world, c, partial, ports, list.value);
    NginxDone(env, entries.run.world, Stored(entries.stored));
  }

  lemma BridgeFixed(k: Kernel)
    requires BridgeSettled(k)
    ensures BridgeEffect(k) == k
  {
    assert BridgeTarget(k.root[BRIDGE]) == k.root[BRIDGE] by {
      assert k.root[BRIDGE].addrs + {BRIDGE_NET} == k.root[BRIDGE].addrs;
    }
  }

  /** A successful partial update leaves a system that carries the merged configuration. */
  lemma PartialConverges(env: Env, w: World, c: Networks, partial: Partial)
    requires FaithfulDump(env) && ListsSets(env)
    requires Converged(env, c, w.kernel) && Wired(w.kernel) && BridgeFree(w.kernel) && KeyedConfig(c) && KeyedPartial(partial)
    requires ApplyPartial(env, w, c, partial).run.Done?
    ensures Converged(env, Override(c, partial), ApplyPartial(env, w, c, partial).run.world.kernel)
    ensures ApplyPartial(env, w, c, partial).stored == Override(c, partial)
  {
    PartialDone(env, w, c, partial);
    AppliedIsMerged(env, w.kernel, c, partial);
    AppliedConverges(env, w.kernel, Override(c, partial));
  }

  /** A lone entry's network is applied on the port it says it listens on, which need not be its key: it is settled
      there, stored under its key, and nginx serves the stored networks as they are. */
  lemma EntryAsGiven(env: Env, w: World, stored: Networks, partial: Partial, port: u16, n: NetworkState)
    requires FaithfulDump(env) && partial.Keys == {port} && partial[port] == Some(n)
    requires ApplyPartial(env, w, stored, partial).run.Done?
    ensures var after := ApplyPartial(env, w, stored, partial);
      && after.stored == stored[port := n] && Settled(env, n, after.run.world.kernel)
      && after.run.world.kernel.nginx == NginxOf(TablesOf(Stored(stored[port := n]), env.custom))
  {
    OneAscending(port);
    var from, listed := PartialSteps(env, w, stored, partial, [port]);
    OnlyEntry(env, from, stored, partial, port, n, listed);
  }

  lemma OneAscending(port: u16)
    ensures AscendingPorts({port}) == [port]
  {
    var r := AscendingPorts({port});
    assert port in r && (|r| > 1 ==> r[0] < r[1]);
    forall i | 0 <= i < |r| ensures r[i] == port { assert r[i] in r; }
  }

  // A successful partial update is its entries, handled from some state, and nginx.
  lemma PartialSteps(env: Env, w: World, stored: Networks, partial: Partial, ports: seq<u16>) returns (from: World, listed: set<string>)
    requires ports == AscendingPorts(partial.Keys) && ApplyPartial(env, w, stored, partial).run.Done?
    ensures forall p | p in ports :: p in partial
    ensures var entries, after := ApplyEntries(env, from, stored, partial, ports, listed), ApplyPartial(env, w, stored, partial);
      && entries.run.Done? && after.stored == entries.stored
      && after.run.world.kernel == entries.run.world.kernel.(nginx := NginxOf(TablesOf(Stored(entries.stored), env.custom)))
  {
    var list := NetnsList(env, ApplyBridge(env, w).world);
    from, listed := list.world, list.value;
    var entries := ApplyEntries(env, from, stored, partial, ports, listed);
    NginxDone(env, entries.run.world, Stored(entries.stored));
  }

  lemma OnlyEntry(env: Env, from: World, stored: Networks, partial: Partial, port: u16, n: NetworkState, listed: set<string>)
    requires FaithfulDump(env) && port in partial && partial[port] == Some(n)
    requires ApplyEntries(env, from, stored, partial, [port], listed).run.Done?
    ensures var entries := ApplyEntries(env, from, stored, partial, [port], listed);
      && entries.stored == stored[port := n]
      && forall nginx :: Settled(env, n, entries.run.world.kernel.(nginx := nginx))
  {
    assert [port][1..] == [];
    NetworkDone(env, from, n);
    EffectSettles(env, n, from.kernel);
  }

  /** From a kernel that carries c, a successful partial update leaves the same kernel, nginx tables and stored
      configuration as a successful whole update to c with the partial one merged in, whatever calls fail or
      succeed and however hash sets are iterated in the two runs. */
  lemma IncrementalEqualsFull(env: Env, env': Env, w: World, w': World, c: Networks, partial: Partial)
    requires env' == env.(fault := env'.fault, order := env'.order) && ListsSets(env')
    requires w'.kernel == w.kernel && Converged(env, c, w.kernel) && Wired(w.kernel)
    requires KeyedConfig(c) && KeyedPartial(partial)
    requires ApplyPartial(env, w, c, partial).run.Done?
    requires Apply(env', w', Override(c, partial)).Done?
    ensures ApplyPartial(env, w, c, partial).run.world.kernel == Apply(env', w', Override(c, partial)).world.kernel
    ensures ApplyPartial(env, w, c, partial).stored == Override(c, partial)
  {
    PartialDone(env, w, c, partial);
    SameConverged(env, env', c, w.kernel);
    FullDone(env', w', c, partial);
    SameMerged(env, env', w.kernel, c, partial);
  }

  lemma FullDone(env: Env, w: World, c: Networks, partial: Partial)
    requires ListsSets(env) && Converged(env, c, w.kernel) && Wired(w.kernel)
    requires KeyedConfig(c) && KeyedPartial(partial)
    requires Apply(env, w, Override(c, partial)).Done?
    ensures Apply(env, w, Override(c, partial)).world.kernel == MergedKernel(env, w.kernel, c, partial)
  {
    ApplyDone(env, w, Override(c, partial));
    AppliedIsMerged(env, w.kernel, c, partial);
  }

  lemma TwoPasses(env: Env, k: Kernel, c: Networks, partial: Partial)
    requires ListsSets(env) && Converged(env, c, k) && Wired(k) && KeyedConfig(c) && KeyedPartial(partial)
    ensures EffectAll(env, Cleared(env, k, Keyed(Override(c, partial))), Keyed(Override(c, partial)))
         == Merged(env, k, partial)
  {
    SameRemoved(env, k, c, partial);
    SameEffects(env, k, c, partial, Removed(partial, AscendingPorts(partial.Keys), k.spaces.Keys));
  }

  lemma AppliedIsMerged(env: Env, k: Kernel, c: Networks, partial: Partial)
    requires ListsSets(env) && Converged(env, c, k) && Wired(k) && KeyedConfig(c) && KeyedPartial(partial)
    ensures AppliedKernel(env, k, Override(c, partial)) == MergedKernel(env, k, c, partial)
  {
    var networks := Keyed(Override(c, partial));
    assert networks == Stored(Override(c, partial)) by { KeyedIsStored(Override(c, partial)); }
    assert EffectAll(env, Cleared(env, BridgeEffect(k), networks), networks) == Merged(env, k, partial) by {
      BridgeFixed(k);
      TwoPasses(env, k, c, partial);
    }
  }

  lemma SameMerged(env: Env, env': Env, k: Kernel, c: Networks, partial: Partial)
    requires env' == env.(fault := env'.fault, order := env'.order)
    ensures MergedKernel(env', k, c, partial) == MergedKernel(env, k, c, partial)
  {
    var ports := AscendingPorts(partial.Keys);
    SameEffectAll(env, env', DropAll(k, Removed(partial, ports, k.spaces.Keys)), Given(partial, ports));
  }

  lemma SameConverged(env: Env, env': Env, c: Networks, k: Kernel)
    requires env' == env.(fault := env'.fault, order := env'.order) && Converged(env, c, k)
    ensures Converged(env', c, k)
  {
    forall i | 0 <= i < |Keyed(c)| ensures Settled(env', Keyed(c)[i], k) {
      assert Settled(env, Keyed(c)[i], k);
    }
  }

  lemma {:induction false} SameEffectAll(env: Env, env': Env, k: Kernel, networks: seq<NetworkState>)
    requires env' == env.(fault := env'.fault, order := env'.order)
    ensures EffectAll(env', k, networks) == EffectAll(env, k, networks)
    decreases |networks|
  {
    if networks != [] {
      SameEffectAll(env, env', Effect(env, networks[0], k), networks[1..]);
    }
  }

  /** The hypotheses hold after any successful whole update: the state a partial update usually starts from. */
  lemma IncrementalAfterApply(env: Env, w: World, c: Networks)
    requires FaithfulDump(env) && ListsSets(env) && BridgeFree(w.kernel) && Wired(w.kernel)
    requires Apply(env, w, c).Done?
    ensures Converged(env, c, Apply(env, w, c).world.kernel) && Wired(Apply(env, w, c).world.kernel)
  {
    ApplyConverges(env, w, c);
    ApplyKeepsWired(env, w, c);
  }
}
