/** Whole runs of the reconciler: convergence from any state, idempotence, and incremental equals full. */
module Convergence {
  import opened Basics
  import opened Config
  import opened Addressing
  import opened Forwarding
  import opened Kernel
  import opened Reconciler
  import opened Effects
  import opened NetworkEffect
  import opened Invariants

  /*** Deleting namespaces ***/

  function ManagedIn(names: seq<string>): set<string> { set x | x in names && Managed(x) }

  function DropAll(k: Kernel, names: set<string>): Kernel
  {
    k.(spaces := k.spaces - names, root := Cut(k.root, names))
  }

  // The links whose other end is in none of these namespaces.
  function Cut(root: map<string, Link>, names: set<string>): map<string, Link>
  {
    map l | l in root && (root[l].peer.Some? ==> root[l].peer.value !in names) :: root[l]
  }

  lemma DropFirst(k: Kernel, name: string, names: set<string>)
    ensures DropAll(DropSpace(k, name), names) == DropAll(k, {name} + names)
  {
    assert k.spaces - {name} - names == k.spaces - ({name} + names);
  }

  lemma DropNone(k: Kernel)
    ensures DropAll(k, {}) == k
  {
    assert k.spaces - {} == k.spaces;
  }

  lemma {:induction false} DeleteAllDone(env: Env, w: World, names: seq<string>)
    ensures DeleteAll(env, w, names).Done? ==> DeleteAll(env, w, names).world.kernel == DropAll(w.kernel, ManagedIn(names))
    decreases |names|
  {
    if names == [] {
      assert ManagedIn(names) == {};
      DropNone(w.kernel);
    } else {
      var rest := names[1..];
      assert names == [names[0]] + rest;
      if Managed(names[0]) {
        assert ManagedIn(names) == {names[0]} + ManagedIn(rest);
        var first := NetnsDel(env, w, names[0]);
        if first.Done? {
          DeleteAllDone(env, first.world, rest);
          DropFirst(w.kernel, names[0], ManagedIn(rest));
        }
      } else {
        assert ManagedIn(names) == ManagedIn(rest);
        DeleteAllDone(env, w, rest);
      }
    }
  }

  lemma {:induction false} DeleteNoneQuiet(env: Env, w: World, names: seq<string>)
    requires ManagedIn(names) == {}
    ensures DeleteAll(env, w, names) == Done(w, ())
    decreases |names|
  {
    if names != [] {
      assert names[0] !in ManagedIn(names);
      assert ManagedIn(names[1..]) <= ManagedIn(names);
      DeleteNoneQuiet(env, w, names[1..]);
    }
  }

  /*** Applying networks ***/

  function EffectAll(env: Env, k: Kernel, networks: seq<NetworkState>): Kernel
    decreases |networks|
  {
    if networks == [] then k else EffectAll(env, Effect(env, networks[0], k), networks[1..])
  }

  lemma {:induction false} ApplyNetworksDone(env: Env, w: World, networks: seq<NetworkState>)
    ensures ApplyNetworks(env, w, networks).Done? ==>
      ApplyNetworks(env, w, networks).world.kernel == EffectAll(env, w.kernel, networks)
    decreases |networks|
  {
    if networks != [] {
      NetworkDone(env, w, networks[0]);
      var first := ApplyNetwork(env, w, networks[0]);
      if first.Done? {
        ApplyNetworksDone(env, first.world, networks[1..]);
      }
    }
  }

  ghost predicate AllSettled(env: Env, networks: seq<NetworkState>, k: Kernel)
  {
    forall i | 0 <= i < |networks| :: Settled(env, networks[i], k)
  }

  lemma {:induction false} NetworksQuiet(env: Env, w: World, networks: seq<NetworkState>)
    requires AllSettled(env, networks, w.kernel)
    ensures Quiet(w, ApplyNetworks(env, w, networks).world)
    decreases |networks|
  {
    if networks != [] {
      NetworkQuiet(env, w, networks[0]);
      var first := ApplyNetwork(env, w, networks[0]);
      if first.Done? {
        NetworksQuiet(env, first.world, networks[1..]);
      }
    }
  }

  lemma {:induction false} EffectAllKeeps(env: Env, k: Kernel, networks: seq<NetworkState>, m: NetworkState)
    requires Settled(env, m, k)
    requires forall i | 0 <= i < |networks| :: networks[i].listenPort != m.listenPort
    ensures Settled(env, m, EffectAll(env, k, networks))
    decreases |networks|
  {
    if networks != [] {
      var next, rest := Effect(env, networks[0], k), networks[1..];
      assert Settled(env, m, next) by { EffectKeepsOthers(env, networks[0], m, k); }
      EffectAllKeeps(env, next, rest, m);
    }
  }

  lemma {:induction false} EffectAllSettles(env: Env, k: Kernel, networks: seq<NetworkState>)
    requires FaithfulDump(env) && DistinctPorts(networks)
    ensures AllSettled(env, networks, EffectAll(env, k, networks))
    decreases |networks|
  {
    if networks != [] {
      var next, rest := Effect(env, networks[0], k), networks[1..];
      assert Settled(env, networks[0], EffectAll(env, k, networks)) by {
        EffectSettles(env, networks[0], k);
        EffectAllKeeps(env, next, rest, networks[0]);
      }
      EffectAllSettles(env, next, rest);
      forall i | 0 <= i < |networks|
        ensures Settled(env, networks[i], EffectAll(env, k, networks))
      {
        if i > 0 { assert networks[i] == rest[i - 1]; }
      }
    }
  }

  function VethNames(networks: seq<NetworkState>): set<string>
  {
    set i | 0 <= i < |networks| :: VethName(networks[i].listenPort)
  }

  lemma NamesFront(networks: seq<NetworkState>)
    requires networks != []
    ensures NetnsNames(networks) == {NetnsName(networks[0].listenPort)} + NetnsNames(networks[1..])
    ensures VethNames(networks) == {VethName(networks[0].listenPort)} + VethNames(networks[1..])
  {
    var rest := networks[1..];
    forall x | x in NetnsNames(networks) ensures x in {NetnsName(networks[0].listenPort)} + NetnsNames(rest) {
      var i :| 0 <= i < |networks| && x == NetnsName(networks[i].listenPort);
      if i > 0 { assert networks[i] == rest[i - 1]; }
    }
    forall x | x in VethNames(networks) ensures x in {VethName(networks[0].listenPort)} + VethNames(rest) {
      var i :| 0 <= i < |networks| && x == VethName(networks[i].listenPort);
      if i > 0 { assert networks[i] == rest[i - 1]; }
    }
    forall i | 0 <= i < |rest| ensures NetnsName(rest[i].listenPort) in NetnsNames(networks) && VethName(rest[i].listenPort) in VethNames(networks) {
      assert networks[i + 1] == rest[i];
    }
  }

  // The map has gained these names at most, and differs at them only.
  ghost predicate OnlyAt<V>(m: map<string, V>, after: map<string, V>, names: set<string>)
  {
    after.Keys == m.Keys + names && forall x | x in m && x !in names :: after[x] == m[x]
  }

  lemma OnlyAtTwice<V>(m: map<string, V>, mid: map<string, V>, after: map<string, V>, a: set<string>, b: set<string>)
    requires OnlyAt(m, mid, a) && OnlyAt(mid, after, b)
    ensures OnlyAt(m, after, a + b)
  {
  }

  // Only the namespaces and outer veth ends of these networks differ, and all of them exist.
  ghost predicate OnlyThese(k: Kernel, after: Kernel, networks: seq<NetworkState>)
  {
    && OnlyAt(k.spaces, after.spaces, NetnsNames(networks))
    && OnlyAt(k.root, after.root, VethNames(networks))
    && after.nginx == k.nginx
  }

  lemma EffectOnlyThis(env: Env, n: NetworkState, k: Kernel)
    ensures OnlyAt(k.spaces, Effect(env, n, k).spaces, {NetnsName(n.listenPort)})
    ensures OnlyAt(k.root, Effect(env, n, k).root, {VethName(n.listenPort)})
  {
  }

  lemma {:induction false} EffectAllOnlyThese(env: Env, k: Kernel, networks: seq<NetworkState>)
    ensures OnlyThese(k, EffectAll(env, k, networks), networks)
    decreases |networks|
  {
    if networks != [] {
      var n, rest := networks[0], networks[1..];
      var next := Effect(env, n, k);
      var after := EffectAll(env, next, rest);
      EffectAllOnlyThese(env, next, rest);
      EffectOnlyThis(env, n, k);
      NamesFront(networks);
      OnlyAtTwice(k.spaces, next.spaces, after.spaces, {NetnsName(n.listenPort)}, NetnsNames(rest));
      OnlyAtTwice(k.root, next.root, after.root, {VethName(n.listenPort)}, VethNames(rest));
    }
  }

  /*** Convergence ***/

  function NginxOf(t: Tables): Nginx { Nginx(Some(t.https), Some(t.http), Some((t.https, t.http))) }

  lemma NginxDone(env: Env, w: World, networks: seq<NetworkState>)
    ensures ApplyNginx(env, w, networks).Done? ==>
      ApplyNginx(env, w, networks).world.kernel == w.kernel.(nginx := NginxOf(TablesOf(networks, env.custom)))
  {
  }

  // The iteration over a hash set lists its elements.
  ghost predicate ListsSets(env: Env) { forall s, x :: x in env.order(s) <==> x in s }

  /** The kernel carries this configuration: exactly its namespaces among the managed ones, each with its
      settings, the bridge up with its address, and nginx serving its tables. */
  ghost predicate Converged(env: Env, c: Networks, k: Kernel)
  {
    Carried(env, Keyed(c), k) && k.nginx == NginxOf(TablesOf(Keyed(c), env.custom))
  }

  ghost predicate Carried(env: Env, networks: seq<NetworkState>, k: Kernel)
  {
    && (forall ns: string | "network-" <= ns :: ns in k.spaces <==> ns in NetnsNames(networks))
    && AllSettled(env, networks, k) && BridgeSettled(k)
  }

  lemma KeyedDistinct(c: Networks)
    ensures DistinctPorts(Keyed(c))
  {
  }

  // The kernel with the managed namespaces removed that these networks do not need.
  function Cleared(env: Env, k: Kernel, networks: seq<NetworkState>): Kernel
  {
    DropAll(k, ManagedIn(env.order(k.spaces.Keys - NetnsNames(networks))))
  }

  // The kernel after a successful run.
  function AppliedKernel(env: Env, k: Kernel, c: Networks): Kernel
  {
    var networks := Keyed(c);
    EffectAll(env, Cleared(env, BridgeEffect(k), networks), networks).(nginx := NginxOf(TablesOf(networks, env.custom)))
  }

  lemma ApplyDone(env: Env, w: World, c: Networks)
    ensures Apply(env, w, c).Done? ==> Apply(env, w, c).world.kernel == AppliedKernel(env, w.kernel, c)
  {
    var networks := Keyed(c);
    BridgeDone(env, w);
    var bridge := ApplyBridge(env, w);
    if bridge.Done? {
      var list := NetnsList(env, bridge.world);
      if list.Done? {
        var names := env.order(list.value - NetnsNames(networks));
        DeleteAllDone(env, list.world, names);
        var cleared := DeleteAll(env, list.world, names);
        if cleared.Done? {
          ApplyNetworksDone(env, cleared.world, networks);
          var applied := ApplyNetworks(env, cleared.world, networks);
          if applied.Done? {
            NginxDone(env, applied.world, networks);
          }
        }
      }
    }
  }

  // A managed namespace that these networks do not need, which a run deletes.
  predicate Surplus(k: Kernel, networks: seq<NetworkState>, ns: string)
  {
    ns in k.spaces && Managed(ns) && ns !in NetnsNames(networks)
  }

  // The bridge is not the end of a veth pair into a namespace that a run deletes.
  predicate BridgeSurvives(k: Kernel, networks: seq<NetworkState>)
  {
    BRIDGE in k.root && k.root[BRIDGE].peer.Some? ==> !Surplus(k, networks, k.root[BRIDGE].peer.value)
  }

  lemma BridgeStays(k: Kernel, names: set<string>, after: Kernel, networks: seq<NetworkState>)
    requires forall ns :: ns in names <==> Surplus(k, networks, ns)
    requires OnlyThese(DropAll(BridgeEffect(k), names), after, networks)
    ensures BridgeSettled(after) <==> BridgeSurvives(k, networks)
  {
    if BRIDGE in VethNames(networks) {
      var i :| 0 <= i < |networks| && BRIDGE == VethName(networks[i].listenPort);
      LinkNamesDiffer(networks[i].listenPort);
    }
  }

  lemma NamesAreManaged(networks: seq<NetworkState>)
    ensures forall ns | ns in NetnsNames(networks) :: Managed(ns)
  {
  }

  // Clearing the surplus and creating the rest leaves exactly the wanted namespaces among the managed ones.
  lemma SpacesAfter(spaces: map<string, Space>, names: seq<string>, after: map<string, Space>, networks: seq<NetworkState>)
    requires forall x :: x in names <==> x in spaces.Keys - NetnsNames(networks)
    requires OnlyAt(spaces - ManagedIn(names), after, NetnsNames(networks))
    ensures forall ns | Managed(ns) :: ns in after <==> ns in NetnsNames(networks)
    ensures forall ns | !Managed(ns) :: Lookup(after, ns) == Lookup(spaces, ns)
  {
    NamesAreManaged(networks);
  }

  /** From any kernel state a successful run leaves every namespace outside the managed ones as it was, and ends in
      a state that carries the configuration if and only if the bridge was no veth end into a namespace that the
      run deletes. */
  lemma ApplyConverges(env: Env, w: World, c: Networks)
    requires FaithfulDump(env) && ListsSets(env)
    requires Apply(env, w, c).Done?
    ensures Converged(env, c, Apply(env, w, c).world.kernel) <==> BridgeSurvives(w.kernel, Keyed(c))
    ensures forall ns: string | !("network-" <= ns) :: Lookup(Apply(env, w, c).world.kernel.spaces, ns) == Lookup(w.kernel.spaces, ns)
  {
    ApplyDone(env, w, c);
    AppliedConverges(env, w.kernel, c);
  }

  // What the networks' effects make of a cleared kernel.
  lemma EffectsConverge(env: Env, k: Kernel, names: set<string>, after: Kernel, networks: seq<NetworkState>)
    requires FaithfulDump(env) && DistinctPorts(networks)
    requires forall ns :: ns in names <==> Surplus(k, networks, ns)
    requires after == EffectAll(env, DropAll(BridgeEffect(k), names), networks)
    ensures AllSettled(env, networks, after)
    ensures BridgeSettled(after) <==> BridgeSurvives(k, networks)
    ensures OnlyAt(k.spaces - names, after.spaces, NetnsNames(networks))
  {
    EffectAllSettles(env, DropAll(BridgeEffect(k), names), networks);
    EffectAllOnlyThese(env, DropAll(BridgeEffect(k), names), networks);
    BridgeStays(k, names, after, networks);
  }

  lemma ServedCarried(env: Env, networks: seq<NetworkState>, after: Kernel, nginx: Nginx)
    requires AllSettled(env, networks, after) && forall ns | Managed(ns) :: ns in after.spaces <==> ns in NetnsNames(networks)
    ensures Carried(env, networks, after.(nginx := nginx)) <==> BridgeSettled(after)
  {
    SettledIgnoresNginx(env, networks, after, nginx);
  }

  lemma ClearedConverges(env: Env, k: Kernel, names: seq<string>, after: Kernel, c: Networks)
    requires FaithfulDump(env) && DistinctPorts(Keyed(c))
    requires forall ns :: ns in names <==> ns in k.spaces.Keys - NetnsNames(Keyed(c))
    requires after == EffectAll(env, DropAll(BridgeEffect(k), ManagedIn(names)), Keyed(c))
    ensures Converged(env, c, after.(nginx := NginxOf(TablesOf(Keyed(c), env.custom)))) <==> BridgeSurvives(k, Keyed(c))
    ensures forall ns | !Managed(ns) :: Lookup(after.spaces, ns) == Lookup(k.spaces, ns)
  {
    EffectsConverge(env, k, ManagedIn(names), after, Keyed(c));
    SpacesAfter(k.spaces, names, after.spaces, Keyed(c));
    ServedCarried(env, Keyed(c), after, NginxOf(TablesOf(Keyed(c), env.custom)));
  }

  lemma AppliedConverges(env: Env, k: Kernel, c: Networks)
    requires FaithfulDump(env) && ListsSets(env)
    ensures Converged(env, c, AppliedKernel(env, k, c)) <==> BridgeSurvives(k, Keyed(c))
    ensures forall ns | !Managed(ns) :: Lookup(AppliedKernel(env, k, c).spaces, ns) == Lookup(k.spaces, ns)
  {
    var names := env.order(k.spaces.Keys - NetnsNames(Keyed(c)));
    KeyedDistinct(c);
    assert BridgeEffect(k).spaces == k.spaces;
    ClearedConverges(env, k, names, EffectAll(env, DropAll(BridgeEffect(k), ManagedIn(names)), Keyed(c)), c);
  }

  lemma SettledIgnoresNginx(env: Env, networks: seq<NetworkState>, k: Kernel, nginx: Nginx)
    requires AllSettled(env, networks, k)
    ensures AllSettled(env, networks, k.(nginx := nginx))
  {
    forall i | 0 <= i < |networks| ensures Settled(env, networks[i], k.(nginx := nginx)) {
      assert Settled(env, networks[i], k);
    }
  }

  /*** Idempotence ***/

  /** On a kernel that carries the configuration, applying it again issues no change of a namespace, link,
      address, MTU, master or NAT rule, and its unconditional writes write what is there already; this holds
      for every run, also one that fails half-way. */
  lemma ApplyIdempotent(env: Env, w: World, c: Networks)
    requires Converged(env, c, w.kernel) && ListsSets(env)
    ensures Quiet(w, Apply(env, w, c).world)
  {
    var networks := Keyed(c);
    BridgeQuiet(env, w);
    var bridge := ApplyBridge(env, w);
    if bridge.Done? {
      var list := NetnsList(env, bridge.world);
      if list.Done? {
        var names := env.order(list.value - NetnsNames(networks));
        DeleteNoneQuiet(env, list.world, names);
        NetworksQuiet(env, list.world, networks);
        var applied := ApplyNetworks(env, list.world, networks);
        if applied.Done? {
          NginxQuiet(env, applied.world, networks);
        }
      }
    }
  }

  lemma NginxQuiet(env: Env, w: World, networks: seq<NetworkState>)
    requires w.kernel.nginx == NginxOf(TablesOf(networks, env.custom))
    ensures Quiet(w, ApplyNginx(env, w, networks).world)
  {
  }
}
