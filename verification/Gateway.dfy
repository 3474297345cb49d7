/** The gateway's own state, its locked configuration, changed in place while the system is driven (src/gateway.rs),
    and the requests that do so, handled one at a time (src/websocket.rs). */
module Gateway {
  import opened Basics
  import opened Config
  import opened Addressing
  import opened Cleaning
  import opened Kernel
  import F = Forwarding
  import R = Reconciler
  import opened NetworkEffect
  import opened Convergence
  import opened Incremental

  datatype Request = Apply(config: Networks) | ApplyPartial(partial: Partial) | Shutdown

  class Gateway {
    const env: Env
    var config: Networks
    var world: World

    constructor (env: Env, world: World)
      ensures this.env == env && this.world == world && config == map[]
    {
      this.env, this.world, config := env, world, map[];
    }

    // The system is where this run leaves it.
    ghost predicate At(ok: bool, run: Run<()>)
      reads this
    {
      ok == run.Done? && world == run.world
    }

    method Take(run: Run<()>) returns (ok: bool)
      modifies this`world
      ensures At(ok, run)
    {
      world := run.world;
      ok := run.Done?;
    }

    method ApplyBridge() returns (ok: bool)
      modifies this`world
      ensures At(ok, R.ApplyBridge(env, old(world)))
    {
      var there := LinkExists(env, world, None, R.BRIDGE);
      world := there.world;
      if there.Failed? { return false; }
      if !there.value {
        ok := Take(LinkAdd(env, world, None, R.BRIDGE, NEW_BRIDGE));
        if !ok { return; }
      }
      ok := ApplyAddr(None, R.BRIDGE, [R.BRIDGE_NET]);
      if !ok { return; }
      ok := ApplyInterfaceUp(None, R.BRIDGE);
    }

    method ApplyAddr(at: Option<string>, name: string, target: seq<IpNet>) returns (ok: bool)
      modifies this`world
      ensures At(ok, R.ApplyAddr(env, old(world), at, name, target))
    {
      var show := InterfaceShow(env, world, at, name);
      world := show.world;
      if show.Failed? { return false; }
      var current := show.value.addrs;
      for i := 0 to |target|
        invariant R.AddMissing(env, show.world, at, name, current, target)
               == R.AddMissing(env, world, at, name, current, target[i..])
      {
        assert target[i..][0] == target[i] && target[i..][1..] == target[i + 1..];
        if target[i] !in current {
          ok := Take(AddrAdd(env, world, at, name, target[i]));
          if !ok { return; }
        }
      }
      ok := true;
    }

    method ApplyInterfaceUp(at: Option<string>, name: string) returns (ok: bool)
      modifies this`world
      ensures At(ok, R.ApplyInterfaceUp(env, old(world), at, name))
    {
      var show := InterfaceShow(env, world, at, name);
      world := show.world;
      if show.Failed? { return false; }
      if show.value.down {
        ok := Take(InterfaceUp(env, world, at, name));
        return;
      }
      ok := true;
    }

    method ApplyLinkMaster(at: Option<string>, name: string, master: string) returns (ok: bool)
      modifies this`world
      ensures At(ok, R.ApplyLinkMaster(env, old(world), at, name, master))
    {
      var show := InterfaceShow(env, world, at, name);
      world := show.world;
      if show.Failed? { return false; }
      if show.value.master.None? || show.value.master != Some(master) {
        ok := Take(LinkSetMaster(env, world, at, name, master));
        return;
      }
      ok := true;
    }

    method ApplyNetns(n: NetworkState) returns (ok: bool)
      modifies this`world
      ensures At(ok, R.ApplyNetns(env, old(world), n))
    {
      var ns := NetnsName(n.listenPort);
      var there := NetnsExists(env, world, ns);
      world := there.world;
      if there.Failed? { return false; }
      if !there.value {
        ok := Take(NetnsAdd(env, world, ns));
        return;
      }
      ok := true;
    }

    method ApplyWireguard(n: NetworkState) returns (ok: bool)
      modifies this`world
      ensures At(ok, R.ApplyWireguard(env, old(world), n))
    {
      var ns, wg := NetnsName(n.listenPort), WgName(n.listenPort);
      var there := LinkExists(env, world, Some(ns), wg);
      world := there.world;
      if there.Failed? { return false; }
      if !there.value {
        ok := Take(LinkAdd(env, world, Some(ns), wg, NEW_WIREGUARD));
        if !ok { return; }
      }
      var show := InterfaceShow(env, world, Some(ns), wg);
      world := show.world;
      if show.Failed? || show.value.mtu.None? { return false; }
      if show.value.mtu.value != n.mtu {
        ok := Take(InterfaceMtu(env, world, Some(ns), wg, n.mtu));
        if !ok { return; }
      }
      ok := ApplyInterfaceUp(Some(ns), wg);
      if !ok { return; }
      ok := Take(NetnsWriteFile(env, world, ns, wg, env.wgText(n)));
      if !ok { return; }
      ok := ApplyAddr(Some(ns), wg, n.address);
      if !ok { return; }
      ok := Take(WireguardSync(env, world, ns, wg));
    }

    method ApplyVeth(n: NetworkState) returns (ok: bool)
      modifies this`world
      ensures At(ok, R.ApplyVeth(env, old(world), n))
    {
      var ns, veth := NetnsName(n.listenPort), VethName(n.listenPort);
      var there := LinkExists(env, world, Some(ns), veth);
      world := there.world;
      if there.Failed? { return false; }
      if !there.value {
        ok := Take(VethAdd(env, world, ns, veth, veth));
        if !ok { return; }
      }
      ok := ApplyAddr(Some(ns), veth, [R.VethNet(n.listenPort)]);
      if !ok { return; }
      ok := ApplyLinkMaster(None, veth, R.BRIDGE);
      if !ok { return; }
      ok := ApplyInterfaceUp(Some(ns), veth);
      if !ok { return; }
      ok := ApplyInterfaceUp(None, veth);
    }

    method ApplyForwarding(n: NetworkState) returns (ok: bool)
      modifies this`world
      ensures At(ok, R.ApplyForwarding(env, old(world), n))
    {
      var ns := NetnsName(n.listenPort);
      var savefile := Clean(R.RulesText(n));
      var current := IptablesSave(env, world, ns);
      world := current.world;
      if current.Failed? { return false; }
      if savefile != Clean(current.value) {
        ok := Take(IptablesRestore(env, world, ns, savefile));
        return;
      }
      ok := true;
    }

    method ApplyNetwork(n: NetworkState) returns (ok: bool)
      modifies this`world
      ensures At(ok, R.ApplyNetwork(env, old(world), n))
      ensures ok ==> world.kernel == Effect(env, n, old(world).kernel)
    {
      NetworkDone(env, world, n);
      ok := ApplyNetns(n);
      if !ok { return; }
      ok := ApplyWireguard(n);
      if !ok { return; }
      ok := ApplyVeth(n);
      if !ok { return; }
      ok := ApplyForwarding(n);
    }

    method ApplyNginx(networks: seq<NetworkState>) returns (ok: bool)
      modifies this`world
      ensures At(ok, R.ApplyNginx(env, old(world), networks))
    {
      var forwarding := new F.Forwarding();
      for i := 0 to |networks|
        invariant fresh(forwarding) && world == old(world)
        invariant F.PutAll(F.EMPTY, F.AllEntries(networks)) == F.PutAll(forwarding.Value(), F.AllEntries(networks[i..]))
      {
        assert networks[i..][0] == networks[i] && networks[i..][1..] == networks[i + 1..];
        F.PutAllSplit(forwarding.Value(), F.NetworkEntries(networks[i]), F.AllEntries(networks[i + 1..]));
        forwarding.Add(networks[i]);
      }
      F.PutAllSplit(F.EMPTY, F.AllEntries(networks), env.custom);
      ghost var base := forwarding.Value();
      for i := 0 to |env.custom|
        invariant fresh(forwarding) && world == old(world)
        invariant F.PutAll(base, env.custom) == F.PutAll(forwarding.Value(), env.custom[i..])
      {
        assert env.custom[i..][0] == env.custom[i] && env.custom[i..][1..] == env.custom[i + 1..];
        forwarding.AddCustom(env.custom[i].url, env.custom[i].sock);
      }
      var tables := forwarding.Value();
      ok := Take(WriteStream(env, world, tables.https));
      if !ok { return; }
      ok := Take(WriteSite(env, world, tables.http));
      if !ok { return; }
      ok := Take(NginxReload(env, world));
    }

    // Deletes the surplus namespaces that are managed.
    method DeleteAll(surplus: seq<string>) returns (ok: bool)
      modifies this`world
      ensures At(ok, R.DeleteAll(env, old(world), surplus))
    {
      for i := 0 to |surplus|
        invariant R.DeleteAll(env, old(world), surplus) == R.DeleteAll(env, world, surplus[i..])
      {
        assert surplus[i..][0] == surplus[i] && surplus[i..][1..] == surplus[i + 1..];
        if Managed(surplus[i]) {
          ok := Take(NetnsDel(env, world, surplus[i]));
          if !ok { return; }
        }
      }
      ok := true;
    }

    method ApplyNetworks(networks: seq<NetworkState>) returns (ok: bool)
      modifies this`world
      ensures At(ok, R.ApplyNetworks(env, old(world), networks))
    {
      for i := 0 to |networks|
        invariant R.ApplyNetworks(env, old(world), networks) == R.ApplyNetworks(env, world, networks[i..])
      {
        assert networks[i..][0] == networks[i] && networks[i..][1..] == networks[i + 1..];
        ok := ApplyNetwork(networks[i]);
        if !ok { return; }
      }
      ok := true;
    }

    // Installs the configuration as soon as the lock is taken, then drives the system to it.
    method Apply(c: Networks) returns (ok: bool)
      modifies this
      ensures config == c && At(ok, R.Apply(env, old(world), c))
      ensures ok && FaithfulDump(env) && ListsSets(env) && BridgeSurvives(old(world).kernel, R.Keyed(c)) ==>
        Converged(env, c, world.kernel)
    {
      RunConverges(env, world, c);
      config := c;
      var networks := R.Keyed(c);
      ok := ApplyBridge();
      if !ok { return; }
      var list := NetnsList(env, world);
      world := list.world;
      if list.Failed? { return false; }
      ok := DeleteAll(env.order(list.value - R.NetnsNames(networks)));
      if !ok { return; }
      ok := ApplyNetworks(networks);
      if !ok { return; }
      ok := ApplyNginx(networks);
    }

    // A new network is stored once it is applied, a removal before it is made.
    method ApplyEntry(port: u16, entry: Option<NetworkState>, listed: set<string>) returns (ok: bool)
      modifies this
      ensures config == R.ApplyEntry(env, old(world), old(config), port, entry, listed).stored
      ensures At(ok, R.ApplyEntry(env, old(world), old(config), port, entry, listed).run)
    {
      match entry
      case None =>
        config := config - {port};
        if NetnsName(port) in listed {
          ok := Take(NetnsDel(env, world, NetnsName(port)));
          return;
        }
        ok := true;
      case Some(network) =>
        ok := ApplyNetwork(network);
        if ok { config := config[port := network]; }
    }

    method ApplyEntries(partial: Partial, ports: seq<u16>, listed: set<string>) returns (ok: bool)
      requires forall p | p in ports :: p in partial
      modifies this
      ensures config == R.ApplyEntries(env, old(world), old(config), partial, ports, listed).stored
      ensures At(ok, R.ApplyEntries(env, old(world), old(config), partial, ports, listed).run)
    {
      for i := 0 to |ports|
        invariant R.ApplyEntries(env, old(world), old(config), partial, ports, listed)
               == R.ApplyEntries(env, world, config, partial, ports[i..], listed)
      {
        assert ports[i] in ports && ports[i..][0] == ports[i] && ports[i..][1..] == ports[i + 1..];
        ok := ApplyEntry(ports[i], partial[ports[i]], listed);
        if !ok { return; }
      }
      ok := true;
    }

    method ApplyPartial(partial: Partial) returns (ok: bool)
      modifies this
      ensures config == R.ApplyPartial(env, old(world), old(config), partial).stored
      ensures At(ok, R.ApplyPartial(env, old(world), old(config), partial).run)
      ensures ok ==> config == Override(old(config), partial)
    {
      PartialStored(env, world, config, partial);
      ok := ApplyBridge();
      if !ok { return; }
      var list := NetnsList(env, world);
      world := list.world;
      if list.Failed? { return false; }
      ok := ApplyEntries(partial, AscendingPorts(partial.Keys), list.value);
      if !ok { return; }
      ok := ApplyNginx(R.Stored(config));
    }

    // Handles requests in order until one asks to shut down; each other one is answered by its result.
    method Serve(requests: seq<Request>) returns (responses: seq<bool>)
      modifies this
      ensures Session(config, world, responses) == Served(env, Session(old(config), old(world), []), requests)
    {
      responses := [];
      for i := 0 to |requests|
        invariant Served(env, Session(old(config), old(world), []), requests)
               == Served(env, Session(config, world, responses), requests[i..])
      {
        assert requests[i..][0] == requests[i] && requests[i..][1..] == requests[i + 1..];
        ghost var before := Session(config, world, responses);
        var ok;
        match requests[i] {
          case Apply(c) => ok := Apply(c);
          case ApplyPartial(p) => ok := ApplyPartial(p);
          case Shutdown => return;
        }
        responses := responses + [ok];
        assert Session(config, world, responses) == Handle(env, before, requests[i]);
      }
    }
  }

  lemma RunConverges(env: Env, w: World, c: Networks)
    ensures R.Apply(env, w, c).Done? && FaithfulDump(env) && ListsSets(env) && BridgeSurvives(w.kernel, R.Keyed(c)) ==>
      Converged(env, c, R.Apply(env, w, c).world.kernel)
  {
    if R.Apply(env, w, c).Done? && FaithfulDump(env) && ListsSets(env) { ApplyConverges(env, w, c); }
  }

  lemma PartialStored(env: Env, w: World, stored: Networks, partial: Partial)
    ensures var r := R.ApplyPartial(env, w, stored, partial); r.run.Done? ==> r.stored == Override(stored, partial)
  {
    var ports := AscendingPorts(partial.Keys);
    var bridge := R.ApplyBridge(env, w);
    if bridge.Done? {
      var list := NetnsList(env, bridge.world);
      if list.Done? {
        EntriesStored(env, list.world, stored, partial, ports, list.value);
        AnyOrderOverrides(stored, partial, ports);
      }
    }
  }

  /*** What a sequence of requests leaves stored ***/

  datatype Session = Session(stored: Networks, world: World, responses: seq<bool>)

  function Handle(env: Env, s: Session, request: Request): Session
    requires !request.Shutdown?
  {
    match request
    case Apply(c) =>
      var run := R.Apply(env, s.world, c);
      Session(c, run.world, s.responses + [run.Done?])
    case ApplyPartial(p) =>
      var progress := R.ApplyPartial(env, s.world, s.stored, p);
      Session(progress.stored, progress.run.world, s.responses + [progress.run.Done?])
  }

  function Served(env: Env, s: Session, requests: seq<Request>): Session
    decreases |requests|
  {
    if requests == [] || requests[0].Shutdown? then s
    else Served(env, Handle(env, s, requests[0]), requests[1..])
  }

  /** What one request may leave stored: a whole configuration, or the effect of a prefix of the entries of a
      partial one in port order, which is all of them when the request succeeds. */
  ghost predicate Leaves(request: Request, before: Networks, after: Networks, ok: bool)
  {
    match request
    case Apply(c) => after == c
    case ApplyPartial(p) =>
      exists k: nat | k <= |AscendingPorts(p.Keys)| :: EntersPrefix(p, k, before, after) && (ok ==> k == |AscendingPorts(p.Keys)|)
    case Shutdown => after == before
  }

  ghost predicate EntersPrefix(p: Partial, k: nat, before: Networks, after: Networks)
    requires k <= |AscendingPorts(p.Keys)|
  {
    var ports := AscendingPorts(p.Keys);
    assert forall q | q in ports[..k] :: q in ports;
    after == EnterAll(before, p, ports[..k])
  }

  lemma EnterFront(stored: Networks, p: Partial, port: u16, rest: seq<u16>)
    requires port in p && forall q | q in rest :: q in p
    ensures forall q | q in [port] + rest :: q in p
    ensures EnterAll(stored, p, [port] + rest) == EnterAll(Enter(stored, port, p[port]), p, rest)
  {
    assert ([port] + rest)[1..] == rest;
  }

  // A failed entry leaves the network in place, unless it is a removal.
  lemma EntryEnters(env: Env, w: World, stored: Networks, port: u16, entry: Option<NetworkState>, listed: set<string>)
    ensures var first := R.ApplyEntry(env, w, stored, port, entry, listed);
      first.stored == if first.run.Done? || entry.None? then Enter(stored, port, entry) else stored
  {
  }

  lemma {:induction false} EntriesPrefix(env: Env, w: World, stored: Networks, p: Partial, ports: seq<u16>, listed: set<string>)
      returns (k: nat)
    requires forall q | q in ports :: q in p
    ensures k <= |ports| && forall q | q in ports[..k] :: q in p
    ensures R.ApplyEntries(env, w, stored, p, ports, listed).stored == EnterAll(stored, p, ports[..k])
    ensures R.ApplyEntries(env, w, stored, p, ports, listed).run.Done? ==> k == |ports|
    decreases |ports|
  {
    if ports == [] {
      k := 0;
    } else {
      var port, rest := ports[0], ports[1..];
      assert port in ports;
      var first := R.ApplyEntry(env, w, stored, port, p[port], listed);
      EntryEnters(env, w, stored, port, p[port], listed);
      if first.run.Done? {
        var j := EntriesPrefix(env, first.run.world, first.stored, p, rest, listed);
        k := j + 1;
        EnterFront(stored, p, port, rest[..j]);
        assert ports[..k] == [port] + rest[..j];
      } else {
        k := if p[port].None? then 1 else 0;
        EnterFront(stored, p, port, []);
        assert ports[..k] == if p[port].None? then [port] + [] else [];
      }
    }
  }

  // The entries before number i are handled, and number i fails: a removal has already been stored then, a new or
  // changed network has not.
  ghost predicate EntryStops(env: Env, w: World, stored: Networks, p: Partial, ports: seq<u16>, listed: set<string>,
                             end: R.Progress, i: nat)
    requires forall q | q in ports :: q in p
  {
    && i < |ports| && (forall q | q in ports[..i] :: q in p)
    && var before := R.ApplyEntries(env, w, stored, p, ports[..i], listed);
    && before.run.Done? && end.run.Failed?
    && match p[ports[i]]
       case None =>
         && NetnsName(ports[i]) in listed
         && end == R.Progress(before.stored - {ports[i]}, NetnsDel(env, before.run.world, NetnsName(ports[i])))
       case Some(n) => end == R.Progress(before.stored, R.ApplyNetwork(env, before.run.world, n))
  }

  lemma StopsLater(env: Env, w: World, stored: Networks, p: Partial, port: u16, rest: seq<u16>, listed: set<string>,
                   end: R.Progress, i: nat)
    requires port in p && forall q | q in rest :: q in p
    requires var first := R.ApplyEntry(env, w, stored, port, p[port], listed);
      first.run.Done? && EntryStops(env, first.run.world, first.stored, p, rest, listed, end, i)
    ensures forall q | q in [port] + rest :: q in p
    ensures EntryStops(env, w, stored, p, [port] + rest, listed, end, i + 1)
  {
    assert ([port] + rest)[..i + 1] == [port] + rest[..i] && ([port] + rest[..i])[1..] == rest[..i];
    assert ([port] + rest)[i + 1] == rest[i];
  }

  lemma StopsNow(env: Env, w: World, stored: Networks, p: Partial, port: u16, rest: seq<u16>, listed: set<string>)
    requires port in p && forall q | q in rest :: q in p
    requires R.ApplyEntry(env, w, stored, port, p[port], listed).run.Failed?
    ensures forall q | q in [port] + rest :: q in p
    ensures EntryStops(env, w, stored, p, [port] + rest, listed, R.ApplyEntry(env, w, stored, port, p[port], listed), 0)
  {
    assert ([port] + rest)[..0] == [];
  }

  /** A failed pass over the entries stops at the first one that fails. */
  lemma {:induction false} EntriesStop(env: Env, w: World, stored: Networks, p: Partial, ports: seq<u16>, listed: set<string>)
      returns (i: nat)
    requires forall q | q in ports :: q in p
    requires R.ApplyEntries(env, w, stored, p, ports, listed).run.Failed?
    ensures EntryStops(env, w, stored, p, ports, listed, R.ApplyEntries(env, w, stored, p, ports, listed), i)
    decreases |ports|
  {
    var port, rest := ports[0], ports[1..];
    assert ports == [port] + rest && port in ports;
    var first := R.ApplyEntry(env, w, stored, port, p[port], listed);
    if first.run.Failed? {
      i := 0;
      StopsNow(env, w, stored, p, port, rest, listed);
    } else {
      var j := EntriesStop(env, first.run.world, first.stored, p, rest, listed);
      i := j + 1;
      StopsLater(env, w, stored, p, port, rest, listed, R.ApplyEntries(env, first.run.world, first.stored, p, rest, listed), j);
    }
  }

  lemma RequestLeaves(env: Env, s: Session, request: Request)
    requires !request.Shutdown?
    ensures var next := Handle(env, s, request);
      Leaves(request, s.stored, next.stored, next.responses[|s.responses|])
  {
    if request.ApplyPartial? {
      var p := request.partial;
      var ports := AscendingPorts(p.Keys);
      assert ports[..0] == [];
      assert EntersPrefix(p, 0, s.stored, s.stored);
      var bridge := R.ApplyBridge(env, s.world);
      if bridge.Done? {
        var list := NetnsList(env, bridge.world);
        if list.Done? {
          var k := EntriesPrefix(env, list.world, s.stored, p, ports, list.value);
          assert EntersPrefix(p, k, s.stored, R.ApplyEntries(env, list.world, s.stored, p, ports, list.value).stored);
        }
      }
    }
  }

  // The configurations stored before the first request and after each one.
  ghost predicate History(requests: seq<Request>, stored: seq<Networks>, responses: seq<bool>)
  {
    && |stored| == |responses| + 1 && |responses| <= |requests|
    && (|responses| < |requests| ==> requests[|responses|].Shutdown?)
    && forall i | 0 <= i < |responses| :: !requests[i].Shutdown? && Leaves(requests[i], stored[i], stored[i + 1], responses[i])
  }

  lemma HandleAnswers(env: Env, s: Session, request: Request)
    requires !request.Shutdown?
    ensures var next := Handle(env, s, request);
      |next.responses| == |s.responses| + 1 && next.responses[..|s.responses|] == s.responses
  {
  }

  lemma {:induction false} ServedAnswers(env: Env, s: Session, requests: seq<Request>)
    ensures |s.responses| <= |Served(env, s, requests).responses|
    ensures Served(env, s, requests).responses[..|s.responses|] == s.responses
    decreases |requests|
  {
    if requests != [] && !requests[0].Shutdown? {
      var next := Handle(env, s, requests[0]);
      HandleAnswers(env, s, requests[0]);
      ServedAnswers(env, next, requests[1..]);
      PrefixOfPrefix(Served(env, next, requests[1..]).responses, next.responses, s.responses);
    }
  }

  lemma PrefixOfPrefix(end: seq<bool>, next: seq<bool>, first: seq<bool>)
    requires |first| < |next| <= |end| && end[..|next|] == next && next[..|first|] == first
    ensures end[..|first|] == first && end[|first|..] == [next[|first|]] + end[|first| + 1..]
  {
    assert end[..|first|] == end[..|next|][..|first|];
    assert end[|first|] == end[..|next|][|first|];
  }

  // The answers given after the first ones.
  function Later(env: Env, s: Session, requests: seq<Request>): seq<bool>
  {
    ServedAnswers(env, s, requests);
    Served(env, s, requests).responses[|s.responses|..]
  }

  lemma LaterStep(env: Env, s: Session, requests: seq<Request>, next: Session, rest: seq<Request>)
    requires Served(env, s, requests) == Served(env, next, rest)
    requires |next.responses| == |s.responses| + 1 && next.responses[..|s.responses|] == s.responses
    ensures Later(env, s, requests) == [next.responses[|s.responses|]] + Later(env, next, rest)
  {
    ServedAnswers(env, next, rest);
    PrefixOfPrefix(Served(env, next, rest).responses, next.responses, s.responses);
  }

  lemma LaterFront(env: Env, s: Session, requests: seq<Request>)
    requires requests != [] && !requests[0].Shutdown?
    ensures var next := Handle(env, s, requests[0]);
      |s.responses| < |next.responses|
      && Later(env, s, requests) == [next.responses[|s.responses|]] + Later(env, next, requests[1..])
  {
    HandleAnswers(env, s, requests[0]);
    LaterStep(env, s, requests, Handle(env, s, requests[0]), requests[1..]);
  }

  /** Whatever succeeds or fails, the stored configuration is reached through such steps, one per answer. */
  lemma {:induction false} StoredOverRuns(env: Env, s: Session, requests: seq<Request>) returns (stored: seq<Networks>)
    ensures History(requests, stored, Later(env, s, requests))
    ensures stored[0] == s.stored && stored[|stored| - 1] == Served(env, s, requests).stored
    decreases |requests|
  {
    if requests == [] || requests[0].Shutdown? {
      stored := [s.stored];
    } else {
      var next := Handle(env, s, requests[0]);
      var rest := StoredOverRuns(env, next, requests[1..]);
      stored := [s.stored] + rest;
      var later := Later(env, next, requests[1..]);
      assert Leaves(requests[0], s.stored, rest[0], next.responses[|s.responses|]) by {
        RequestLeaves(env, s, requests[0]);
      }
      assert History(requests, stored, [next.responses[|s.responses|]] + later) by {
        HistoryFront(requests, s.stored, rest, next.responses[|s.responses|], later);
      }
      assert Later(env, s, requests) == [next.responses[|s.responses|]] + later by {
        LaterFront(env, s, requests);
      }
    }
  }

  lemma HistoryFront(requests: seq<Request>, first: Networks, rest: seq<Networks>, ok: bool, later: seq<bool>)
    requires requests != [] && !requests[0].Shutdown? && History(requests[1..], rest, later)
    requires Leaves(requests[0], first, rest[0], ok)
    ensures History(requests, [first] + rest, [ok] + later)
  {
    var stored, all := [first] + rest, [ok] + later;
    forall i | 0 <= i < |all|
      ensures !requests[i].Shutdown? && Leaves(requests[i], stored[i], stored[i + 1], all[i])
    {
      if i > 0 {
        assert requests[1..][i - 1] == requests[i];
      }
    }
  }

  // A client's mirror, kept with the configuration type's own partial update.
  function Mirror(c: Networks, requests: seq<Request>): Networks
    decreases |requests|
  {
    if requests == [] then c
    else
      match requests[0]
      case Apply(whole) => Mirror(whole, requests[1..])
      case ApplyPartial(p) => Mirror(Override(c, p), requests[1..])
      case Shutdown => c
  }

  // One successful request.
  lemma MirrorStep(env: Env, s: Session, request: Request)
    requires !request.Shutdown?
    requires |s.responses| < |Handle(env, s, request).responses| && Handle(env, s, request).responses[|s.responses|]
    ensures Handle(env, s, request).stored == Mirror(s.stored, [request])
  {
    RequestLeaves(env, s, request);
    if request.ApplyPartial? {
      var ports := AscendingPorts(request.partial.Keys);
      assert ports[..|ports|] == ports;
      AnyOrderOverrides(s.stored, request.partial, ports);
    }
  }

  lemma MirrorFront(c: Networks, requests: seq<Request>)
    requires requests != [] && !requests[0].Shutdown?
    ensures Mirror(c, requests) == Mirror(Mirror(c, [requests[0]]), requests[1..])
  {
    assert [requests[0]][1..] == [];
  }

  /** While every answer is a success, the client's mirror is the stored configuration. */
  lemma {:induction false} MirrorAgrees(env: Env, s: Session, requests: seq<Request>)
    ensures false !in Later(env, s, requests) ==> Served(env, s, requests).stored == Mirror(s.stored, requests)
    decreases |requests|
  {
    if requests != [] && !requests[0].Shutdown? && false !in Later(env, s, requests) {
      var next, rest := Handle(env, s, requests[0]), requests[1..];
      LaterFront(env, s, requests);
      NoneFailed(next.responses[|s.responses|], Later(env, next, rest));
      MirrorAgrees(env, next, rest);
      MirrorStep(env, s, requests[0]);
      MirrorFront(s.stored, requests);
    }
  }

  lemma NoneFailed(ok: bool, later: seq<bool>)
    requires false !in [ok] + later
    ensures ok && false !in later
  {
    assert ok in [ok] + later;
    assert forall x | x in later :: x in [ok] + later;
  }
}
