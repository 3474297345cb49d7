/** What the steps of the reconciler do when they succeed, and that they do nothing when there is nothing to do. */
module Effects {
  import opened Basics
  import opened Config
  import opened Kernel
  import opened Reconciler

  function Elements(s: seq<IpNet>): set<IpNet> { set x | x in s }

  // A run that issued no change and left the kernel as it was, whether or not it succeeded.
  predicate Quiet(w: World, after: World) { after.kernel == w.kernel && after.changes == w.changes }

  /*** One link ***/

  lemma SetLinkGet(k: Kernel, at: Option<string>, name: string, link: Link)
    requires HasSpace(k, at)
    ensures HasLink(SetLink(k, at, name, link), at, name) && LinkAt(SetLink(k, at, name, link), at, name) == link
  {
  }

  lemma SetLinkTwice(k: Kernel, at: Option<string>, name: string, a: Link, b: Link)
    requires HasSpace(k, at)
    ensures SetLink(SetLink(k, at, name, a), at, name, b) == SetLink(k, at, name, b)
  {
    match at
    case None => assert k.root[name := a][name := b] == k.root[name := b];
    case Some(ns) =>
      var s := k.spaces[ns];
      assert s.links[name := a][name := b] == s.links[name := b];
      var x, y := s.(links := s.links[name := a]), s.(links := s.links[name := b]);
      assert k.spaces[ns := x][ns := y] == k.spaces[ns := y];
  }

  lemma SetLinkSame(k: Kernel, at: Option<string>, name: string)
    requires HasLink(k, at, name)
    ensures SetLink(k, at, name, LinkAt(k, at, name)) == k
  {
    match at
    case None => assert k.root[name := k.root[name]] == k.root;
    case Some(ns) =>
      var s := k.spaces[ns];
      assert s.links[name := s.links[name]] == s.links;
      assert k.spaces[ns := s] == k.spaces;
  }

  lemma {:induction false} AddMissingDone(env: Env, w: World, at: Option<string>, name: string, current: set<IpNet>, target: seq<IpNet>)
    requires HasLink(w.kernel, at, name) && current <= LinkAt(w.kernel, at, name).addrs
    ensures var r, l := AddMissing(env, w, at, name, current, target), LinkAt(w.kernel, at, name);
      r.Done? ==> r.world.kernel == SetLink(w.kernel, at, name, l.(addrs := l.addrs + Elements(target)))
    decreases |target|
  {
    var l := LinkAt(w.kernel, at, name);
    if target == [] {
      assert l.(addrs := l.addrs + Elements(target)) == l;
      SetLinkSame(w.kernel, at, name);
    } else {
      var rest := target[1..];
      assert target == [target[0]] + rest;
      assert l.addrs + Elements(target) == l.addrs + {target[0]} + Elements(rest);
      if target[0] in current {
        AddMissingDone(env, w, at, name, current, rest);
        assert l.addrs + {target[0]} == l.addrs;
      } else {
        var first := AddrAdd(env, w, at, name, target[0]);
        if first.Done? {
          var m := l.(addrs := l.addrs + {target[0]});
          SetLinkGet(w.kernel, at, name, m);
          AddMissingDone(env, first.world, at, name, current, rest);
          SetLinkTwice(w.kernel, at, name, m, m.(addrs := m.addrs + Elements(rest)));
        }
      }
    }
  }

  lemma {:induction false} AddMissingQuiet(env: Env, w: World, at: Option<string>, name: string, current: set<IpNet>, target: seq<IpNet>)
    requires Elements(target) <= current
    ensures AddMissing(env, w, at, name, current, target) == Done(w, ())
    decreases |target|
  {
    if target != [] {
      assert target[0] in Elements(target);
      assert forall x | x in target[1..] :: x in target;
      AddMissingQuiet(env, w, at, name, current, target[1..]);
    }
  }

  lemma ApplyAddrDone(env: Env, w: World, at: Option<string>, name: string, target: seq<IpNet>)
    ensures ApplyAddr(env, w, at, name, target).Done? ==> HasLink(w.kernel, at, name)
    ensures ApplyAddr(env, w, at, name, target).Done? ==>
      var l := LinkAt(w.kernel, at, name);
      ApplyAddr(env, w, at, name, target).world.kernel == SetLink(w.kernel, at, name, l.(addrs := l.addrs + Elements(target)))
  {
    var show := InterfaceShow(env, w, at, name);
    if show.Done? {
      AddMissingDone(env, show.world, at, name, show.value.addrs, target);
    }
  }

  lemma ApplyAddrQuiet(env: Env, w: World, at: Option<string>, name: string, target: seq<IpNet>)
    requires HasLink(w.kernel, at, name) && Elements(target) <= LinkAt(w.kernel, at, name).addrs
    ensures Quiet(w, ApplyAddr(env, w, at, name, target).world)
  {
    var show := InterfaceShow(env, w, at, name);
    if show.Done? {
      AddMissingQuiet(env, show.world, at, name, show.value.addrs, target);
    }
  }

  lemma ApplyUpDone(env: Env, w: World, at: Option<string>, name: string)
    ensures ApplyInterfaceUp(env, w, at, name).Done? ==> HasLink(w.kernel, at, name)
    ensures ApplyInterfaceUp(env, w, at, name).Done? ==>
      ApplyInterfaceUp(env, w, at, name).world.kernel == SetLink(w.kernel, at, name, LinkAt(w.kernel, at, name).(down := false))
  {
    if HasLink(w.kernel, at, name) { SetLinkSame(w.kernel, at, name); }
  }

  lemma ApplyMasterDone(env: Env, w: World, at: Option<string>, name: string, master: string)
    ensures ApplyLinkMaster(env, w, at, name, master).Done? ==> HasLink(w.kernel, at, name)
    ensures ApplyLinkMaster(env, w, at, name, master).Done? ==>
      ApplyLinkMaster(env, w, at, name, master).world.kernel == SetLink(w.kernel, at, name, LinkAt(w.kernel, at, name).(master := Some(master)))
  {
    if HasLink(w.kernel, at, name) { SetLinkSame(w.kernel, at, name); }
  }

  function Existing(m: map<string, Link>, name: string, otherwise: Link): Link
  {
    if name in m then m[name] else otherwise
  }

  /*** The bridge ***/

  function BridgeTarget(l: Link): Link { l.(down := false, addrs := l.addrs + {BRIDGE_NET}) }

  function BridgeEffect(k: Kernel): Kernel
  {
    k.(root := k.root[BRIDGE := BridgeTarget(Existing(k.root, BRIDGE, NEW_BRIDGE))])
  }

  predicate BridgeSettled(k: Kernel)
  {
    BRIDGE in k.root && !k.root[BRIDGE].down && BRIDGE_NET in k.root[BRIDGE].addrs
  }

  lemma BridgeDone(env: Env, w: World)
    ensures var r := ApplyBridge(env, w); r.Done? ==> r.world.kernel == BridgeEffect(w.kernel)
  {
    var k := w.kernel;
    var base := Existing(k.root, BRIDGE, NEW_BRIDGE);
    var a := LinkExists(env, w, None, BRIDGE);
    if a.Done? {
      var b := if a.value then Done(a.world, ()) else LinkAdd(env, a.world, None, BRIDGE, NEW_BRIDGE);
      if b.Done? {
        assert b.world.kernel == SetLink(k, None, BRIDGE, base) by { if a.value { SetLinkSame(k, None, BRIDGE); } }
        SetLinkGet(k, None, BRIDGE, base);
        ApplyAddrDone(env, b.world, None, BRIDGE, [BRIDGE_NET]);
        var c := ApplyAddr(env, b.world, None, BRIDGE, [BRIDGE_NET]);
        if c.Done? {
          assert Elements([BRIDGE_NET]) == {BRIDGE_NET};
          var l := base.(addrs := base.addrs + {BRIDGE_NET});
          SetLinkTwice(k, None, BRIDGE, base, l);
          SetLinkGet(k, None, BRIDGE, l);
          ApplyUpDone(env, c.world, None, BRIDGE);
          SetLinkTwice(k, None, BRIDGE, l, l.(down := false));
        }
      }
    }
  }

  lemma BridgeQuiet(env: Env, w: World)
    requires BridgeSettled(w.kernel)
    ensures Quiet(w, ApplyBridge(env, w).world)
  {
    assert Elements([BRIDGE_NET]) == {BRIDGE_NET};
    var a := LinkExists(env, w, None, BRIDGE);
    if a.Done? {
      ApplyAddrQuiet(env, a.world, None, BRIDGE, [BRIDGE_NET]);
    }
  }
}
