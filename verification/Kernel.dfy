/** The system the gateway drives, as far as it can tell: namespaces, links, NAT text, files, nginx.
    Every call either fails and changes nothing, or has its obvious effect. */
module Kernel {
  import opened Basics
  import opened Config
  import opened Forwarding

  // `peer` names the namespace that holds the other end of a veth pair.
  datatype Link = Link(mtu: Option<nat>, down: bool, addrs: set<IpNet>, master: Option<string>, peer: Option<string>)

  const NEW_WIREGUARD := Link(Some(1420), true, {}, None, None)
  const NEW_BRIDGE := Link(Some(1500), true, {}, None, None)

  function NewVeth(peer: Option<string>): Link { Link(Some(1500), true, {}, None, peer) }

  // `rules` is the text of the NAT rules, `wireguard` the configuration last synced to each interface.
  datatype Space = Space(links: map<string, Link>, wireguard: map<string, string>, rules: string)

  const NEW_SPACE := Space(map[], map[], "")

  // The files nginx reads, and what it read last.
  datatype Nginx = Nginx(stream: Option<Side>, site: Option<Side>, live: Option<(Side, Side)>)

  // `files` holds the WireGuard configuration files by namespace and interface.
  datatype Kernel = Kernel(
    root: map<string, Link>,
    spaces: map<string, Space>,
    files: map<(string, string), string>,
    nginx: Nginx)

  // `changes` counts the calls that change namespaces, links, addresses or NAT rules.
  datatype World = World(kernel: Kernel, calls: nat, changes: nat)

  datatype Run<+T> = Done(world: World, value: T) | Failed(world: World) {
    predicate IsFailure() { Failed? }

    function PropagateFailure<U>(): Run<U>
      requires Failed?
    {
      Failed(world)
    }

    function Extract(): (World, T)
      requires Done?
    {
      (world, value)
    }
  }

  // What a run depends on besides the kernel: which calls fail, how a hash set is iterated, how saved NAT
  // rules are printed, how a WireGuard configuration is printed, and the custom forwarding options.
  datatype Env = Env(
    fault: nat -> bool,
    order: set<string> -> seq<string>,
    dump: string -> string,
    wgText: NetworkState -> string,
    custom: seq<Entry>)

  // A call that only reads.
  function Ask<T>(env: Env, w: World, ok: bool, answer: T): Run<T>
  {
    var w' := w.(calls := w.calls + 1);
    if ok && !env.fault(w.calls) then Done(w', answer) else Failed(w')
  }

  // A call that changes namespaces, links, addresses or NAT rules.
  function Change(env: Env, w: World, ok: bool, kernel: Kernel): Run<()>
  {
    var w' := w.(calls := w.calls + 1, changes := w.changes + 1);
    if ok && !env.fault(w.calls) then Done(w'.(kernel := kernel), ()) else Failed(w')
  }

  // A write that is made on every run: configuration files and their reload.
  function Write(env: Env, w: World, ok: bool, kernel: Kernel): Run<()>
  {
    var w' := w.(calls := w.calls + 1);
    if ok && !env.fault(w.calls) then Done(w'.(kernel := kernel), ()) else Failed(w')
  }

  // The links of the root namespace (None) or of a named one.
  predicate HasSpace(k: Kernel, at: Option<string>) { at.Some? ==> at.value in k.spaces }

  function Links(k: Kernel, at: Option<string>): map<string, Link>
    requires HasSpace(k, at)
  {
    if at.None? then k.root else k.spaces[at.value].links
  }

  predicate HasLink(k: Kernel, at: Option<string>, name: string)
  {
    HasSpace(k, at) && name in Links(k, at)
  }

  function LinkAt(k: Kernel, at: Option<string>, name: string): Link
    requires HasLink(k, at, name)
  {
    Links(k, at)[name]
  }

  function SetLink(k: Kernel, at: Option<string>, name: string, link: Link): Kernel
    requires HasSpace(k, at)
  {
    match at
    case None => k.(root := k.root[name := link])
    case Some(ns) => k.(spaces := k.spaces[ns := k.spaces[ns].(links := k.spaces[ns].links[name := link])])
  }

  function NetnsList(env: Env, w: World): Run<set<string>> { Ask(env, w, true, w.kernel.spaces.Keys) }

  function NetnsExists(env: Env, w: World, ns: string): Run<bool> { Ask(env, w, true, ns in w.kernel.spaces) }

  function NetnsAdd(env: Env, w: World, ns: string): Run<()>
  {
    Change(env, w, ns !in w.kernel.spaces, w.kernel.(spaces := w.kernel.spaces[ns := NEW_SPACE]))
  }

  // A namespace takes its links with it, and the outer ends of its veth pairs.
  function DropSpace(k: Kernel, ns: string): Kernel
  {
    k.(spaces := k.spaces - {ns}, root := map l | l in k.root && k.root[l].peer != Some(ns) :: k.root[l])
  }

  function NetnsDel(env: Env, w: World, ns: string): Run<()>
  {
    Change(env, w, ns in w.kernel.spaces, DropSpace(w.kernel, ns))
  }

  function LinkExists(env: Env, w: World, at: Option<string>, name: string): Run<bool>
  {
    Ask(env, w, HasSpace(w.kernel, at), HasLink(w.kernel, at, name))
  }

  function LinkAdd(env: Env, w: World, at: Option<string>, name: string, link: Link): Run<()>
  {
    var ok := HasSpace(w.kernel, at) && !HasLink(w.kernel, at, name);
    Change(env, w, ok, if ok then SetLink(w.kernel, at, name, link) else w.kernel)
  }

  // One end in the namespace, the other in the root namespace.
  function VethAdd(env: Env, w: World, ns: string, inner: string, outer: string): Run<()>
  {
    var ok := ns in w.kernel.spaces && !HasLink(w.kernel, Some(ns), inner) && !HasLink(w.kernel, None, outer);
    Change(env, w, ok,
      if ok then SetLink(SetLink(w.kernel, Some(ns), inner, NewVeth(None)), None, outer, NewVeth(Some(ns))) else w.kernel)
  }

  function InterfaceShow(env: Env, w: World, at: Option<string>, name: string): Run<Link>
  {
    var ok := HasLink(w.kernel, at, name);
    Ask(env, w, ok, if ok then LinkAt(w.kernel, at, name) else NEW_BRIDGE)
  }

  // A call that replaces one link by an updated one.
  function LinkSet(env: Env, w: World, at: Option<string>, name: string, ok: bool, update: Link -> Link): Run<()>
  {
    var has := HasLink(w.kernel, at, name);
    Change(env, w, ok && has, if has then SetLink(w.kernel, at, name, update(LinkAt(w.kernel, at, name))) else w.kernel)
  }

  function InterfaceMtu(env: Env, w: World, at: Option<string>, name: string, mtu: nat): Run<()>
  {
    LinkSet(env, w, at, name, true, (l: Link) => l.(mtu := Some(mtu)))
  }

  function InterfaceUp(env: Env, w: World, at: Option<string>, name: string): Run<()>
  {
    LinkSet(env, w, at, name, true, (l: Link) => l.(down := false))
  }

  function AddrAdd(env: Env, w: World, at: Option<string>, name: string, addr: IpNet): Run<()>
  {
    LinkSet(env, w, at, name, true, (l: Link) => l.(addrs := l.addrs + {addr}))
  }

  function LinkSetMaster(env: Env, w: World, at: Option<string>, name: string, master: string): Run<()>
  {
    LinkSet(env, w, at, name, HasLink(w.kernel, at, master), (l: Link) => l.(master := Some(master)))
  }

  function NetnsWriteFile(env: Env, w: World, ns: string, wgif: string, text: string): Run<()>
  {
    Write(env, w, ns in w.kernel.spaces, w.kernel.(files := w.kernel.files[(ns, wgif) := text]))
  }

  // Reads the interface's configuration file into the interface.
  function WireguardSync(env: Env, w: World, ns: string, wgif: string): Run<()>
  {
    var ok := HasLink(w.kernel, Some(ns), wgif) && (ns, wgif) in w.kernel.files;
    Write(env, w, ok,
      if ok then
        var space := w.kernel.spaces[ns];
        w.kernel.(spaces := w.kernel.spaces[ns := space.(wireguard := space.wireguard[wgif := w.kernel.files[(ns, wgif)]])])
      else w.kernel)
  }

  function IptablesSave(env: Env, w: World, ns: string): Run<string>
  {
    var ok := ns in w.kernel.spaces;
    Ask(env, w, ok, if ok then env.dump(w.kernel.spaces[ns].rules) else "")
  }

  function IptablesRestore(env: Env, w: World, ns: string, text: string): Run<()>
  {
    var ok := ns in w.kernel.spaces;
    Change(env, w, ok,
      if ok then w.kernel.(spaces := w.kernel.spaces[ns := w.kernel.spaces[ns].(rules := text)]) else w.kernel)
  }

  function WriteStream(env: Env, w: World, side: Side): Run<()>
  {
    Write(env, w, true, w.kernel.(nginx := w.kernel.nginx.(stream := Some(side))))
  }

  function WriteSite(env: Env, w: World, side: Side): Run<()>
  {
    Write(env, w, true, w.kernel.(nginx := w.kernel.nginx.(site := Some(side))))
  }

  function NginxReload(env: Env, w: World): Run<()>
  {
    var n := w.kernel.nginx;
    Write(env, w, true,
      if n.stream.Some? && n.site.Some? then w.kernel.(nginx := n.(live := Some((n.stream.value, n.site.value)))) else w.kernel)
  }
}
