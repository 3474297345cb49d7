/** The host-to-upstream and upstream-to-server tables that nginx is configured with (src/types.rs). */
module Forwarding {
  import opened Basics
  import opened Config
  import opened Addressing
  import Base32

  datatype Scheme = Https | Http

  function SchemeOf(url: Url): Option<Scheme>
  {
    if url.scheme == "https" then Some(Https) else if url.scheme == "http" then Some(Http) else None
  }

  // A URL of this scheme, as it is spelled.
  predicate HasScheme(url: Url, scheme: Scheme) { if scheme.Https? then url.scheme == "https" else url.scheme == "http" }

  lemma SchemeSpelled(url: Url, scheme: Scheme)
    ensures SchemeOf(url) == Some(scheme) <==> HasScheme(url, scheme)
  {
    assert "https" != "http";
  }

  // The tables of one scheme.
  datatype Side = Side(forwarding: map<Host, string>, upstream: map<string, seq<Sock>>)

  datatype Tables = Tables(https: Side, http: Side) {
    function Of(scheme: Scheme): Side { if scheme.Https? then https else http }

    function With(scheme: Scheme, side: Side): Tables
    {
      if scheme.Https? then this.(https := side) else this.(http := side)
    }
  }

  const EMPTY := Tables(Side(map[], map[]), Side(map[], map[]))

  function UpstreamName(scheme: Scheme, host: Host): string
  {
    (if scheme.Https? then "https_" else "http_") + Base32.Encode(host)
  }

  lemma SchemeTold(scheme: Scheme, host: Host)
    ensures |UpstreamName(scheme, host)| > 4 && UpstreamName(scheme, host)[4] == if scheme.Https? then 's' else '_'
  {
  }

  /** Upstream names tell scheme and host. */
  lemma UpstreamNameInjective(s: Scheme, a: Host, t: Scheme, b: Host)
    requires UpstreamName(s, a) == UpstreamName(t, b)
    ensures s == t && a == b
  {
    SchemeTold(s, a);
    SchemeTold(t, b);
    if s == t {
      var prefix := if s.Https? then "https_" else "http_";
      assert UpstreamName(s, a)[|prefix|..] == Base32.Encode(a);
      assert UpstreamName(s, b)[|prefix|..] == Base32.Encode(b);
      Base32.Injective(a, b);
    }
  }

  function Servers(side: Side, name: string): seq<Sock>
  {
    if name in side.upstream then side.upstream[name] else []
  }

  // One host entry: find or create its upstream, then append the server.
  function PutHost(side: Side, scheme: Scheme, host: Host, sock: Sock): Side
  {
    var name := if host in side.forwarding then side.forwarding[host] else UpstreamName(scheme, host);
    Side(side.forwarding[host := name], side.upstream[name := Servers(side, name) + [sock]])
  }

  datatype Entry = Entry(url: Url, sock: Sock)

  // Entries of any other scheme leave the tables alone.
  function Put(t: Tables, e: Entry): Tables
  {
    match SchemeOf(e.url)
    case None => t
    case Some(scheme) => t.With(scheme, PutHost(t.Of(scheme), scheme, e.url.host, e.sock))
  }

  function PutAll(t: Tables, entries: seq<Entry>): Tables
    decreases |entries|
  {
    if entries == [] then t else PutAll(Put(t, entries[0]), entries[1..])
  }

  lemma {:induction false} PutAllSplit(t: Tables, a: seq<Entry>, b: seq<Entry>)
    ensures PutAll(t, a + b) == PutAll(PutAll(t, a), b)
    decreases |a|
  {
    if a == [] {
      assert a + b == b;
    } else {
      assert (a + b)[0] == a[0] && (a + b)[1..] == a[1..] + b;
      PutAllSplit(Put(t, a[0]), a[1..], b);
    }
  }

  function NetworkEntries(n: NetworkState): (r: seq<Entry>)
    ensures |r| == |PortMappings(n)|
  {
    var m := PortMappings(n);
    seq(|m|, i requires 0 <= i < |m| => Entry(m[i].url, Sock(VethAddr(n.listenPort), m[i].port)))
  }

  function AllEntries(networks: seq<NetworkState>): seq<Entry>
  {
    if networks == [] then [] else NetworkEntries(networks[0]) + AllEntries(networks[1..])
  }

  function TablesOf(networks: seq<NetworkState>, custom: seq<Entry>): Tables
  {
    PutAll(EMPTY, AllEntries(networks) + custom)
  }

  class Forwarding {
    var httpsForwarding: map<Host, string>
    var httpsUpstream: map<string, seq<Sock>>
    var httpForwarding: map<Host, string>
    var httpUpstream: map<string, seq<Sock>>
    var sshForwarding: map<Host, Sock>

    function Value(): Tables
      reads this
    {
      Tables(Side(httpsForwarding, httpsUpstream), Side(httpForwarding, httpUpstream))
    }

    constructor ()
      ensures Value() == EMPTY && sshForwarding == map[]
    {
      httpsForwarding, httpsUpstream, httpForwarding, httpUpstream := map[], map[], map[], map[];
      sshForwarding := map[];
    }

    method AddHttps(url: Url, sock: Sock)
      modifies this`httpsForwarding, this`httpsUpstream
      ensures Value().https == PutHost(old(Value()).https, Https, url.host, sock)
    {
      if url.host !in httpsForwarding {
        httpsForwarding := httpsForwarding[url.host := "https_" + Base32.Encode(url.host)];
      }
      var upstream := httpsForwarding[url.host];
      if upstream !in httpsUpstream {
        httpsUpstream := httpsUpstream[upstream := []];
      }
      httpsUpstream := httpsUpstream[upstream := httpsUpstream[upstream] + [sock]];
    }

    method AddHttp(url: Url, sock: Sock)
      modifies this`httpForwarding, this`httpUpstream
      ensures Value().http == PutHost(old(Value()).http, Http, url.host, sock)
    {
      if url.host !in httpForwarding {
        httpForwarding := httpForwarding[url.host := "http_" + Base32.Encode(url.host)];
      }
      var upstream := httpForwarding[url.host];
      if upstream !in httpUpstream {
        httpUpstream := httpUpstream[upstream := []];
      }
      httpUpstream := httpUpstream[upstream := httpUpstream[upstream] + [sock]];
    }

    method Add(n: NetworkState)
      modifies this
      ensures Value() == PutAll(old(Value()), NetworkEntries(n))
      ensures SoundTables(old(Value())) ==> forall scheme, host ::
        Resolve(Value(), scheme, host) == Resolve(old(Value()), scheme, host) + Listed(NetworkEntries(n), scheme, host)
      ensures sshForwarding == old(sshForwarding)
    {
      if SoundTables(Value()) {
        forall scheme, host
          ensures Resolve(PutAll(Value(), NetworkEntries(n)), scheme, host)
            == Resolve(Value(), scheme, host) + Listed(NetworkEntries(n), scheme, host)
        {
          PutAllMeaning(Value(), NetworkEntries(n), scheme, host);
        }
      }
      var entries := NetworkEntries(n);
      for i := 0 to |entries|
        invariant PutAll(old(Value()), entries) == PutAll(Value(), entries[i..])
        invariant sshForwarding == old(sshForwarding)
      {
        assert entries[i..][0] == entries[i] && entries[i..][1..] == entries[i + 1..];
        // The scheme "ssh" has a case of its own in the source, which does nothing.
        AddCustom(entries[i].url, entries[i].sock);
      }
    }

    method AddCustom(url: Url, sock: Sock)
      modifies this
      ensures Value() == Put(old(Value()), Entry(url, sock))
      ensures url.scheme == "https" ==>
        Value().https == PutHost(old(Value()).https, Https, url.host, sock) && Value().http == old(Value()).http
      ensures url.scheme == "http" ==>
        Value().http == PutHost(old(Value()).http, Http, url.host, sock) && Value().https == old(Value()).https
      ensures url.scheme != "https" && url.scheme != "http" ==> Value() == old(Value())
      ensures sshForwarding == old(sshForwarding)
    {
      SchemeSpelled(url, Https);
      SchemeSpelled(url, Http);
      match SchemeOf(url)
      case Some(Https) => AddHttps(url, sock);
      case Some(Http) => AddHttp(url, sock);
      case None =>
    }
  }

  /*** What the tables mean ***/

  // The sockets that the entries list under a scheme and host, in order.
  function Listed(entries: seq<Entry>, scheme: Scheme, host: Host): seq<Sock>
  {
    if entries == [] then []
    else
      (if HasScheme(entries[0].url, scheme) && entries[0].url.host == host then [entries[0].sock] else [])
        + Listed(entries[1..], scheme, host)
  }

  lemma {:induction false} ListedSplit(a: seq<Entry>, b: seq<Entry>, scheme: Scheme, host: Host)
    ensures Listed(a + b, scheme, host) == Listed(a, scheme, host) + Listed(b, scheme, host)
  {
    if a == [] {
      assert a + b == b;
    } else {
      assert (a + b)[0] == a[0] && (a + b)[1..] == a[1..] + b;
      ListedSplit(a[1..], b, scheme, host);
    }
  }

  // Following the two tables from a host to its servers.
  function ResolveSide(side: Side, host: Host): seq<Sock>
  {
    if host in side.forwarding then Servers(side, side.forwarding[host]) else []
  }

  function Resolve(t: Tables, scheme: Scheme, host: Host): seq<Sock>
  {
    ResolveSide(t.Of(scheme), host)
  }

  // Every forwarded host has its own non-empty upstream.
  ghost predicate HostsServed(side: Side, scheme: Scheme)
  {
    forall h | h in side.forwarding ::
      side.forwarding[h] == UpstreamName(scheme, h) && Servers(side, side.forwarding[h]) != []
  }

  // Every upstream belongs to a forwarded host.
  ghost predicate UpstreamsNamed(side: Side, scheme: Scheme)
  {
    forall u | u in side.upstream :: exists h :: h in side.forwarding && UpstreamName(scheme, h) == u
  }

  // No two hosts share an upstream.
  ghost predicate HostsApart(side: Side)
  {
    forall g, h | g in side.forwarding && h in side.forwarding && side.forwarding[g] == side.forwarding[h] :: g == h
  }

  lemma ServedApart(side: Side, scheme: Scheme)
    requires HostsServed(side, scheme)
    ensures HostsApart(side)
  {
    forall g, h | g in side.forwarding && h in side.forwarding && side.forwarding[g] == side.forwarding[h]
      ensures g == h
    {
      UpstreamNameInjective(scheme, g, scheme, h);
    }
  }

  ghost predicate Sound(side: Side, scheme: Scheme)
  {
    HostsServed(side, scheme) && UpstreamsNamed(side, scheme)
  }

  lemma PutHostKeepsHosts(side: Side, scheme: Scheme, host: Host, sock: Sock)
    requires HostsServed(side, scheme)
    ensures HostsServed(PutHost(side, scheme, host, sock), scheme)
  {
  }

  lemma PutHostKeepsNames(side: Side, scheme: Scheme, host: Host, sock: Sock)
    requires Sound(side, scheme)
    ensures UpstreamsNamed(PutHost(side, scheme, host, sock), scheme)
  {
    var next := PutHost(side, scheme, host, sock);
    forall u | u in next.upstream
      ensures exists h :: h in next.forwarding && UpstreamName(scheme, h) == u
    {
      if u in side.upstream {
        var h :| h in side.forwarding && UpstreamName(scheme, h) == u;
        assert h in next.forwarding;
      } else {
        assert host in next.forwarding && UpstreamName(scheme, host) == u;
      }
    }
  }

  lemma PutHostResolves(side: Side, scheme: Scheme, host: Host, sock: Sock, h: Host)
    requires Sound(side, scheme)
    ensures ResolveSide(PutHost(side, scheme, host, sock), h)
         == ResolveSide(side, h) + if h == host then [sock] else []
  {
    if h == host {
      if host !in side.forwarding && UpstreamName(scheme, host) in side.upstream {
        var other :| other in side.forwarding && UpstreamName(scheme, other) == UpstreamName(scheme, host);
        UpstreamNameInjective(scheme, other, scheme, host);
      }
    } else if h in side.forwarding && UpstreamName(scheme, h) == UpstreamName(scheme, host) {
      UpstreamNameInjective(scheme, h, scheme, host);
    }
  }

  ghost predicate SoundTables(t: Tables)
  {
    Sound(t.https, Https) && Sound(t.http, Http)
  }

  lemma PutSound(t: Tables, e: Entry)
    requires SoundTables(t)
    ensures SoundTables(Put(t, e))
  {
    match SchemeOf(e.url)
    case None =>
    case Some(own) =>
      PutHostKeepsHosts(t.Of(own), own, e.url.host, e.sock);
      PutHostKeepsNames(t.Of(own), own, e.url.host, e.sock);
  }

  lemma PutResolves(t: Tables, e: Entry, scheme: Scheme, host: Host)
    requires SoundTables(t)
    ensures Resolve(Put(t, e), scheme, host) == Resolve(t, scheme, host) + Listed([e], scheme, host)
  {
    SchemeSpelled(e.url, scheme);
    assert Listed([e], scheme, host)
        == if HasScheme(e.url, scheme) && e.url.host == host then [e.sock] else [];
    match SchemeOf(e.url)
    case None =>
    case Some(own) => PutHostResolves(t.Of(own), own, e.url.host, e.sock, host);
  }

  lemma {:induction false} PutAllSound(t: Tables, entries: seq<Entry>)
    requires SoundTables(t)
    ensures SoundTables(PutAll(t, entries))
    ensures HostsApart(PutAll(t, entries).https) && HostsApart(PutAll(t, entries).http)
    decreases |entries|
  {
    if entries == [] {
      ServedApart(t.https, Https);
      ServedApart(t.http, Http);
    } else {
      PutSound(t, entries[0]);
      PutAllSound(Put(t, entries[0]), entries[1..]);
    }
  }

  lemma Appended<T>(a: seq<T>, b: seq<T>, c: seq<T>)
    ensures a + b + c == a + (b + c)
  {
  }

  lemma ListedFront(first: Entry, rest: seq<Entry>, scheme: Scheme, host: Host)
    ensures Listed([first] + rest, scheme, host) == Listed([first], scheme, host) + Listed(rest, scheme, host)
  {
    ListedSplit([first], rest, scheme, host);
  }

  lemma PutAllFront(t: Tables, first: Entry, rest: seq<Entry>)
    ensures PutAll(t, [first] + rest) == PutAll(Put(t, first), rest)
  {
    assert ([first] + rest)[1..] == rest;
  }

  lemma {:induction false} PutAllMeaning(t: Tables, entries: seq<Entry>, scheme: Scheme, host: Host)
    requires SoundTables(t)
    ensures Resolve(PutAll(t, entries), scheme, host) == Resolve(t, scheme, host) + Listed(entries, scheme, host)
    decreases |entries|
  {
    if entries == [] {
      assert Resolve(t, scheme, host) + [] == Resolve(t, scheme, host);
    } else {
      var first, rest := entries[0], entries[1..];
      assert entries == [first] + rest;
      PutSound(t, first);
      PutAllMeaning(Put(t, first), rest, scheme, host);
      PutAllFront(t, first, rest);
      PutResolves(t, first, scheme, host);
      ListedFront(first, rest, scheme, host);
      Appended(Resolve(t, scheme, host), Listed([first], scheme, host), Listed(rest, scheme, host));
    }
  }

  /** After any additions the tables are sound and resolve each host to exactly the sockets listed for it. */
  lemma TablesMeaning(networks: seq<NetworkState>, custom: seq<Entry>, scheme: Scheme, host: Host)
    ensures var t := TablesOf(networks, custom);
      && Sound(t.Of(scheme), scheme) && HostsApart(t.Of(scheme))
      && Resolve(t, scheme, host) == Listed(AllEntries(networks) + custom, scheme, host)
      && (host in t.Of(scheme).forwarding <==> Listed(AllEntries(networks) + custom, scheme, host) != [])
  {
    PutAllSound(EMPTY, AllEntries(networks) + custom);
    PutAllMeaning(EMPTY, AllEntries(networks) + custom, scheme, host);
  }
}
