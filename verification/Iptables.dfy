/** The NAT rules of a namespace: their list, how packets meet them, and their text (templates/iptables.save.tera). */
module Iptables {
  import opened Basics
  import opened Text
  import opened Config
  import opened Addressing

  /*** Rules and how a packet meets them ***/

  datatype Rule =
    | Dnat(iface: string, dport: u16, to: Sock)
    | Snat(iface: string, dport: u16, source: u32)

  function DnatRules(c: PortConfig, count: nat): seq<Rule>
    requires count <= |c.mappings|
  {
    seq(count, i requires 0 <= i < count =>
      Dnat(c.interfaceIn, c.mappings[i].portIn, Sock(c.mappings[i].ipOut, c.mappings[i].portOut)))
  }

  function SnatRules(c: PortConfig, count: nat): seq<Rule>
    requires count <= |c.mappings|
  {
    seq(count, i requires 0 <= i < count => Snat(c.interfaceOut, c.mappings[i].portOut, c.ipSource))
  }

  // One DNAT rule per mapping, then one SNAT rule per mapping.
  function RulesOf(c: PortConfig): seq<Rule>
  {
    DnatRules(c, |c.mappings|) + SnatRules(c, |c.mappings|)
  }

  // The first PREROUTING rule that a packet meets.
  function FirstDnat(rules: seq<Rule>, iface: string, dport: u16): Option<Sock>
  {
    if rules == [] then None
    else if rules[0].Dnat? && rules[0].iface == iface && rules[0].dport == dport then Some(rules[0].to)
    else FirstDnat(rules[1..], iface, dport)
  }

  // The first POSTROUTING rule that a packet meets.
  function FirstSnat(rules: seq<Rule>, iface: string, dport: u16): Option<u32>
  {
    if rules == [] then None
    else if rules[0].Snat? && rules[0].iface == iface && rules[0].dport == dport then Some(rules[0].source)
    else FirstSnat(rules[1..], iface, dport)
  }

  lemma {:induction false} FirstDnatAt(rules: seq<Rule>, k: nat)
    requires k < |rules| && rules[k].Dnat?
    requires forall j | 0 <= j < k :: rules[j].Dnat? ==> rules[j].iface != rules[k].iface || rules[j].dport != rules[k].dport
    ensures FirstDnat(rules, rules[k].iface, rules[k].dport) == Some(rules[k].to)
  {
    if k > 0 {
      assert rules[1..][k - 1] == rules[k];
      FirstDnatAt(rules[1..], k - 1);
    }
  }

  lemma {:induction false} FirstSnatFrom(rules: seq<Rule>, k: nat, source: u32)
    requires k < |rules| && rules[k].Snat?
    requires forall j | 0 <= j < |rules| :: rules[j].Snat? ==> rules[j].source == source
    ensures FirstSnat(rules, rules[k].iface, rules[k].dport) == Some(source)
  {
    if k > 0 {
      assert rules[1..][k - 1] == rules[k];
      FirstSnatFrom(rules[1..], k - 1, source);
    }
  }

  /** Return path: whatever mapping a packet was translated by, on leaving through the WireGuard interface
      the first matching rule gives it the network's first address, also when mappings share a port. */
  lemma ReturnPath(n: NetworkState, i: nat)
    requires i < |PortMappings(n)|
    ensures FirstSnat(RulesOf(PortConfigOf(n)), WgName(n.listenPort), PortMappings(n)[i].sock.port) == Some(n.address[0].addr)
  {
    var c := PortConfigOf(n);
    FirstSnatFrom(RulesOf(c), |c.mappings| + i, c.ipSource);
  }

  /** The first rule met at the port of mapping i is that of mapping i modulo 65536, so with at most 65536
      mappings each mapped port is translated to the backend of its own mapping. */
  lemma ForwardPath(n: NetworkState, i: nat)
    requires i < |PortMappings(n)|
    ensures FirstDnat(RulesOf(PortConfigOf(n)), VethName(n.listenPort), PortMappings(n)[i].port)
         == Some(PortMappings(n)[i % U16].sock)
  {
    MappedPortLimits(U16);
    assert MappedPort(i) == MappedPort(i % U16);
    FirstDnatAt(RulesOf(PortConfigOf(n)), i % U16);
  }

  /*** The rendered text ***/

  function Dotted(ip: u32): string
  {
    Join(DottedParts(ip), '.')
  }

  function SockText(s: Sock): string { Join([Dotted(s.ip), Decimal(s.port)], ':') }

  function Words(r: Rule): seq<string>
  {
    match r
    case Dnat(iface, dport, to) =>
      ["-A", "PREROUTING", "-i", iface, "-p", "tcp", "-m", "tcp", "--dport", Decimal(dport), "-j", "DNAT", "--to-destination", SockText(to)]
    case Snat(iface, dport, source) =>
      ["-A", "POSTROUTING", "-o", iface, "-p", "tcp", "-m", "tcp", "--dport", Decimal(dport), "-j", "SNAT", "--to-source", Dotted(source)]
  }

  function RuleLine(r: Rule): string { Join(Words(r), ' ') }

  function RuleLines(rules: seq<Rule>): (lines: seq<string>)
    ensures |lines| == |rules| && forall i | 0 <= i < |rules| :: lines[i] == RuleLine(rules[i])
  {
    seq(|rules|, i requires 0 <= i < |rules| => RuleLine(rules[i]))
  }

  const HEADER: seq<string> :=
    ["*nat", ":PREROUTING ACCEPT [0:0]", ":INPUT ACCEPT [0:0]", ":OUTPUT ACCEPT [0:0]", ":POSTROUTING ACCEPT [0:0]"]

  function SaveLines(rules: seq<Rule>): seq<string> { HEADER + RuleLines(rules) + ["COMMIT"] }

  function Unlines(lines: seq<string>): string { Join(lines, NEWLINE) + [NEWLINE] }

  function Render(rules: seq<Rule>): string { Unlines(SaveLines(rules)) }

  // Interface names are made of visible characters, lines of printable ones.
  predicate Plain(s: string) { forall i | 0 <= i < |s| :: s[i] > ' ' }

  predicate Printable(s: string) { forall i | 0 <= i < |s| :: s[i] >= ' ' }

  ghost predicate PlainRules(rules: seq<Rule>)
  {
    forall i | 0 <= i < |rules| :: Plain(rules[i].iface)
  }

  lemma {:induction false} JoinPrintable(parts: seq<string>, sep: char)
    ensures (forall i | 0 <= i < |parts| :: Plain(parts[i])) && sep > ' ' ==> Plain(Join(parts, sep))
    ensures (forall i | 0 <= i < |parts| :: Printable(parts[i])) && sep >= ' ' ==> Printable(Join(parts, sep))
  {
    if |parts| > 1 {
      JoinPrintable(parts[1..], sep);
    }
  }

  lemma {:induction false} JoinFree(parts: seq<string>, sep: char, c: char)
    requires AllFree(parts, c) && sep != c
    ensures Free(Join(parts, sep), c)
  {
    if |parts| > 1 {
      JoinFree(parts[1..], sep, c);
    }
  }

  lemma {:induction false} JoinEnd(parts: seq<string>, sep: char)
    requires parts != [] && parts[|parts| - 1] != ""
    ensures var s := Join(parts, sep); s != "" && s[|s| - 1] == parts[|parts| - 1][|parts[|parts| - 1]| - 1]
  {
    if |parts| > 1 {
      JoinEnd(parts[1..], sep);
    }
  }

  function DottedParts(ip: u32): seq<string>
  {
    [Decimal(ip / 0x100_0000), Decimal(ip / 0x1_0000 % 0x100), Decimal(ip / 0x100 % 0x100), Decimal(ip % 0x100)]
  }

  lemma DottedShape(ip: u32)
    ensures Dotted(ip) != "" && IsDigit(Dotted(ip)[|Dotted(ip)| - 1])
    ensures Plain(Dotted(ip)) && Free(Dotted(ip), ':')
  {
    JoinEnd(DottedParts(ip), '.');
    JoinPrintable(DottedParts(ip), '.');
    JoinFree(DottedParts(ip), '.', ':');
  }

  lemma SockTextShape(s: Sock)
    ensures SockText(s) != "" && IsDigit(SockText(s)[|SockText(s)| - 1])
    ensures Plain(SockText(s))
  {
    DottedShape(s.ip);
    JoinEnd([Dotted(s.ip), Decimal(s.port)], ':');
    JoinPrintable([Dotted(s.ip), Decimal(s.port)], ':');
  }

  lemma TopBytes(a: u32)
    ensures a / 0x1_0000 == a / 0x100_0000 * 0x100 + a / 0x1_0000 % 0x100
    ensures a / 0x100 == a / 0x1_0000 * 0x100 + a / 0x100 % 0x100
  {
  }

  lemma LiteralsPlain()
    ensures Plain("-A") && Plain("PREROUTING") && Plain("POSTROUTING") && Plain("-i") && Plain("-o")
    ensures Plain("-p") && Plain("tcp") && Plain("-m") && Plain("--dport") && Plain("-j")
    ensures Plain("DNAT") && Plain("SNAT") && Plain("--to-destination") && Plain("--to-source")
  {
  }

  lemma WordsPlain(r: Rule)
    requires Plain(r.iface)
    ensures forall i | 0 <= i < |Words(r)| :: Plain(Words(r)[i])
  {
    LiteralsPlain();
    match r
    case Dnat(iface, dport, to) => SockTextShape(to); assert Plain(Words(r)[13]);
    case Snat(iface, dport, source) => DottedShape(source); assert Plain(Words(r)[13]);
  }

  lemma RuleLineShape(r: Rule)
    requires Plain(r.iface)
    ensures Printable(RuleLine(r))
    ensures RuleLine(r) != "" && RuleLine(r)[0] == '-' && IsDigit(RuleLine(r)[|RuleLine(r)| - 1])
  {
    WordsPlain(r);
    JoinPrintable(Words(r), ' ');
    JoinEnd(Words(r), ' ');
    match r
    case Dnat(iface, dport, to) => SockTextShape(to);
    case Snat(iface, dport, source) => DottedShape(source);
  }

  lemma SaveLinesPrintable(rules: seq<Rule>)
    requires PlainRules(rules)
    ensures forall i | 0 <= i < |SaveLines(rules)| :: Printable(SaveLines(rules)[i])
  {
    forall i | 0 <= i < |SaveLines(rules)|
      ensures Printable(SaveLines(rules)[i])
    {
      if i < 5 {
        assert Printable(HEADER[i]);
      } else if i < |SaveLines(rules)| - 1 {
        RuleLineShape(rules[i - 5]);
      } else {
        assert Printable("COMMIT");
      }
    }
  }

  lemma PrintableFree(lines: seq<string>)
    requires forall i | 0 <= i < |lines| :: Printable(lines[i])
    ensures AllFree(lines, NEWLINE) && AllFree(lines, RETURN)
  {
  }

  /*** Reading a NAT text ***/

  // An address of four bytes, the first one the most significant.
  function ReadBytes(b: seq<string>): Option<u32>
  {
    if |b| == 4 && IsNumber(b[0], 256) && IsNumber(b[1], 256) && IsNumber(b[2], 256) && IsNumber(b[3], 256)
    then Some(Quad(Parse(b[0]), Parse(b[1]), Parse(b[2]), Parse(b[3])))
    else None
  }

  function Quad(a: byte, b: byte, c: byte, d: byte): u32 { ((a * 256 + b) * 256 + c) * 256 + d }

  function ReadIp(s: string): Option<u32> { ReadBytes(Split(s, '.')) }

  function ReadSock(s: string): Option<Sock>
  {
    var p := Split(s, ':');
    if |p| == 2 && ReadIp(p[0]).Some? && IsNumber(p[1], 65536) then Some(Sock(ReadIp(p[0]).value, Parse(p[1]))) else None
  }

  // What all rules have in common.
  predicate TcpRule(w: seq<string>)
  {
    && |w| == 14 && w[0] == "-A" && w[4] == "-p" && w[5] == "tcp" && w[6] == "-m" && w[7] == "tcp" && w[8] == "--dport"
    && IsNumber(w[9], 65536) && w[10] == "-j"
  }

  function ReadWords(w: seq<string>): Option<Rule>
  {
    if !TcpRule(w) then None
    else if w[1] == "PREROUTING" && w[2] == "-i" && w[11] == "DNAT" && w[12] == "--to-destination" then
      (if ReadSock(w[13]).Some? then Some(Dnat(w[3], Parse(w[9]), ReadSock(w[13]).value)) else None)
    else if w[1] == "POSTROUTING" && w[2] == "-o" && w[11] == "SNAT" && w[12] == "--to-source" then
      (if ReadIp(w[13]).Some? then Some(Snat(w[3], Parse(w[9]), ReadIp(w[13]).value)) else None)
    else None
  }

  function ReadRule(line: string): Option<Rule> { ReadWords(Split(line, ' ')) }

  // Rules up to the line that commits them.
  function ReadRules(lines: seq<string>): Option<seq<Rule>>
  {
    if lines == [] then None
    else if |lines| == 1 then (if lines[0] == "COMMIT" then Some([]) else None)
    else
      var first, rest := ReadRule(lines[0]), ReadRules(lines[1..]);
      if first.Some? && rest.Some? then Some([first.value] + rest.value) else None
  }

  // The NAT table and its four chains.
  predicate NatHeader(lines: seq<string>)
    requires |lines| >= 5
  {
    && lines[0] == "*nat" && lines[1] == ":PREROUTING ACCEPT [0:0]" && lines[2] == ":INPUT ACCEPT [0:0]"
    && lines[3] == ":OUTPUT ACCEPT [0:0]" && lines[4] == ":POSTROUTING ACCEPT [0:0]"
  }

  // The NAT table, then the rules; each line ended.
  function Read(text: string): Option<seq<Rule>>
  {
    var lines := Split(text, NEWLINE);
    var n := |lines| - 1;
    if n >= 5 && lines[n] == "" && NatHeader(lines) then ReadRules(lines[5..n]) else None
  }

  lemma BytesJoin(ip: u32)
    ensures Quad(ip / 0x100_0000, ip / 0x1_0000 % 0x100, ip / 0x100 % 0x100, ip % 0x100) == ip
  {
    TopBytes(ip);
  }

  lemma BytesRead(parts: seq<string>, a: byte, b: byte, c: byte, d: byte)
    requires |parts| == 4 && parts[0] == Decimal(a) && parts[1] == Decimal(b) && parts[2] == Decimal(c) && parts[3] == Decimal(d)
    ensures ReadBytes(parts) == Some(Quad(a, b, c, d))
  {
    NumberRead(a, 256);
    NumberRead(b, 256);
    NumberRead(c, 256);
    NumberRead(d, 256);
  }

  lemma IpRead(ip: u32)
    ensures ReadIp(Dotted(ip)) == Some(ip)
  {
    SplitJoin(DottedParts(ip), '.');
    BytesRead(DottedParts(ip), ip / 0x100_0000, ip / 0x1_0000 % 0x100, ip / 0x100 % 0x100, ip % 0x100);
    BytesJoin(ip);
  }

  lemma SockRead(s: Sock)
    ensures ReadSock(SockText(s)) == Some(s)
  {
    DottedShape(s.ip);
    SplitJoin([Dotted(s.ip), Decimal(s.port)], ':');
    IpRead(s.ip);
    NumberRead(s.port, 65536);
  }

  lemma DnatRead(r: Rule)
    requires r.Dnat?
    ensures ReadWords(Words(r)) == Some(r)
  {
    TcpWords(r);
    NumberRead(r.dport, 65536);
    SockRead(r.to);
  }

  lemma TcpWords(r: Rule)
    ensures TcpRule(Words(r))
  {
    NumberRead(r.dport, 65536);
  }

  lemma SnatRead(r: Rule)
    requires r.Snat?
    ensures ReadWords(Words(r)) == Some(r)
  {
    TcpWords(r);
    NumberRead(r.dport, 65536);
    IpRead(r.source);
    assert |"PREROUTING"| != |"POSTROUTING"|;
  }

  lemma RuleRead(r: Rule)
    requires Plain(r.iface)
    ensures IsRule(RuleLine(r), r)
  {
    WordsPlain(r);
    SplitJoin(Words(r), ' ');
    if r.Dnat? { DnatRead(r); } else { SnatRead(r); }
  }

  predicate IsRule(line: string, r: Rule) { ReadRule(line) == Some(r) }

  lemma {:induction false} RulesRead(lines: seq<string>, rules: seq<Rule>)
    requires |lines| == |rules| && forall i | 0 <= i < |rules| :: IsRule(lines[i], rules[i])
    ensures ReadRules(lines + ["COMMIT"]) == Some(rules)
  {
    if lines == [] {
      assert lines + ["COMMIT"] == ["COMMIT"];
    } else {
      assert IsRule(lines[0], rules[0]);
      RulesRead(lines[1..], rules[1..]);
      assert (lines + ["COMMIT"])[1..] == lines[1..] + ["COMMIT"];
      assert [rules[0]] + rules[1..] == rules;
    }
  }

  lemma LinesRead(lines: seq<string>, rules: seq<Rule>)
    requires |lines| > 5 && AllFree(lines, NEWLINE) && NatHeader(lines) && ReadRules(lines[5..]) == Some(rules)
    ensures Read(Unlines(lines)) == Some(rules)
  {
    PiecesOfUnlines(lines);
    assert (lines + [""])[5..|lines|] == lines[5..];
  }

  lemma {:induction false} JoinClosed(lines: seq<string>, sep: char)
    requires lines != []
    ensures Join(lines, sep) + [sep] == Join(lines + [""], sep)
  {
    assert (lines + [""])[1..] == lines[1..] + [""];
    if |lines| > 1 {
      JoinClosed(lines[1..], sep);
    } else {
      assert Join([""], sep) == "";
      assert lines[0] + [sep] == lines[0] + [sep] + "";
    }
  }

  lemma PiecesOfUnlines(lines: seq<string>)
    requires AllFree(lines, NEWLINE) && lines != []
    ensures Split(Unlines(lines), NEWLINE) == lines + [""]
  {
    JoinClosed(lines, NEWLINE);
    SplitJoin(lines + [""], NEWLINE);
  }

  /** Reading back written lines gives the lines, without a return at their end. */
  /** Reading the rendered text gives back the rules. */
  lemma ReadRender(rules: seq<Rule>)
    requires PlainRules(rules)
    ensures Read(Render(rules)) == Some(rules)
  {
    SaveLinesPrintable(rules);
    PrintableFree(SaveLines(rules));
    SaveLinesRead(rules);
    LinesRead(SaveLines(rules), rules);
  }

  lemma SaveLinesRead(rules: seq<Rule>)
    requires PlainRules(rules)
    ensures |SaveLines(rules)| > 5 && NatHeader(SaveLines(rules)) && ReadRules(SaveLines(rules)[5..]) == Some(rules)
  {
    var lines := RuleLines(rules);
    forall i | 0 <= i < |rules| ensures IsRule(lines[i], rules[i]) { RuleRead(rules[i]); }
    RulesRead(lines, rules);
    Headed(HEADER, lines + ["COMMIT"]);
    assert HEADER + lines + ["COMMIT"] == HEADER + (lines + ["COMMIT"]);
  }

  lemma Headed(header: seq<string>, rest: seq<string>)
    requires |header| == 5 && NatHeader(header)
    ensures NatHeader(header + rest) && (header + rest)[5..] == rest
  {
  }

  /** The rendered text determines the rule list. */
  lemma RenderInjective(a: seq<Rule>, b: seq<Rule>)
    requires PlainRules(a) && PlainRules(b) && Render(a) == Render(b)
    ensures a == b
  {
    ReadRender(a);
    ReadRender(b);
  }

  lemma NetworkRulesPlain(n: NetworkState)
    ensures PlainRules(RulesOf(PortConfigOf(n)))
  {
    assert Plain(VethName(n.listenPort)) && Plain(WgName(n.listenPort));
  }
}
