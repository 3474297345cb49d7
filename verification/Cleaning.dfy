/** Cleaning of saved NAT rules, so that they can be compared with rendered ones (src/gateway.rs). */
module Cleaning {
  import opened Basics
  import opened Text
  import opened Iptables

  function StripReturn(line: string): string
  {
    if line != "" && line[|line| - 1] == RETURN then line[..|line| - 1] else line
  }

  function StripAll(lines: seq<string>): (r: seq<string>)
    ensures |r| == |lines| && forall i | 0 <= i < |r| :: r[i] == StripReturn(lines[i])
  {
    seq(|lines|, i requires 0 <= i < |lines| => StripReturn(lines[i]))
  }

  // Line ends are "\n" or "\r\n"; the empty piece after the last line end is no line.
  function Lines(text: string): seq<string>
  {
    var pieces := Split(text, NEWLINE);
    var last := pieces[|pieces| - 1];
    StripAll(pieces[..|pieces| - 1]) + if last == "" then [] else [last]
  }

  // A packet counter: [packets:bytes].
  predicate IsCounter(s: string)
  {
    && |s| >= 5 && s[0] == '[' && s[|s| - 1] == ']'
    && exists c :: 2 <= c < |s| - 2 && s[c] == ':' && AllDigits(s[1..c]) && AllDigits(s[c + 1..|s| - 1])
  }

  function CounterStart(line: string, i: nat): (r: nat)
    requires i <= |line|
    ensures i <= r <= |line|
    ensures r < |line| ==> IsCounter(line[r..])
    ensures forall j | i <= j < r :: !IsCounter(line[j..])
    decreases |line| - i
  {
    if i == |line| || IsCounter(line[i..]) then i else CounterStart(line, i + 1)
  }

  const ZERO_COUNTER := "[0:0]"

  // A trailing packet counter set to zero.
  function Fix(line: string): string
  {
    var i := CounterStart(line, 0);
    if i < |line| then line[..i] + ZERO_COUNTER else line
  }

  predicate Significant(line: string) { line != "" && line[0] != '#' }

  function Normal(lines: seq<string>): seq<string>
  {
    if lines == [] then []
    else (if Significant(lines[0]) then [Fix(lines[0])] else []) + Normal(lines[1..])
  }

  function Clean(text: string): string { Unlines(Normal(Lines(text))) }

  lemma ZeroIsCounter()
    ensures IsCounter(ZERO_COUNTER)
  {
    var s := ZERO_COUNTER;
    assert s[1..2] == "0" && s[3..4] == "0";
    assert s[2] == ':' && AllDigits(s[1..2]) && AllDigits(s[2 + 1..|s| - 1]);
  }

  lemma CounterInside(s: string, i: nat)
    requires IsCounter(s) && 0 < i < |s|
    ensures s[i] != '['
  {
    var c :| 2 <= c < |s| - 2 && s[c] == ':' && AllDigits(s[1..c]) && AllDigits(s[c + 1..|s| - 1]);
    if 0 < i < c { assert s[i] == s[1..c][i - 1]; }
    if c < i < |s| - 1 { assert s[i] == s[c + 1..|s| - 1][i - c - 1]; }
  }

  lemma FixIdempotent(line: string)
    ensures Fix(Fix(line)) == Fix(line)
  {
    var i := CounterStart(line, 0);
    if i < |line| {
      var next := Fix(line);
      assert next[i..] == ZERO_COUNTER;
      ZeroIsCounter();
      var j := CounterStart(next, 0);
      if j < i {
        assert next[j..][i - j] == '[';
        CounterInside(next[j..], i - j);
      }
      assert j == i;
      assert next[..i] == line[..i];
    }
  }

  lemma FixShape(line: string)
    ensures |Fix(line)| <= |line|
    ensures Significant(line) ==> Significant(Fix(line))
    ensures forall c | c == NEWLINE || c == RETURN :: Free(line, c) ==> Free(Fix(line), c)
    ensures line != "" && line[|line| - 1] != ']' ==> Fix(line) == line
  {
    var i := CounterStart(line, 0);
    if i < |line| {
      assert line[i..][|line| - i - 1] == line[|line| - 1];
    }
  }

  lemma NormalCons(line: string, rest: seq<string>)
    ensures Normal([line] + rest) == (if Significant(line) then [Fix(line)] else []) + Normal(rest)
  {
    assert ([line] + rest)[1..] == rest;
  }

  // Cleaning keeps such a line as it is.
  predicate Kept(line: string) { Significant(line) && Fix(line) == line }

  lemma {:induction false} NormalShape(lines: seq<string>)
    ensures forall i | 0 <= i < |Normal(lines)| :: Kept(Normal(lines)[i])
  {
    if lines != [] {
      var rest := Normal(lines[1..]);
      NormalShape(lines[1..]);
      FixShape(lines[0]);
      FixIdempotent(lines[0]);
      forall i | 0 <= i < |Normal(lines)|
        ensures Kept(Normal(lines)[i])
      {
        if Significant(lines[0]) && i > 0 {
          assert Normal(lines)[i] == rest[i - 1];
        }
      }
    }
  }

  lemma FreeFront(first: string, rest: seq<string>, c: char)
    requires Free(first, c) && AllFree(rest, c)
    ensures AllFree([first] + rest, c)
  {
  }

  lemma {:induction false} NormalKeepsFree(lines: seq<string>, c: char)
    requires AllFree(lines, c) && (c == NEWLINE || c == RETURN)
    ensures AllFree(Normal(lines), c)
  {
    if lines != [] {
      var first, rest := lines[0], lines[1..];
      assert lines == [first] + rest && Free(first, c);
      NormalKeepsFree(rest, c);
      FixShape(first);
      NormalCons(first, rest);
      if Significant(first) { FreeFront(Fix(first), Normal(rest), c); } else { assert [] + Normal(rest) == Normal(rest); }
    }
  }

  ghost predicate AllKept(lines: seq<string>) { forall i | 0 <= i < |lines| :: Kept(lines[i]) }

  lemma {:induction false} NormalOfNormal(lines: seq<string>)
    requires AllKept(lines)
    ensures Normal(lines) == lines
  {
    if lines != [] {
      var first, rest := lines[0], lines[1..];
      assert Kept(first) && AllKept(rest);
      NormalOfNormal(rest);
      KeptFirst(first, rest);
      assert [first] + rest == lines;
    }
  }

  lemma KeptFirst(first: string, rest: seq<string>)
    ensures Kept(first) ==> Normal([first] + rest) == [first] + Normal(rest)
  {
    NormalCons(first, rest);
  }

  lemma {:induction false} NormalSplit(a: seq<string>, b: seq<string>)
    ensures Normal(a + b) == Normal(a) + Normal(b)
  {
    if a == [] {
      assert a + b == b;
    } else {
      var first, rest := a[0], a[1..];
      var head := if Significant(first) then [Fix(first)] else [];
      calc {
        Normal(a + b);
        { assert a + b == [first] + (rest + b); }
        Normal([first] + (rest + b));
        { NormalCons(first, rest + b); }
        head + Normal(rest + b);
        { NormalSplit(rest, b); }
        head + (Normal(rest) + Normal(b));
        head + Normal(rest) + Normal(b);
        { NormalCons(first, rest); assert a == [first] + rest; }
        Normal(a) + Normal(b);
      }
    }
  }

  lemma LinesFree(text: string)
    ensures AllFree(Lines(text), NEWLINE)
  {
  }

  lemma LinesOfUnlines(lines: seq<string>)
    requires AllFree(lines, NEWLINE)
    ensures Normal(Lines(Unlines(lines))) == Normal(StripAll(lines))
    ensures lines != [] ==> Lines(Unlines(lines)) == StripAll(lines)
  {
    if lines == [] {
      NoLines();
    } else {
      PiecesOfUnlines(lines);
      assert (lines + [""])[..|lines|] == lines;
      assert StripAll(lines) + [] == StripAll(lines);
    }
  }

  lemma NoLines()
    ensures Normal(Lines(Unlines([]))) == [] == Normal(StripAll([]))
  {
    assert Unlines([]) == Join(["", ""], NEWLINE);
    SplitJoin(["", ""], NEWLINE);
    assert ["", ""][..1] == [""];
    assert Lines(Unlines([])) == [""];
    NormalCons("", []);
    assert [""] + [] == [""];
    assert StripAll([]) == [];
  }

  lemma {:induction false} UnlinesInjective(a: seq<string>, b: seq<string>)
    requires AllFree(a, NEWLINE) && AllFree(b, NEWLINE)
    requires forall i | 0 <= i < |a| :: Significant(a[i])
    requires forall i | 0 <= i < |b| :: Significant(b[i])
    requires Unlines(a) == Unlines(b)
    ensures a == b
  {
    assert Join(a, NEWLINE) == Unlines(a)[..|Unlines(a)| - 1] == Join(b, NEWLINE);
    if a != [] && b != [] {
      JoinInjective(a, b, NEWLINE);
    }
  }

  /** Two texts clean alike exactly when their significant lines are the same up to trailing packet counters. */
  lemma CleanMeaning(s: string, t: string)
    ensures Clean(s) == Clean(t) <==> Normal(Lines(s)) == Normal(Lines(t))
  {
    LinesFree(s);
    LinesFree(t);
    NormalShape(Lines(s));
    NormalShape(Lines(t));
    NormalKeepsFree(Lines(s), NEWLINE);
    NormalKeepsFree(Lines(t), NEWLINE);
    if Clean(s) == Clean(t) {
      UnlinesInjective(Normal(Lines(s)), Normal(Lines(t)));
    }
  }

  predicate EndsInReturn(line: string) { line != "" && line[|line| - 1] == RETURN }

  ghost predicate NoneEndsInReturn(lines: seq<string>)
  {
    forall i | 0 <= i < |lines| && Significant(lines[i]) :: !EndsInReturn(lines[i])
  }

  // Once its line end is gone, no line other than a comment ends in a return.
  ghost predicate NoTrailingReturn(text: string) { NoneEndsInReturn(Lines(text)) }

  lemma FixKeepsEnd(line: string)
    ensures EndsInReturn(Fix(line)) <==> EndsInReturn(line)
  {
    FixShape(line);
  }

  lemma {:induction false} NormalKeepsEnds(lines: seq<string>)
    ensures NoneEndsInReturn(Normal(lines)) <==> NoneEndsInReturn(lines)
  {
    if lines != [] {
      var first, rest := lines[0], lines[1..];
      NormalKeepsEnds(rest);
      FixKeepsEnd(first);
      FixShape(first);
      assert lines == [first] + rest;
      EndsFront(first, rest);
      if Significant(first) {
        EndsFront(Fix(first), Normal(rest));
      } else {
        assert [] + Normal(rest) == Normal(rest);
      }
    }
  }

  lemma EndsFront(first: string, rest: seq<string>)
    ensures NoneEndsInReturn([first] + rest)
      <==> (Significant(first) ==> !EndsInReturn(first)) && NoneEndsInReturn(rest)
  {
    var all := [first] + rest;
    assert forall i | 0 <= i < |rest| :: rest[i] == all[i + 1];
    assert all[0] == first;
  }

  lemma {:induction false} NormalShorter(lines: seq<string>)
    ensures |Normal(lines)| <= |lines|
    ensures |Normal(lines)| == |lines| ==> forall i | 0 <= i < |lines| :: Normal(lines)[i] == Fix(lines[i])
  {
    if lines != [] {
      NormalShorter(lines[1..]);
    }
  }

  /** Cleaning is idempotent exactly on the texts in which no line other than a comment ends in a return, once
      its line end is gone. */
  lemma CleanIdempotent(text: string)
    ensures Clean(Clean(text)) == Clean(text) <==> NoTrailingReturn(text)
  {
    var lines := Normal(Lines(text));
    LinesFree(text);
    NormalShape(Lines(text));
    NormalKeepsFree(Lines(text), NEWLINE);
    NormalKeepsEnds(Lines(text));
    LinesOfUnlines(lines);
    CleanMeaning(Clean(text), text);
    if NoTrailingReturn(text) {
      assert StripAll(lines) == lines;
      NormalOfNormal(lines);
    } else {
      var i :| 0 <= i < |lines| && EndsInReturn(lines[i]);
      NormalShorter(StripAll(lines));
      FixShape(StripReturn(lines[i]));
      assert |Fix(StripAll(lines)[i])| < |lines[i]|;
    }
  }

  /** In particular it is idempotent on every text without carriage returns. */
  lemma CleanIdempotentWithoutReturns(text: string)
    requires Free(text, RETURN)
    ensures Clean(Clean(text)) == Clean(text)
  {
    SplitKeepsFree(text, NEWLINE, RETURN);
    assert AllFree(Lines(text), RETURN);
    NormalKeepsFree(Lines(text), RETURN);
    forall i | 0 <= i < |Lines(text)| ensures !EndsInReturn(Lines(text)[i]) {
      assert Free(Lines(text)[i], RETURN);
    }
    CleanIdempotent(text);
  }

  lemma {:induction false} SplitKeepsFree(s: string, sep: char, c: char)
    requires Free(s, c)
    ensures AllFree(Split(s, sep), c)
  {
    if s != "" {
      SplitKeepsFree(s[1..], sep, c);
      assert s[0] in s;
      assert Free(Split(s[1..], sep)[0], c);
    }
  }

  lemma CleanOneLine(line: string)
    requires Free(line, NEWLINE)
    ensures Kept(StripReturn(line)) ==> Clean(line + [NEWLINE]) == StripReturn(line) + [NEWLINE]
  {
    var kept := StripReturn(line);
    assert AllFree([line], NEWLINE);
    LinesOfUnlines([line]);
    assert Unlines([line]) == line + [NEWLINE];
    assert StripAll([line]) == [kept];
    NormalCons(kept, []);
    assert [kept] + [] == [kept];
  }

  /** A text with two returns before a line end is cleaned further by a second pass. */
  lemma ReturnsBreakIdempotence()
    ensures Clean("a\r\r\n") == "a\r\n" && Clean(Clean("a\r\r\n")) == "a\n"
  {
    assert StripReturn("a\r\r") == "a\r" && StripReturn("a\r") == "a";
    FixShape("a\r");
    FixShape("a");
    CleanOneLine("a\r\r");
    CleanOneLine("a\r");
    assert "a\r\r" + [NEWLINE] == "a\r\r\n" && "a\r" + [NEWLINE] == "a\r\n" && "a" + [NEWLINE] == "a\n";
  }

  // Lines that cleaning drops, and lines that it makes the same.
  predicate Noise(line: string) { !Significant(StripReturn(line)) }

  predicate Alike(line: string, variant: string)
  {
    Significant(StripReturn(line)) && Significant(StripReturn(variant)) && Fix(StripReturn(line)) == Fix(StripReturn(variant))
  }

  /** Comments, blank lines and the values of trailing packet counters do not show in the cleaned text. */
  lemma CleanIsBlind(before: seq<string>, noise: string, line: string, variant: string, after: seq<string>)
    requires AllFree(before, NEWLINE) && AllFree(after, NEWLINE)
    requires Free(noise, NEWLINE) && Free(line, NEWLINE) && Free(variant, NEWLINE)
    ensures Noise(noise) && Alike(line, variant) ==>
      Clean(Unlines(before + [noise, line] + after)) == Clean(Unlines(before + [variant] + after))
  {
    var x, y := before + [noise, line] + after, before + [variant] + after;
    assert AllFree(x, NEWLINE) && AllFree(y, NEWLINE);
    LinesOfUnlines(x);
    LinesOfUnlines(y);
    NormalIsBlind(before, noise, line, variant, after);
  }

  lemma NormalIsBlind(before: seq<string>, noise: string, line: string, variant: string, after: seq<string>)
    ensures Noise(noise) && Alike(line, variant) ==>
      Normal(StripAll(before + [noise, line] + after)) == Normal(StripAll(before + [variant] + after))
  {
    if Noise(noise) && Alike(line, variant) {
      var b, a := StripAll(before), StripAll(after);
      var n, l, v := StripReturn(noise), StripReturn(line), StripReturn(variant);
      StripParts(before, noise, line, variant, after);
      calc {
        Normal(b + ([n] + ([l] + a)));
        { NormalSkips(b, n, l, a); }
        Normal(b + ([l] + a));
        { NormalLine(b, l, a); NormalLine(b, v, a); }
        Normal(b + ([v] + a));
      }
    }
  }

  lemma StripParts(before: seq<string>, noise: string, line: string, variant: string, after: seq<string>)
    ensures var b, a, n, l, v := StripAll(before), StripAll(after), StripReturn(noise), StripReturn(line), StripReturn(variant);
      && StripAll(before + [noise, line] + after) == b + ([n] + ([l] + a))
      && StripAll(before + [variant] + after) == b + ([v] + a)
  {
  }

  lemma NormalLine(before: seq<string>, line: string, after: seq<string>)
    requires Significant(line)
    ensures Normal(before + ([line] + after)) == Normal(before) + ([Fix(line)] + Normal(after))
  {
    NormalSplit(before, [line] + after);
    NormalCons(line, after);
  }

  lemma NormalSkips(before: seq<string>, noise: string, line: string, after: seq<string>)
    requires !Significant(noise)
    ensures Normal(before + ([noise] + ([line] + after))) == Normal(before + ([line] + after))
  {
    NormalSplit(before, [noise] + ([line] + after));
    NormalSplit(before, [line] + after);
    NormalCons(noise, [line] + after);
    assert [] + Normal([line] + after) == Normal([line] + after);
  }

  lemma HeaderFixed(i: nat)
    requires i < 5
    ensures Significant(HEADER[i]) && Fix(HEADER[i]) == HEADER[i]
  {
    var line := HEADER[i];
    if i == 0 {
      FixShape(line);
    } else {
      var stem := line[..|line| - 5];
      assert line == stem + ZERO_COUNTER;
      assert line[|stem|..] == ZERO_COUNTER;
      ZeroIsCounter();
      var j := CounterStart(line, 0);
      if j < |stem| {
        assert line[j..][|stem| - j] == '[';
        CounterInside(line[j..], |stem| - j);
      }
    }
  }

  lemma RuleLineFixed(r: Rule)
    requires Plain(r.iface)
    ensures Significant(RuleLine(r)) && Fix(RuleLine(r)) == RuleLine(r)
  {
    RuleLineShape(r);
    FixShape(RuleLine(r));
  }

  lemma CommitFixed()
    ensures Significant("COMMIT") && Fix("COMMIT") == "COMMIT"
  {
    FixShape("COMMIT");
  }

  lemma PrintableStays(line: string)
    requires Printable(line)
    ensures StripReturn(line) == line
  {
  }

  lemma SaveLineFixed(rules: seq<Rule>, i: nat)
    requires PlainRules(rules) && i < |SaveLines(rules)|
    ensures Significant(SaveLines(rules)[i]) && Fix(SaveLines(rules)[i]) == SaveLines(rules)[i]
    ensures StripReturn(SaveLines(rules)[i]) == SaveLines(rules)[i]
  {
    SaveLinesPrintable(rules);
    PrintableStays(SaveLines(rules)[i]);
    if i < 5 {
      assert SaveLines(rules)[i] == HEADER[i];
      HeaderFixed(i);
    } else if i < |SaveLines(rules)| - 1 {
      assert SaveLines(rules)[i] == RuleLine(rules[i - 5]);
      RuleLineFixed(rules[i - 5]);
    } else {
      assert SaveLines(rules)[i] == "COMMIT";
      CommitFixed();
    }
  }

  /** The rendered text is a fixed point of cleaning. */
  lemma RenderIsClean(rules: seq<Rule>)
    requires PlainRules(rules)
    ensures Clean(Render(rules)) == Render(rules)
  {
    var lines := SaveLines(rules);
    assert AllFree(lines, NEWLINE) by {
      SaveLinesPrintable(rules);
      PrintableFree(lines);
    }
    LinesOfUnlines(lines);
    forall i | 0 <= i < |lines|
      ensures Significant(lines[i]) && Fix(lines[i]) == lines[i] && StripReturn(lines[i]) == lines[i]
    {
      SaveLineFixed(rules, i);
    }
    assert StripAll(lines) == lines;
    NormalOfNormal(lines);
  }

  /** A saved text holds the rules that are read from it once it is cleaned. */
  ghost predicate Holds(saved: string, rules: seq<Rule>) { Read(Clean(saved)) == Some(rules) }
}
