/** What cleaning makes of a saved NAT text, line by line, as the text is spelled. */
module SavedText {
  import opened Text
  import opened Iptables
  import opened Cleaning

  // A line of a saved text: nothing, a comment, or anything else, with a trailing packet counter or without.
  datatype SavedLine = Blank | Comment(text: string) | Plainly(text: string) | Counted(stem: string, packets: string, bytes: string)

  function Spell(l: SavedLine): string
  {
    match l
    case Blank => ""
    case Comment(text) => "#" + text
    case Plainly(text) => text
    case Counted(stem, packets, bytes) => stem + Counter(packets, bytes)
  }

  function Counter(packets: string, bytes: string): string { "[" + packets + ":" + bytes + "]" }

  ghost predicate EndsInCounter(s: string)
  {
    exists stem, packets, bytes :: AllDigits(packets) && AllDigits(bytes) && s == stem + Counter(packets, bytes)
  }

  // The line is of its kind and of no other, and has no line end inside.
  ghost predicate Proper(l: SavedLine)
  {
    && Free(Spell(l), NEWLINE)
    && match l
       case Blank => true
       case Comment(_) => true
       case Plainly(text) => text != "" && text[0] != '#' && text[|text| - 1] != RETURN && !EndsInCounter(text)
       case Counted(stem, packets, bytes) => AllDigits(packets) && AllDigits(bytes) && (stem != "" ==> stem[0] != '#')
  }

  // What is left of it.
  function Kept(l: SavedLine): seq<string>
  {
    match l
    case Blank => []
    case Comment(_) => []
    case Plainly(text) => [text]
    case Counted(stem, _, _) => [stem + "[0:0]"]
  }

  function AllKept(lines: seq<SavedLine>): seq<string>
  {
    if lines == [] then [] else Kept(lines[0]) + AllKept(lines[1..])
  }

  // Lines end in "\n" or "\r\n".
  function Ended(l: SavedLine, dos: bool): string { if dos then Spell(l) + [RETURN] else Spell(l) }

  function AllEnded(lines: seq<SavedLine>, dos: bool): (r: seq<string>)
    ensures |r| == |lines| && forall i | 0 <= i < |r| :: r[i] == Ended(lines[i], dos)
  {
    seq(|lines|, i requires 0 <= i < |lines| => Ended(lines[i], dos))
  }

  /*** Proof ***/

  lemma CounterIs(packets: string, bytes: string)
    requires AllDigits(packets) && AllDigits(bytes)
    ensures IsCounter(Counter(packets, bytes))
  {
    var s := Counter(packets, bytes);
    var c := 1 + |packets|;
    assert s[1..c] == packets && s[c + 1..|s| - 1] == bytes && s[c] == ':';
  }

  lemma CounterSpelled(s: string) returns (packets: string, bytes: string)
    requires IsCounter(s)
    ensures AllDigits(packets) && AllDigits(bytes) && s == Counter(packets, bytes)
  {
    var c :| 2 <= c < |s| - 2 && s[c] == ':' && AllDigits(s[1..c]) && AllDigits(s[c + 1..|s| - 1]);
    packets, bytes := s[1..c], s[c + 1..|s| - 1];
  }

  lemma NoneEarlier(stem: string, counter: string, j: nat)
    requires counter != "" && counter[0] == '[' && j < |stem|
    ensures !IsCounter((stem + counter)[j..])
  {
    var rest := (stem + counter)[j..];
    assert rest[|stem| - j] == '[';
    if IsCounter(rest) { CounterInside(rest, |stem| - j); }
  }

  /** A trailing counter is set to zero, whatever its digits. */
  lemma FixCounted(stem: string, packets: string, bytes: string)
    requires AllDigits(packets) && AllDigits(bytes)
    ensures Fix(stem + Counter(packets, bytes)) == stem + "[0:0]"
  {
    var line := stem + Counter(packets, bytes);
    var i := CounterStart(line, 0);
    CounterIs(packets, bytes);
    assert line[|stem|..] == Counter(packets, bytes);
    if i < |stem| { NoneEarlier(stem, Counter(packets, bytes), i); }
    assert line[..|stem|] == stem;
  }

  lemma CounterEnds(line: string, i: nat)
    requires i <= |line| && IsCounter(line[i..])
    ensures EndsInCounter(line)
  {
    var packets, bytes := CounterSpelled(line[i..]);
    assert line == line[..i] + Counter(packets, bytes);
  }

  /** A line without one stays as it is. */
  lemma FixPlainly(line: string)
    requires !EndsInCounter(line)
    ensures Fix(line) == line
  {
    var i := CounterStart(line, 0);
    if i < |line| { CounterEnds(line, i); }
  }

  lemma EndedStripped(l: SavedLine, dos: bool)
    requires Proper(l) && !l.Comment?
    ensures StripReturn(Ended(l, dos)) == Spell(l)
  {
  }

  lemma LineKept(l: SavedLine, dos: bool)
    requires Proper(l)
    ensures Normal([StripReturn(Ended(l, dos))]) == Kept(l)
  {
    var line := StripReturn(Ended(l, dos));
    NormalCons(line, []);
    assert [line] + [] == [line];
    match l
    case Blank => EndedStripped(l, dos);
    case Comment(_) => assert line[0] == '#';
    case Plainly(text) => EndedStripped(l, dos); FixPlainly(text);
    case Counted(stem, packets, bytes) => EndedStripped(l, dos); FixCounted(stem, packets, bytes);
  }

  lemma {:induction false} LinesKept(lines: seq<SavedLine>, dos: bool)
    requires forall i | 0 <= i < |lines| :: Proper(lines[i])
    ensures Normal(StripAll(AllEnded(lines, dos))) == AllKept(lines)
  {
    if lines != [] {
      var first, rest := StripReturn(Ended(lines[0], dos)), StripAll(AllEnded(lines[1..], dos));
      LinesKept(lines[1..], dos);
      LineKept(lines[0], dos);
      assert StripAll(AllEnded(lines, dos)) == [first] + rest;
      NormalSplit([first], rest);
    }
  }

  // The last piece of a text, after its last line end.
  lemma LastKept(l: SavedLine)
    requires Proper(l)
    ensures Normal(if Spell(l) == "" then [] else [Spell(l)]) == Kept(l)
  {
    NormalCons(Spell(l), []);
    assert [Spell(l)] + [] == [Spell(l)];
    match l
    case Blank =>
    case Comment(_) => assert Spell(l)[0] == '#';
    case Plainly(text) => FixPlainly(text);
    case Counted(stem, packets, bytes) => FixCounted(stem, packets, bytes);
  }

  lemma {:induction false} AllKeptAppend(lines: seq<SavedLine>, last: SavedLine)
    ensures AllKept(lines + [last]) == AllKept(lines) + Kept(last)
  {
    if lines == [] {
      assert [last][1..] == [];
    } else {
      assert (lines + [last])[1..] == lines[1..] + [last];
      AllKeptAppend(lines[1..], last);
    }
  }

  lemma PiecesLines(pieces: seq<string>, last: string)
    requires AllFree(pieces, NEWLINE) && Free(last, NEWLINE)
    ensures Lines(Join(pieces + [last], NEWLINE)) == StripAll(pieces) + if last == "" then [] else [last]
  {
    SplitJoin(pieces + [last], NEWLINE);
    assert (pieces + [last])[..|pieces|] == pieces;
  }

  lemma EndedFree(lines: seq<SavedLine>, dos: bool)
    requires forall i | 0 <= i < |lines| :: Proper(lines[i])
    ensures AllFree(AllEnded(lines, dos), NEWLINE)
  {
    forall i | 0 <= i < |lines| ensures Free(AllEnded(lines, dos)[i], NEWLINE) {
      assert Proper(lines[i]);
    }
  }

  /** Cleaning drops blank lines and comments, sets trailing counters to zero and leaves every other line as it is,
      with either kind of line end and whether or not the last line has one. */
  lemma CleanSpelled(lines: seq<SavedLine>, dos: bool, last: SavedLine)
    requires (forall i | 0 <= i < |lines| :: Proper(lines[i])) && Proper(last)
    ensures Clean(Join(AllEnded(lines, dos) + [Spell(last)], NEWLINE)) == Unlines(AllKept(lines + [last]))
  {
    var ended := AllEnded(lines, dos);
    EndedFree(lines, dos);
    PiecesLines(ended, Spell(last));
    LinesKept(lines, dos);
    LastKept(last);
    NormalSplit(StripAll(ended), if Spell(last) == "" then [] else [Spell(last)]);
    AllKeptAppend(lines, last);
  }
}
