/**
 Splitting the location part of a custom configuration again: when it gives nothing for the server block and
 the same location part. Two texts show where the splitting surprises.
 */
module Resplit {
  import opened AdvancedConfig
  import opened GoStrings
  import opened Options

  // ---- splitting the location part again ----

  /** No line goes to the server block. */
  predicate Quiet(lines: seq<string>, depth: int) {
    ServerLines(lines, depth) == []
  }

  lemma {:induction false} QuietKeepsAll(lines: seq<string>, depth: int)
    requires Quiet(lines, depth)
    ensures LocationLines(lines, depth) == lines
  {
    hide ToServer, Next;
    if lines != [] {
      QuietKeepsAll(lines[1..], Next(lines[0], depth));
    }
  }

  /** Server-only lines do not move the block depth, so taking them out leaves the rest in place. */
  lemma {:induction false} LocationLinesAreQuiet(lines: seq<string>, depth: int)
    ensures Quiet(LocationLines(lines, depth), depth)
  {
    if lines != [] {
      LocationLinesAreQuiet(lines[1..], Next(lines[0], depth));
      var rest := LocationLines(lines[1..], Next(lines[0], depth));
      if ToServer(lines[0], depth) {
        assert Next(lines[0], depth) == depth;
      } else {
        assert ([lines[0]] + rest)[1..] == rest;
      }
    }
  }

  lemma {:induction false} QuietConcat(a: seq<string>, b: seq<string>, depth: int)
    ensures Quiet(a + b, depth) <==> Quiet(a, depth) && Quiet(b, DepthAfter(a, depth))
  {
    hide ToServer, Next;
    if a == [] {
      assert a + b == b;
    } else {
      assert (a + b)[1..] == a[1..] + b;
      QuietConcat(a[1..], b, Next(a[0], depth));
    }
  }

  lemma QuietOne(line: string, depth: int)
    ensures Quiet([line], depth) <==> !ToServer(line, depth)
  {
    hide ToServer, Next;
    assert ServerLines([line][1..], Next(line, depth)) == [];
  }

  /** All lines after the first stay out of the server block. */
  predicate TailQuiet(lines: seq<string>)
    requires lines != []
  {
    Quiet(lines[1..], Next(lines[0], 0))
  }

  lemma QuietSplit(lines: seq<string>)
    requires lines != []
    ensures Quiet(lines, 0) <==> TailQuiet(lines) && !ToServer(lines[0], 0)
  {}

  lemma TrimSpaceDropsFront(c: char, s: string)
    requires IsSpace(c)
    ensures TrimSpace([c] + s) == TrimSpace(s)
  {
    assert ([c] + s)[1..] == s;
  }

  lemma {:induction false} TrimLeftSnoc(s: string, c: char)
    requires IsSpace(c)
    ensures TrimLeft(s + [c]) == (if TrimLeft(s) == "" then "" else TrimLeft(s) + [c])
  {
    if s == "" {
      assert s + [c] == [c] && [c][1..] == "";
    } else if IsSpace(s[0]) {
      assert (s + [c])[1..] == s[1..] + [c];
      TrimLeftSnoc(s[1..], c);
    }
  }

  lemma TrimSpaceDropsBack(s: string, c: char)
    requires IsSpace(c)
    ensures TrimSpace(s + [c]) == TrimSpace(s)
  {
    TrimLeftSnoc(s, c);
    var l := TrimLeft(s);
    assert (l + [c])[..|l|] == l;
  }

  lemma {:induction false} NameSnoc(s: string, c: char)
    requires NameThenSpace(s).Some?
    ensures NameThenSpace(s + [c]) == NameThenSpace(s)
  {
    if !IsRegexSpace(s[0]) {
      assert (s + [c])[1..] == s[1..] + [c];
      NameSnoc(s[1..], c);
    }
  }

  /** A directive stays one when the line grows. */
  lemma {:induction false} DirectiveSnoc(s: string, c: char)
    requires Directive(s).Some?
    ensures Directive(s + [c]) == Directive(s)
  {
    if IsRegexSpace(s[0]) {
      assert (s + [c])[1..] == s[1..] + [c];
      DirectiveSnoc(s[1..], c);
    } else {
      NameSnoc(s, c);
    }
  }

  /** The pieces of a text once a character is put in front. */
  function PutFront(c: char, parts: seq<string>): seq<string>
    requires parts != []
  {
    if c == '\n' then [""] + parts else [[c] + parts[0]] + parts[1..]
  }

  /** The pieces of a text once a character is put at the end. */
  function PutBack(parts: seq<string>, c: char): (longer: seq<string>)
    requires parts != []
    ensures longer != []
  {
    var last := |parts| - 1;
    if c == '\n' then parts + [""] else parts[..last] + [parts[last] + [c]]
  }

  lemma SplitCons(c: char, s: string)
    ensures Split([c] + s, '\n') == PutFront(c, Split(s, '\n'))
  {
    assert ([c] + s)[1..] == s;
  }

  lemma FrontThenBack(f: char, parts: seq<string>, c: char)
    requires parts != []
    ensures PutFront(f, parts) != [] && PutFront(f, PutBack(parts, c)) == PutBack(PutFront(f, parts), c)
  {
    if f != '\n' && |parts| == 1 {
      assert [f] + (parts[0] + [c]) == [f] + parts[0] + [c];
    }
  }

  lemma {:induction false} SplitSnoc(s: string, c: char)
    ensures Split(s + [c], '\n') == PutBack(Split(s, '\n'), c)
  {
    if s == "" {
      assert s + [c] == [c] && [c][1..] == "" && "" + [c] == [c] && [c] + "" == [c];
    } else {
      hide Split, PutBack, PutFront;
      SplitSnoc(s[1..], c);
      assert s + [c] == [s[0]] + (s[1..] + [c]);
      assert s == [s[0]] + s[1..];
      SplitCons(s[0], s[1..] + [c]);
      SplitCons(s[0], s[1..]);
      FrontThenBack(s[0], Split(s[1..], '\n'), c);
    }
  }

  lemma BlankLine(depth: int)
    ensures depth <= 0 ==> Next("", depth) == depth
    ensures !ToServer("", depth)
  {}

  lemma TailQuietDropFront(c: char, s: string)
    requires IsSpace(c)
    ensures TailQuiet(Split([c] + s, '\n')) ==> TailQuiet(Split(s, '\n'))
  {
    SplitCons(c, s);
    var parts := Split(s, '\n');
    if c == '\n' {
      assert ([""] + parts)[1..] == parts;
      BlankLine(0);
      QuietSplit(parts);
    } else {
      TrimSpaceDropsFront(c, parts[0]);
      assert ([[c] + parts[0]] + parts[1..])[1..] == parts[1..];
    }
  }

  lemma {:induction false} TailQuietTrimLeft(s: string)
    requires TailQuiet(Split(s, '\n'))
    ensures TailQuiet(Split(TrimLeft(s), '\n'))
  {
    hide Quiet, Split, TailQuiet;
    if s != "" && IsSpace(s[0]) {
      assert s == [s[0]] + s[1..];
      TailQuietDropFront(s[0], s[1..]);
      TailQuietTrimLeft(s[1..]);
    }
  }

  /** Dropping white space at the end never makes a line a directive. */
  lemma QuietLastLine(lines: seq<string>, line: string, c: char, depth: int)
    requires IsSpace(c)
    ensures Quiet(lines + [line + [c]], depth) ==> Quiet(lines + [line], depth)
  {
    QuietConcat(lines, [line + [c]], depth);
    QuietConcat(lines, [line], depth);
    var d := DepthAfter(lines, depth);
    QuietOne(line + [c], d);
    QuietOne(line, d);
    TrimSpaceDropsBack(line, c);
    if Directive(line).Some? { DirectiveSnoc(line, c); }
  }

  lemma TailWithoutBreak(parts: seq<string>)
    requires parts != []
    ensures TailQuiet(parts + [""]) ==> TailQuiet(parts)
  {
    hide Quiet, Next, DepthAfter;
    var d := Next(parts[0], 0);
    assert (parts + [""])[1..] == parts[1..] + [""];
    QuietConcat(parts[1..], [""], d);
  }

  lemma TailWithoutSpace(init: seq<string>, last: string, c: char)
    requires IsSpace(c) && init != []
    ensures TailQuiet(init + [last + [c]]) ==> TailQuiet(init + [last])
  {
    hide Quiet, Next;
    var d := Next(init[0], 0);
    assert (init + [last + [c]])[1..] == init[1..] + [last + [c]];
    assert (init + [last])[1..] == init[1..] + [last];
    QuietLastLine(init[1..], last, c, d);
  }

  lemma TailQuietDropBack(s: string, c: char)
    requires IsSpace(c)
    ensures TailQuiet(Split(s + [c], '\n')) ==> TailQuiet(Split(s, '\n'))
  {
    hide TailQuiet, Split;
    SplitSnoc(s, c);
    var parts := Split(s, '\n');
    var last := |parts| - 1;
    if c == '\n' {
      TailWithoutBreak(parts);
    } else if last == 0 {
      TailOfOne(parts);
    } else {
      assert parts == parts[..last] + [parts[last]];
      TailWithoutSpace(parts[..last], parts[last], c);
    }
  }

  lemma TailOfOne(lines: seq<string>)
    requires |lines| == 1
    ensures TailQuiet(lines)
  {}

  lemma {:induction false} TailQuietTrimRight(s: string)
    requires TailQuiet(Split(s, '\n'))
    ensures TailQuiet(Split(TrimRight(s), '\n'))
  {
    hide Quiet, Split, TailQuiet;
    if s != "" && IsSpace(s[|s| - 1]) {
      var init := s[..|s| - 1];
      assert s == init + [s[|s| - 1]];
      TailQuietDropBack(init, s[|s| - 1]);
      TailQuietTrimRight(init);
    }
  }

  /** Of the location part's lines only the first can be taken for a server directive. */
  lemma LocationPartTail(text: string)
    ensures TailQuiet(Split(LocationPart(text), '\n'))
  {
    var kept := LocationLines(Split(text, '\n'), 0);
    var joined := Join(kept, "\n");
    JoinedIsQuiet(text);
    QuietSplit(Split(joined, '\n'));
    TailQuietTrimLeft(joined);
    TailQuietTrimRight(TrimLeft(joined));
  }

  lemma JoinedIsQuiet(text: string)
    ensures Quiet(Split(Join(LocationLines(Split(text, '\n'), 0), "\n"), '\n'), 0)
  {
    var lines := Split(text, '\n');
    var kept := LocationLines(lines, 0);
    LocationLinesAreQuiet(lines, 0);
    if kept == [] {
      BlankLine(0);
      QuietOne("", 0);
      assert Split("", '\n') == [""];
    } else {
      SplitHasNoSeparator(text, '\n');
      LocationLinesSubset(lines, 0);
      SplitJoin(kept, '\n');
    }
  }

  lemma {:induction false} LocationLinesSubset(lines: seq<string>, depth: int)
    ensures forall l <- LocationLines(lines, depth) :: l in lines
  {
    hide ToServer, Next;
    if lines != [] {
      LocationLinesSubset(lines[1..], Next(lines[0], depth));
    }
  }

  /** A line taken for the server block is not blank. */
  lemma {:induction false} DirectiveIsVisible(line: string)
    requires Directive(line).Some?
    ensures exists c :: c in line && !IsSpace(c)
  {
    if IsRegexSpace(line[0]) {
      DirectiveIsVisible(line[1..]);
      var c :| c in line[1..] && !IsSpace(c);
      assert c in line;
    } else {
      assert line[0] in line;
    }
  }

  lemma VisibleSurvives(s: string, c: char)
    requires c in s && !IsSpace(c)
    ensures TrimSpace(s) != ""
  {
    var front, back := TrimSpaceShape(s);
  }

  /** Splitting the location part again goes wrong exactly if its first line reads as a server-only directive. */
  lemma ResplitByHead(text: string)
    ensures var part := LocationPart(text);
            ServerPart(part) == "" && LocationPart(part) == part
            <==> !ToServer(Split(part, '\n')[0], 0)
  {
    var part := LocationPart(text);
    var lines := Split(part, '\n');
    LocationPartTail(text);
    QuietSplit(lines);
    if Quiet(lines, 0) {
      QuietKeepsAll(lines, 0);
      JoinSplit(part, '\n');
      TrimSpaceIdempotent(Join(LocationLines(Split(text, '\n'), 0), "\n"));
    } else {
      var server := ServerLines(lines, 0);
      assert server[0] == lines[0];
      DirectiveIsVisible(lines[0]);
      var c :| c in lines[0] && !IsSpace(c);
      assert c in Join(server, "\n");
      VisibleSurvives(Join(server, "\n"), c);
    }
  }

  // ---- the condition on the text itself ----

  predicate Blank(s: string) {
    forall c <- s :: IsSpace(c)
  }

  /** Outside every block these lines are passed over when the location part is cut to its first word. */
  predicate PassedOver(line: string) {
    Blank(line) || ToServer(line, 0)
  }

  predicate AllPassedOver(lines: seq<string>) {
    forall l <- lines :: PassedOver(l)
  }

  /**
   How the location part will begin: with the first line that is not passed over, without the white
   space before it, and without that after it too if nothing follows.
   */
  function Opening(lines: seq<string>): string {
    if lines == [] then ""
    else if PassedOver(lines[0]) then Opening(lines[1..])
    else if AllPassedOver(lines[1..]) then TrimSpace(lines[0])
    else TrimLeft(lines[0])
  }

  lemma {:induction false} TrimLeftPastBlank(a: string, b: string)
    requires Blank(a)
    ensures TrimLeft(a + b) == TrimLeft(b)
  {
    if a == "" {
      assert a + b == b;
    } else {
      assert (a + b)[1..] == a[1..] + b;
      TrimLeftPastBlank(a[1..], b);
    }
  }

  lemma {:induction false} TrimLeftStops(a: string, b: string)
    requires !Blank(a)
    ensures TrimLeft(a + b) == TrimLeft(a) + b
  {
    if IsSpace(a[0]) {
      assert (a + b)[1..] == a[1..] + b && a == [a[0]] + a[1..];
      TrimLeftStops(a[1..], b);
    }
  }

  lemma {:induction false} TrimRightPastBlank(a: string, b: string)
    requires Blank(b)
    ensures TrimRight(a + b) == TrimRight(a)
  {
    if b == "" {
      assert a + b == a;
    } else {
      var init := b[..|b| - 1];
      assert (a + b)[..|a + b| - 1] == a + init;
      TrimRightPastBlank(a, init);
    }
  }

  lemma {:induction false} TrimRightStops(a: string, b: string)
    requires !Blank(b)
    ensures TrimRight(a + b) == a + TrimRight(b)
  {
    var (init, c) := (b[..|b| - 1], b[|b| - 1]);
    if IsSpace(c) {
      assert (a + b)[..|a + b| - 1] == a + init && b == init + [c];
      TrimRightStops(a, init);
    }
  }

  lemma BlankConcat(a: string, b: string)
    ensures Blank(a + b) <==> Blank(a) && Blank(b)
  {
    assert forall c :: c in a + b <==> c in a || c in b;
  }

  lemma JoinCons(line: string, rest: seq<string>)
    ensures Join([line] + rest, "\n") == line + if rest == [] then "" else "\n" + Join(rest, "\n")
  {
    assert ([line] + rest)[1..] == rest;
  }

  lemma {:induction false} BlankJoin(parts: seq<string>)
    ensures Blank(Join(parts, "\n")) <==> forall p <- parts :: Blank(p)
  {
    if parts != [] {
      var rest := parts[1..];
      BlankJoin(rest);
      assert parts == [parts[0]] + rest;
      JoinCons(parts[0], rest);
      BlankConcat(parts[0], if rest == [] then "" else "\n" + Join(rest, "\n"));
      BlankConcat("\n", Join(rest, "\n"));
    }
  }

  lemma BlankMeansTrimmedAway(s: string)
    ensures Blank(s) <==> TrimSpace(s) == ""
  {
    var front, back := TrimSpaceShape(s);
    if TrimSpace(s) == "" {
      assert s == front + back;
    } else {
      assert TrimSpace(s)[0] in s;
    }
  }

  /** A line that is passed over does not change the block depth. */
  lemma PassedOverKeepsDepth(line: string)
    requires PassedOver(line)
    ensures Next(line, 0) == 0
  {
    BlankMeansTrimmedAway(line);
  }

  /** Lines outside every block that are all passed over leave nothing but white space. */
  lemma {:induction false} PassedOverLeavesBlank(lines: seq<string>)
    ensures AllPassedOver(lines) <==> forall l <- LocationLines(lines, 0) :: Blank(l)
  {
    hide ToServer, Next, Blank;
    if lines != [] {
      var rest := lines[1..];
      assert lines == [lines[0]] + rest;
      if PassedOver(lines[0]) {
        PassedOverKeepsDepth(lines[0]);
        PassedOverLeavesBlank(rest);
        assert AllPassedOver(lines) <==> AllPassedOver(rest);
      } else {
        assert lines[0] in lines && lines[0] in LocationLines(lines, 0);
      }
    }
  }

  function Kept(lines: seq<string>): string {
    TrimSpace(Join(LocationLines(lines, 0), "\n"))
  }

  lemma NothingKept()
    ensures Kept([]) == ""
  {}

  lemma KeptPassesOver(lines: seq<string>)
    requires lines != [] && PassedOver(lines[0])
    ensures Kept(lines) == Kept(lines[1..])
  {
    hide ToServer, Next;
    PassedOverKeepsDepth(lines[0]);
    if !ToServer(lines[0], 0) {
      var rest := LocationLines(lines[1..], 0);
      JoinCons(lines[0], rest);
      if rest == [] {
        TrimLeftPastBlank(lines[0], "");
      } else {
        assert Blank(lines[0] + "\n");
        TrimLeftPastBlank(lines[0] + "\n", Join(rest, "\n"));
        assert lines[0] + "\n" + Join(rest, "\n") == lines[0] + ("\n" + Join(rest, "\n"));
      }
    }
  }

  lemma TrimmedHasNoBreak(line: string)
    requires '\n' !in line
    ensures '\n' !in TrimLeft(line) && '\n' !in TrimSpace(line)
  {
    TrimLeftShape(line);
    TrimRightShape(TrimLeft(line));
  }

  /** Nothing but white space behind it: the line is trimmed on both sides. */
  lemma HeadAlone(line: string, tail: string)
    requires !Blank(line) && '\n' !in line && Blank(tail)
    ensures Split(TrimSpace(line + tail), '\n')[0] == TrimSpace(line)
  {
    hide Split, Blank, TrimLeft, TrimRight;
    TrimLeftStops(line, tail);
    TrimRightPastBlank(TrimLeft(line), tail);
    TrimmedHasNoBreak(line);
    SplitWithout(TrimSpace(line), '\n');
  }

  /** Something behind it: the line is trimmed in front only. */
  lemma HeadOfMany(line: string, rest: string)
    requires !Blank(line) && '\n' !in line && !Blank(rest)
    ensures Split(TrimSpace(line + ("\n" + rest)), '\n')[0] == TrimLeft(line)
  {
    hide Split, Blank, TrimLeft, TrimRight;
    var l := TrimLeft(line);
    TrimLeftStops(line, "\n" + rest);
    TrimRightStops(l + "\n", rest);
    assert l + ("\n" + rest) == l + "\n" + rest;
    TrimmedHasNoBreak(line);
    SplitAtSeparator(l, TrimRight(rest), '\n');
  }

  /** A visible line at the front: how much of it stands on the first line of the trimmed text. */
  lemma TrimmedHead(line: string, rest: seq<string>)
    requires !Blank(line) && '\n' !in line
    ensures Split(TrimSpace(Join([line] + rest, "\n")), '\n')[0] ==
            if forall l <- rest :: Blank(l) then TrimSpace(line) else TrimLeft(line)
  {
    hide Split, TrimSpace, TrimLeft, Join, Blank;
    JoinCons(line, rest);
    BlankJoin(rest);
    if rest == [] {
      BlankNothing();
      HeadAlone(line, "");
    } else if Blank(Join(rest, "\n")) {
      BlankBreak(Join(rest, "\n"));
      HeadAlone(line, "\n" + Join(rest, "\n"));
    } else {
      HeadOfMany(line, Join(rest, "\n"));
    }
  }

  lemma BlankNothing()
    ensures Blank("")
  {
  }

  lemma BlankBreak(s: string)
    requires Blank(s)
    ensures Blank("\n" + s)
  {
    BlankConcat("\n", s);
  }

  /** The opening read off the lines is a server-only directive exactly if the location part's first line is. */
  lemma {:induction false} OpeningIsHead(lines: seq<string>)
    requires forall l <- lines :: '\n' !in l
    ensures ToServer(Split(Kept(lines), '\n')[0], 0) <==> ToServer(Opening(lines), 0)
  {
    hide Split, Blank, IsServerDirective, TrimLeft, TrimRight;
    if lines == [] {
      NothingKept();
      SplitWithout("", '\n');
    } else if PassedOver(lines[0]) {
      KeptPassesOver(lines);
      OpeningIsHead(lines[1..]);
    } else {
      var line := lines[0];
      var rest := LocationLines(lines[1..], Next(line, 0));
      assert LocationLines(lines, 0) == [line] + rest;
      TrimmedHead(line, rest);
      if StartsBlock(TrimSpace(line)) {
        BlockHead(line);
      } else {
        PassedOverLeavesBlank(lines[1..]);
      }
    }
  }

  /** A line that starts a block does so however it is trimmed. */
  lemma BlockHead(line: string)
    requires StartsBlock(TrimSpace(line))
    ensures !ToServer(TrimSpace(line), 0) && !ToServer(TrimLeft(line), 0)
  {
    TrimSpaceIdempotent(line);
    TrimLeftShape(line);
    TrimLeftTwice(line);
  }

  lemma TrimLeftTwice(line: string)
    ensures TrimSpace(TrimLeft(line)) == TrimSpace(line)
  {
    TrimLeftShape(line);
  }

  /**
   Splitting the location part again leaves it as it is, with nothing for the server block, exactly
   when the opening of the text, once trimmed, does not read as a server-only directive.
   */
  lemma ResplitIff(text: string)
    ensures var part := LocationPart(text);
            ServerPart(part) == "" && LocationPart(part) == part
            <==> !ToServer(Opening(Split(text, '\n')), 0)
  {
    hide ToServer, Opening, Split;
    ResplitByHead(text);
    SplitHasNoSeparator(text, '\n');
    OpeningIsHead(Split(text, '\n'));
  }

  // ---- text without vertical tabs ----

  lemma DropFrontKeepsSide(c: char, line: string)
    requires IsRegexSpace(c)
    ensures ToServer([c] + line, 0) <==> ToServer(line, 0)
  {
    TrimSpaceDropsFront(c, line);
    assert ([c] + line)[1..] == line;
  }

  lemma {:induction false} QuietTrimLeft(s: string)
    requires VT !in s && Quiet(Split(s, '\n'), 0)
    ensures Quiet(Split(TrimLeft(s), '\n'), 0)
  {
    hide Quiet, Split, ToServer;
    if s != "" && IsSpace(s[0]) {
      var rest := Split(s[1..], '\n');
      assert s == [s[0]] + s[1..];
      SplitCons(s[0], s[1..]);
      QuietSplit(Split(s, '\n'));
      TailQuietDropFront(s[0], s[1..]);
      QuietSplit(rest);
      if s[0] == '\n' {
        assert Split(s, '\n')[1..] == rest;
        BlankLine(0);
      } else {
        DropFrontKeepsSide(s[0], rest[0]);
      }
      QuietTrimLeft(s[1..]);
    }
  }

  lemma QuietDropBack(s: string, c: char)
    requires IsSpace(c) && Quiet(Split(s + [c], '\n'), 0)
    ensures Quiet(Split(s, '\n'), 0)
  {
    hide Quiet, Split;
    SplitSnoc(s, c);
    var parts := Split(s, '\n');
    var last := |parts| - 1;
    if c == '\n' {
      QuietConcat(parts, [""], 0);
    } else {
      assert parts == parts[..last] + [parts[last]];
      QuietLastLine(parts[..last], parts[last], c, 0);
    }
  }

  lemma {:induction false} QuietTrimRight(s: string)
    requires Quiet(Split(s, '\n'), 0)
    ensures Quiet(Split(TrimRight(s), '\n'), 0)
  {
    hide Quiet, Split;
    if s != "" && IsSpace(s[|s| - 1]) {
      var init, c := s[..|s| - 1], s[|s| - 1];
      assert s == init + [c];
      QuietDropBack(init, c);
      QuietTrimRight(init);
    }
  }

  lemma {:induction false} JoinCharacters(parts: seq<string>, c: char)
    requires c != '\n' && forall p <- parts :: c !in p
    ensures c !in Join(parts, "\n")
  {
    if |parts| > 1 {
      JoinCharacters(parts[1..], c);
    }
  }

  lemma {:induction false} SplitCharacters(s: string, c: char)
    requires c !in s
    ensures forall p <- Split(s, '\n') :: c !in p
  {
    if s != "" {
      SplitCharacters(s[1..], c);
    }
  }

  /**
   For text without vertical tabs the location part is a fixed point: split again it gives an empty
   server part and itself.
   */
  lemma ResplitFixedPoint(text: string)
    requires VT !in text
    ensures ServerPart(LocationPart(text)) == "" && LocationPart(LocationPart(text)) == LocationPart(text)
  {
    var kept := LocationLines(Split(text, '\n'), 0);
    var joined := Join(kept, "\n");
    SplitCharacters(text, VT);
    LocationLinesSubset(Split(text, '\n'), 0);
    JoinCharacters(kept, VT);
    JoinedIsQuiet(text);
    QuietTrimLeft(joined);
    QuietTrimRight(TrimLeft(joined));
    QuietSplit(Split(LocationPart(text), '\n'));
    ResplitByHead(text);
  }

  // ---- examples ----

  /** `http2` is listed among the server-only directives, and stays in the location part all the same. */
  lemma Http2Example()
    ensures ServerPart("http2 on;") == "" && LocationPart("http2 on;") == "http2 on;"
  {
    var text := "http2 on;";
    Http2Stays(text);
    StaysWhole(text);
  }

  /** A trimmed line that is not server-only is the whole location part. */
  lemma StaysWhole(text: string)
    requires '\n' !in text && IsTrimmed(text) && !ToServer(text, 0)
    ensures ServerPart(text) == "" && LocationPart(text) == text
  {
    hide Split, ToServer, TrimSpace;
    SplitWithout(text, '\n');
    QuietOne(text, 0);
    QuietKeepsAll([text], 0);
    assert Join([text], "\n") == text;
    TrimSpaceFixed(text);
    TrimSpaceFixed("");
  }

  lemma Http2Stays(text: string)
    requires text == "http2 on;"
    ensures !ToServer(text, 0)
  {
    Http2IsNeverCaptured(text);
    var rest := text[1..][1..][1..][1..];
    assert rest[0] == '2';
    assert NameThenSpace(rest) == None;
    assert NameThenSpace(text[1..][1..][1..]) == None;
    assert NameThenSpace(text[1..][1..]) == None;
    assert NameThenSpace(text[1..]) == None;
  }

  /** With a vertical tab in front, a directive changes sides once the tab is trimmed away. */
  lemma VerticalTabExample()
    ensures var text := [VT] + "listen 80;";
            ServerPart(text) == "" && ServerPart(LocationPart(text)) == "listen 80;"
  {
    var line := "listen 80;";
    var text := [VT] + line;
    ListenLine(line);
    assert Split(text, '\n') == [text] by { SplitWithout(text, '\n'); }
    assert Directive(text) == None;
    QuietOne(text, 0);
    QuietKeepsAll([text], 0);
    assert Join([text], "\n") == text;
    TrimSpaceDropsFront(VT, line);
    TrimSpaceFixed(line);
    assert TrimSpace("") == "";
    LineToServer(line);
  }

  lemma {:induction false} NameReads(name: string, rest: string)
    requires forall k :: 0 <= k < |name| ==> IsNameChar(name[k])
    ensures NameThenSpace(name + " " + rest) == Some(name)
  {
    if name != "" {
      assert (name + " " + rest)[1..] == name[1..] + " " + rest;
      NameReads(name[1..], rest);
      assert [name[0]] + name[1..] == name;
    }
  }

  lemma ListenLine(line: string)
    requires line == "listen 80;"
    ensures ToServer(line, 0) && IsTrimmed(line) && '\n' !in line
  {
    assert line == "listen" + " " + "80;";
    NameReads("listen", "80;");
    TrimSpaceFixed(line);
  }

  lemma LineToServer(line: string)
    requires '\n' !in line && IsTrimmed(line) && ToServer(line, 0)
    ensures ServerPart(line) == line
  {
    hide ToServer, Next;
    SplitWithout(line, '\n');
    assert ServerLines([line][1..], Next(line, 0)) == [];
    TrimSpaceFixed(line);
  }
}
