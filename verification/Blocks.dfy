/**
 Where the blocks of a custom configuration begin and end, read off its braces, and with it which lines go to
 the server block.
 */
module Blocks {
  import opened AdvancedConfig
  import opened GoStrings

  /** Opening braces less closing ones. */
  function NetOf(line: string): int {
    var (opens: int, closes: int) := (multiset(line)['{'], multiset(line)['}']);
    opens - closes
  }

  function Braces(lines: seq<string>): int {
    if lines == [] then 0 else Braces(lines[..|lines| - 1]) + NetOf(lines[|lines| - 1])
  }

  /** A line that ends with an opening brace, and has something before it. */
  predicate OpensBlock(line: string) {
    var trimmed := TrimSpace(line);
    |trimmed| >= 2 && trimmed[|trimmed| - 1] == '{'
  }

  /**
   Line `k` is inside a block: some line before it that is itself outside opens one, and the braces of the lines
   after that have not closed it since. The braces of the opening line itself do not count.
   */
  predicate InBlock(lines: seq<string>, k: nat)
    requires k <= |lines|
    decreases k
  {
    exists i :: 0 <= i < k && OpensBlock(lines[i]) && !InBlock(lines, i) && StaysOpen(lines, i, k)
  }

  /** The braces between line `i` and line `j`. */
  function Since(lines: seq<string>, i: nat, j: nat): int
    requires i < j <= |lines|
  {
    Braces(lines[i + 1..j])
  }

  predicate StaysOpen(lines: seq<string>, i: nat, k: nat)
    requires i < k <= |lines|
  {
    forall j :: i < j <= k ==> 1 + Since(lines, i, j) > 0
  }

  // ---- the depth counter ----

  lemma {:induction false} CountIsMultiplicity(s: string, c: char)
    ensures Count(s, c) == multiset(s)[c]
  {
    if s != "" {
      CountIsMultiplicity(s[1..], c);
      assert s == [s[0]] + s[1..];
    }
  }

  /** Trimming takes no braces away. */
  lemma TrimKeepsCount(line: string, c: char)
    requires !IsSpace(c)
    ensures multiset(TrimSpace(line))[c] == multiset(line)[c]
  {
    var front, back := TrimSpaceShape(line);
    hide TrimSpace;
    assert c !in front && c !in back;
    assert multiset(line) == multiset(front) + multiset(TrimSpace(line)) + multiset(back);
  }

  lemma NextMeans(line: string, depth: int)
    ensures Next(line, depth) ==
            if depth > 0 then depth + NetOf(line) else if OpensBlock(line) then 1 else depth
  {
    hide TrimSpace, Count;
    CountIsMultiplicity(TrimSpace(line), '{');
    CountIsMultiplicity(TrimSpace(line), '}');
    TrimKeepsCount(line, '{');
    TrimKeepsCount(line, '}');
  }

  function DepthAt(lines: seq<string>, k: nat): int
    requires k <= |lines|
  {
    DepthAfter(lines[..k], 0)
  }

  lemma {:induction false} DepthSnoc(lines: seq<string>, line: string, depth: int)
    ensures DepthAfter(lines + [line], depth) == Next(line, DepthAfter(lines, depth))
  {
    hide Next;
    if lines == [] {
      assert lines + [line] == [line] && [line][1..] == [];
      assert DepthAfter([], Next(line, depth)) == Next(line, depth);
    } else {
      assert (lines + [line])[1..] == lines[1..] + [line];
      DepthSnoc(lines[1..], line, Next(lines[0], depth));
    }
  }

  lemma DepthStep(lines: seq<string>, k: nat)
    requires k < |lines|
    ensures DepthAt(lines, k + 1) == Next(lines[k], DepthAt(lines, k))
  {
    hide Next;
    assert lines[..k + 1] == lines[..k] + [lines[k]];
    DepthSnoc(lines[..k], lines[k], 0);
  }

  lemma BracesStep(lines: seq<string>, i: nat, k: nat)
    requires i <= k < |lines|
    ensures Braces(lines[i..k + 1]) == Braces(lines[i..k]) + NetOf(lines[k])
  {
    hide NetOf;
    assert lines[i..k + 1][..k - i] == lines[i..k];
  }

  /** While a block stays open the counter is one more than the braces since its opening line. */
  lemma {:induction false} DepthInBlock(lines: seq<string>, i: nat, k: nat)
    requires i < k <= |lines| && OpensBlock(lines[i]) && DepthAt(lines, i) <= 0
    requires forall j :: i < j < k ==> 1 + Since(lines, i, j) > 0
    ensures DepthAt(lines, k) == 1 + Since(lines, i, k)
    decreases k
  {
    hide Next, NetOf, OpensBlock;
    DepthStep(lines, k - 1);
    NextMeans(lines[k - 1], DepthAt(lines, k - 1));
    if k == i + 1 {
      assert lines[i + 1..k] == [];
    } else {
      DepthInBlock(lines, i, k - 1);
      BracesStep(lines, i + 1, k - 1);
    }
  }

  /** A positive counter goes back to an opening line. */
  lemma {:induction false} OpenedBy(lines: seq<string>, k: nat) returns (i: nat)
    requires k <= |lines| && DepthAt(lines, k) > 0
    ensures i < k && OpensBlock(lines[i]) && DepthAt(lines, i) <= 0 && StaysOpen(lines, i, k)
  {
    hide Next, NetOf, OpensBlock;
    assert DepthAt(lines, 0) == 0 by { assert lines[..0] == []; }
    DepthStep(lines, k - 1);
    NextMeans(lines[k - 1], DepthAt(lines, k - 1));
    if DepthAt(lines, k - 1) > 0 {
      i := OpenedBy(lines, k - 1);
      DepthInBlock(lines, i, k);
    } else {
      i := k - 1;
      assert lines[k..k] == [];
    }
  }

  /** The counter is positive exactly inside a block. */
  lemma {:induction false} InBlockIff(lines: seq<string>, k: nat)
    requires k <= |lines|
    ensures InBlock(lines, k) <==> DepthAt(lines, k) > 0
    decreases k
  {
    hide OpensBlock, DepthAt, StaysOpen;
    forall i | 0 <= i < k ensures InBlock(lines, i) <==> DepthAt(lines, i) > 0 {
      InBlockIff(lines, i);
    }
    if DepthAt(lines, k) > 0 {
      var i := OpenedBy(lines, k);
    } else if InBlock(lines, k) {
      var i :| 0 <= i < k && OpensBlock(lines[i]) && !InBlock(lines, i) && StaysOpen(lines, i, k);
      StaysOpenDepth(lines, i, k);
    }
  }

  lemma StaysOpenDepth(lines: seq<string>, i: nat, k: nat)
    requires i < k <= |lines| && OpensBlock(lines[i]) && DepthAt(lines, i) <= 0 && StaysOpen(lines, i, k)
    ensures DepthAt(lines, k) > 0
  {
    hide OpensBlock;
    DepthInBlock(lines, i, k);
  }

  // ---- where a line goes ----

  /**
   A line goes to the server block exactly if it is outside every block, opens none, and begins, after white
   space, with a name of the table other than `http2` and white space.
   */
  lemma ServerLineIff(lines: seq<string>, k: nat)
    requires k < |lines|
    ensures |Sides(lines, 0)| == |lines|
    ensures Sides(lines, 0)[k] <==>
            && !InBlock(lines, k)
            && !OpensBlock(lines[k])
            && exists name <- SERVER_ONLY :: name != "http2" && StartsWithName(lines[k], name)
  {
    hide Sides, DepthAfter, IsServerDirective, TrimSpace, SERVER_ONLY, InBlock;
    SideOfLine(lines, 0, k);
    InBlockIff(lines, k);
    ServerDirectiveIff(lines[k]);
  }

  // ---- an example ----

  const OPENING := "location /a {"
  const INSIDE := "  deny all;"
  const PROTOCOL := "ssl_protocols TLSv1.3;"

  lemma OpeningLine()
    ensures OpensBlock(OPENING) && IsTrimmed(OPENING)
  {
    TrimSpaceFixed(OPENING);
  }

  lemma NoBraces(line: string)
    requires '{' !in line && '}' !in line
    ensures NetOf(line) == 0
  {
  }

  lemma InsideLine()
    ensures '{' !in INSIDE && '}' !in INSIDE
  {
  }

  lemma ClosingLine()
    ensures NetOf("}") == -1
  {
    assert multiset("}") == multiset{'}'};
  }

  lemma ProtocolParts()
    ensures PROTOCOL == "" + ("ssl_protocols" + [' '] + "TLSv1.3;") && IsTrimmed(PROTOCOL)
  {
  }

  lemma ProtocolName()
    ensures "ssl_protocols" in SERVER_ONLY && IsName("ssl_protocols")
  {
    hide IsName;
    assert "ssl_protocols" in PROTOCOLS;
    ProtocolNames("ssl_protocols");
    hide CERTIFICATES, PROTOCOLS, SESSIONS, CLIENTS, OTHERS;
  }

  lemma ProtocolLine()
    ensures ToServer(PROTOCOL, 0) && IsTrimmed(PROTOCOL)
  {
    hide SERVER_ONLY, IsName, Directive, TrimSpace;
    ProtocolParts();
    ProtocolName();
    DirectiveOf("", "ssl_protocols", ' ', "TLSv1.3;");
    TrimSpaceFixed(PROTOCOL);
  }

  /** The depths at the four lines. */
  lemma FourDepths()
    ensures Next(OPENING, 0) == 1 && Next(INSIDE, 1) == 1 && Next("}", 1) == 0
    ensures !ToServer(OPENING, 0) && !ToServer(INSIDE, 1) && !ToServer("}", 1)
  {
    hide TrimSpace, NetOf, INSIDE, OPENING;
    OpeningLine();
    InsideLine();
    NoBraces(INSIDE);
    ClosingLine();
    NextMeans(OPENING, 0);
    NextMeans(INSIDE, 1);
    NextMeans("}", 1);
  }

  lemma FourSides(lines: seq<string>)
    requires lines == [OPENING, INSIDE, "}", PROTOCOL]
    ensures ServerLines(lines, 0) == [PROTOCOL] && LocationLines(lines, 0) == [OPENING, INSIDE, "}"]
  {
    hide ToServer, Next, ServerLines, LocationLines, OPENING, INSIDE, PROTOCOL;
    FourDepths();
    ProtocolLine();
    assert lines[0..] == lines;
    MeetLine(lines, 0, 0);
    MeetLine(lines, 1, 1);
    MeetLine(lines, 2, 1);
    MeetLine(lines, 3, 0);
    NoLinesLeft(lines, Next(PROTOCOL, 0));
    assert [PROTOCOL] + [] == [PROTOCOL];
  }

  predicate OneLineEach(lines: seq<string>) {
    forall line <- lines :: '\n' !in line
  }

  lemma FourLines()
    ensures OneLineEach([OPENING, INSIDE, "}", PROTOCOL])
  {
    assert '\n' !in OPENING;
    assert '\n' !in INSIDE;
    assert '\n' !in PROTOCOL;
  }

  lemma JoinFour(a: string, b: string, c: string, d: string)
    ensures Join([a, b, c, d], "\n") == a + "\n" + (b + "\n" + (c + "\n" + d))
    ensures Join([a, b, c], "\n") == a + "\n" + (b + "\n" + c) && Join([d], "\n") == d
  {
    assert [a, b, c, d][1..] == [b, c, d] && [b, c, d][1..] == [c, d] && [c, d][1..] == [d];
    assert [a, b, c][1..] == [b, c] && [b, c][1..] == [c];
    assert Join([c, d], "\n") == c + "\n" + d && Join([b, c], "\n") == b + "\n" + c;
    assert Join([b, c, d], "\n") == b + "\n" + Join([c, d], "\n");
  }

  lemma BlockIsTrimmed()
    ensures IsTrimmed(OPENING + "\n" + (INSIDE + "\n" + "}"))
  {
    var block := OPENING + "\n" + (INSIDE + "\n" + "}");
    assert block[0] == OPENING[0] && block[|block| - 1] == '}';
  }

  /** A directive after a block: the block stays in the location part, the directive goes to the server block. */
  lemma AfterBlockExample()
    ensures var block := "location /a {" + "\n" + ("  deny all;" + "\n" + "}");
            var text := "location /a {" + "\n" + ("  deny all;" + "\n" + ("}" + "\n" + "ssl_protocols TLSv1.3;"));
            ServerPart(text) == "ssl_protocols TLSv1.3;" && LocationPart(text) == block
  {
    var lines := [OPENING, INSIDE, "}", PROTOCOL];
    FourLines();
    JoinFour(OPENING, INSIDE, "}", PROTOCOL);
    FourSides(lines);
    ProtocolLine();
    BlockIsTrimmed();
    hide Split, ServerLines, LocationLines, TrimSpace, Join, IsTrimmed;
    SplitJoin(lines, '\n');
    TrimSpaceFixed(PROTOCOL);
    TrimSpaceFixed(OPENING + "\n" + (INSIDE + "\n" + "}"));
  }
}
