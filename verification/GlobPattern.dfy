/**
 `toRegexPattern`: a list of user-agent globs, one a line, becomes one regular expression. The
 main result reads the expression back and finds exactly the globs that were listed.
 */
module GlobPattern {
  import opened GoStrings
  import opened LineLists
  import opened Options
  import opened ReplaceChain

  const MAX_LINE := 500
  const MAX_PATTERNS := 100

  function Cut(line: string): string {
    if |line| > MAX_LINE then line[..MAX_LINE] else line
  }

  function EscapeGlobLine(line: string): string {
    var l1 := ReplaceAll(line, "\\", "\\\\");
    var l2 := ReplaceAll(l1, ".", "\\.");
    var l3 := ReplaceAll(l2, "+", "\\+");
    var l4 := ReplaceAll(l3, "?", "\\?");
    var l5 := ReplaceAll(l4, "(", "\\(");
    var l6 := ReplaceAll(l5, ")", "\\)");
    var l7 := ReplaceAll(l6, "[", "\\[");
    var l8 := ReplaceAll(l7, "]", "\\]");
    var l9 := ReplaceAll(l8, "{", "\\{");
    var l10 := ReplaceAll(l9, "}", "\\}");
    var l11 := ReplaceAll(l10, "^", "\\^");
    var l12 := ReplaceAll(l11, "$", "\\$");
    var l13 := ReplaceAll(l12, "|", "\\|");
    var l14 := ReplaceAll(l13, "*", ".*");
    ReplaceAll(l14, " ", "\\s")
  }

  function EscapeLines(lines: seq<string>): (escaped: seq<string>)
    ensures |escaped| == |lines|
  {
    if lines == [] then [] else [EscapeGlobLine(Cut(lines[0]))] + EscapeLines(lines[1..])
  }

  /** The globs that count: the first 100 entries, each cut to 500 bytes. */
  function Globs(text: string): (globs: seq<string>)
    ensures |globs| <= MAX_PATTERNS
  {
    var entries := EntriesOf(text);
    CutAll(if |entries| > MAX_PATTERNS then entries[..MAX_PATTERNS] else entries)
  }

  function CutAll(lines: seq<string>): (cut: seq<string>)
    ensures |cut| == |lines|
    ensures forall k :: 0 <= k < |lines| ==> cut[k] == Cut(lines[k])
  {
    if lines == [] then [] else [Cut(lines[0])] + CutAll(lines[1..])
  }

  /** The first 100 entries, each down to its first 500 characters; a list within those limits loses nothing. */
  lemma GlobsAre(text: string)
    ensures var (entries, globs) := (EntriesOf(text), Globs(text));
            && |globs| == (if |entries| > 100 then 100 else |entries|)
            && (forall k :: 0 <= k < |globs| ==>
                  globs[k] == if |entries[k]| > 500 then entries[k][..500] else entries[k])
            && (|entries| <= 100 && (forall e <- entries :: |e| <= 500) ==> globs == entries)
  {
    hide EntriesOf;
  }

  function RegexOf(text: string): string {
    var escaped := EscapeLines(EntriesOf(text));
    Join(if |escaped| > MAX_PATTERNS then escaped[..MAX_PATTERNS] else escaped, "|")
  }

  method ToRegexPattern(text: string) returns (regex: string)
    ensures regex == RegexOf(text)
  {
    hide Split, TrimSpace, Entries, EscapeGlobLine, Join;
    EntriesOfNone();
    var lines := Split(text, '\n');
    var patterns: seq<string> := [];
    assert lines[..0] == [];
    for i := 0 to |lines|
      invariant patterns == EscapeLines(Entries(lines[..i]))
    {
      var line := TrimSpace(lines[i]);
      EntriesSnoc(lines, i);
      if line != "" && !HasPrefix(line, "#") {
        EscapeLinesConcat(Entries(lines[..i]), [line]);
        assert EscapeLines([line][1..]) == [];
        if |line| > MAX_LINE {
          line := line[..MAX_LINE];
        }
        patterns := patterns + [EscapeGlobLine(line)];
      } else {
        assert Entries(lines[..i]) + [] == Entries(lines[..i]);
      }
    }
    assert lines[..|lines|] == lines;
    if |patterns| > MAX_PATTERNS {
      patterns := patterns[..MAX_PATTERNS];
    }
    regex := Join(patterns, "|");
  }

  lemma {:induction false} EscapeLinesConcat(a: seq<string>, b: seq<string>)
    ensures EscapeLines(a + b) == EscapeLines(a) + EscapeLines(b)
  {
    if a == [] {
      assert a + b == b;
    } else {
      assert (a + b)[1..] == a[1..] + b;
      EscapeLinesConcat(a[1..], b);
    }
  }

  // ---- the chain is one simultaneous escape ----

  const GLOB_RULES: seq<Rule> := [
    Rule('\\', "\\\\"), Rule('.', "\\."), Rule('+', "\\+"), Rule('?', "\\?"), Rule('(', "\\("),
    Rule(')', "\\)"), Rule('[', "\\["), Rule(']', "\\]"), Rule('{', "\\{"), Rule('}', "\\}"),
    Rule('^', "\\^"), Rule('$', "\\$"), Rule('|', "\\|"), Rule('*', ".*"), Rule(' ', "\\s")
  ]

  /** The characters with a meaning of their own in a regular expression. */
  const SPECIAL := "\\.+?()[]{}^$|"

  lemma GlobRulesIndependent()
    ensures Independent(GLOB_RULES)
  {
    forall i, j | 0 <= i < j < |GLOB_RULES|
      ensures GLOB_RULES[j].key !in GLOB_RULES[i].value
    {
      GlobRule(i);
      GlobRule(j);
    }
  }

  lemma GlobRule(i: nat)
    requires i < |GLOB_RULES|
    ensures i < 13 ==> GLOB_RULES[i].key == SPECIAL[i] && GLOB_RULES[i].value == ['\\', SPECIAL[i]]
    ensures i == 13 ==> GLOB_RULES[i] == Rule('*', ".*")
    ensures i == 14 ==> GLOB_RULES[i] == Rule(' ', "\\s")
  {}

  lemma EscapeGlobLineAtOnce(line: string)
    ensures EscapeGlobLine(line) == AtOnce(GLOB_RULES, line)
  {
    hide Chain, AtOnce, ReplaceAll, Image;
    var s1 := ChainStep(GLOB_RULES, 0, line);
    var s2 := ChainStep(GLOB_RULES, 1, s1);
    var s3 := ChainStep(GLOB_RULES, 2, s2);
    var s4 := ChainStep(GLOB_RULES, 3, s3);
    var s5 := ChainStep(GLOB_RULES, 4, s4);
    var s6 := ChainStep(GLOB_RULES, 5, s5);
    var s7 := ChainStep(GLOB_RULES, 6, s6);
    var s8 := ChainStep(GLOB_RULES, 7, s7);
    var s9 := ChainStep(GLOB_RULES, 8, s8);
    var s10 := ChainStep(GLOB_RULES, 9, s9);
    var s11 := ChainStep(GLOB_RULES, 10, s10);
    var s12 := ChainStep(GLOB_RULES, 11, s11);
    var s13 := ChainStep(GLOB_RULES, 12, s12);
    var s14 := ChainStep(GLOB_RULES, 13, s13);
    var s15 := ChainStep(GLOB_RULES, 14, s14);
    assert GLOB_RULES[0..] == GLOB_RULES;
    GlobRulesIndependent();
    SequentialIsSimultaneous(GLOB_RULES, line);
  }

  lemma GlobImage(c: char)
    ensures Image(GLOB_RULES, c) ==
            if c in SPECIAL then ['\\', c] else if c == '*' then ".*" else if c == ' ' then "\\s" else [c]
  {
    if k :| 0 <= k < |GLOB_RULES| && GLOB_RULES[k].key == c {
      GlobRule(k);
      GlobKeysDistinct(k);
      ImageOfRule(GLOB_RULES, k);
    } else {
      GlobRule(13);
      GlobRule(14);
      forall j | 0 <= j < 13 ensures SPECIAL[j] != c { GlobRule(j); }
      ImageOfOther(GLOB_RULES, c);
    }
  }

  lemma GlobKeysDistinct(k: nat)
    requires k < |GLOB_RULES|
    ensures forall i :: 0 <= i < k ==> GLOB_RULES[i].key != GLOB_RULES[k].key
    ensures (GLOB_RULES[k].key in SPECIAL) == (k < 13)
  {
    GlobRule(k);
    forall i | 0 <= i < k ensures GLOB_RULES[i].key != GLOB_RULES[k].key { GlobRule(i); }
  }

  // ---- reading the expression back ----

  datatype Token = Lit(c: char) | AnySequence | WhiteSpace

  /** What a glob means, character by character. */
  function GlobToken(c: char): Token {
    if c == '*' then AnySequence else if c == ' ' then WhiteSpace else Lit(c)
  }

  function GlobTokens(line: string): seq<Token> {
    if line == "" then [] else [GlobToken(line[0])] + GlobTokens(line[1..])
  }

  function GlobMeanings(lines: seq<string>): (meanings: seq<seq<Token>>)
    ensures |meanings| == |lines|
    ensures forall k :: 0 <= k < |lines| ==> meanings[k] == GlobTokens(lines[k])
  {
    if lines == [] then [] else [GlobTokens(lines[0])] + GlobMeanings(lines[1..])
  }

  type Alternatives = a: seq<seq<Token>> | |a| >= 1 witness [[]]

  function Prepend(t: Token, alts: Option<Alternatives>): Option<Alternatives> {
    if alts.Some? then Some([[t] + alts.value[0]] + alts.value[1..]) else None
  }

  /**
   A reader for regular expressions made of literals, escaped specials, `\s`, `.*` and `|`. Any
   other use of a special character is refused.
   */
  function ReadRegex(s: string): Option<Alternatives> {
    if s == "" then Some([[]])
    else if s[0] == '|' then
      var rest := ReadRegex(s[1..]);
      if rest.Some? then Some([[]] + rest.value) else None
    else if s[0] == '\\' then
      if |s| < 2 then None
      else if s[1] == 's' then Prepend(WhiteSpace, ReadRegex(s[2..]))
      else if s[1] in SPECIAL then Prepend(Lit(s[1]), ReadRegex(s[2..]))
      else None
    else if s[0] == '.' then
      if |s| >= 2 && s[1] == '*' then Prepend(AnySequence, ReadRegex(s[2..])) else None
    else if s[0] in SPECIAL || s[0] == '*' then None
    else Prepend(Lit(s[0]), ReadRegex(s[1..]))
  }

  lemma ReadImage(c: char, rest: string)
    ensures ReadRegex(Image(GLOB_RULES, c) + rest) == Prepend(GlobToken(c), ReadRegex(rest))
  {
    GlobImage(c);
    var img := Image(GLOB_RULES, c);
    var s := img + rest;
    assert s[|img|..] == rest;
    assert s[0] == img[0];
    if |img| == 2 { assert s[1] == img[1]; }
  }

  /** An escaped line in front of `rest` adds its tokens to the first alternative of `rest`. */
  lemma {:induction false} ReadEscapedLine(line: string, rest: string)
    requires ReadRegex(rest).Some?
    ensures ReadRegex(EscapeGlobLine(line) + rest)
            == Some([GlobTokens(line) + ReadRegex(rest).value[0]] + ReadRegex(rest).value[1..])
  {
    hide EscapeGlobLine, Image, ReadRegex, GlobToken;
    EscapeGlobLineAtOnce(line);
    if line == "" {
      assert AtOnce(GLOB_RULES, line) + rest == rest;
      var alts := ReadRegex(rest).value;
      assert GlobTokens(line) + alts[0] == alts[0];
      assert [alts[0]] + alts[1..] == alts;
    } else {
      var tail := AtOnce(GLOB_RULES, line[1..]) + rest;
      assert AtOnce(GLOB_RULES, line) + rest == Image(GLOB_RULES, line[0]) + tail;
      ReadImage(line[0], tail);
      EscapeGlobLineAtOnce(line[1..]);
      ReadEscapedLine(line[1..], rest);
      var alts := ReadRegex(rest).value;
      assert [GlobToken(line[0])] + (GlobTokens(line[1..]) + alts[0]) == GlobTokens(line) + alts[0];
    }
  }

  lemma {:induction false} ReadJoinedLines(lines: seq<string>)
    requires lines != []
    ensures ReadRegex(Join(EscapeLines(lines), "|")) == Some(GlobMeanings(CutAll(lines)))
  {
    hide EscapeGlobLine, ReadRegex, GlobTokens, Cut;
    var first := Cut(lines[0]);
    var text := EscapeGlobLine(first);
    assert GlobTokens(first) + [] == GlobTokens(first);
    ReadEnds();
    if |lines| == 1 {
      OneEscapedLine(lines);
      ReadEscapedLine(first, "");
      assert GlobMeanings(CutAll(lines)) == [GlobTokens(first)] + [];
    } else {
      var tail := Join(EscapeLines(lines[1..]), "|");
      ReadJoinedLines(lines[1..]);
      ReadBar(tail);
      JoinedLines(lines);
      ReadEscapedLine(first, "|" + tail);
      var rest := GlobMeanings(CutAll(lines[1..]));
      assert ([[]] + rest)[1..] == rest;
      assert GlobMeanings(CutAll(lines)) == [GlobTokens(first)] + rest;
    }
  }

  lemma ReadEnds()
    ensures ReadRegex("") == Some([[]])
  {
  }

  lemma ReadBar(tail: string)
    requires ReadRegex(tail).Some?
    ensures ReadRegex("|" + tail) == Some([[]] + ReadRegex(tail).value)
  {
    assert ("|" + tail)[1..] == tail;
  }

  lemma OneEscapedLine(lines: seq<string>)
    requires |lines| == 1
    ensures Join(EscapeLines(lines), "|") == EscapeGlobLine(Cut(lines[0])) + ""
  {
    hide EscapeGlobLine, Cut;
    assert EscapeLines(lines) == [EscapeGlobLine(Cut(lines[0]))];
  }

  lemma JoinedLines(lines: seq<string>)
    requires |lines| > 1
    ensures Join(EscapeLines(lines), "|") == EscapeGlobLine(Cut(lines[0])) + ("|" + Join(EscapeLines(lines[1..]), "|"))
  {
    hide EscapeGlobLine, Cut;
    var (text, rest) := (EscapeGlobLine(Cut(lines[0])), EscapeLines(lines[1..]));
    assert EscapeLines(lines) == [text] + rest && ([text] + rest)[1..] == rest;
    assert text + "|" + Join(rest, "|") == text + ("|" + Join(rest, "|"));
  }

  lemma {:induction false} EscapeLinesPrefix(lines: seq<string>, n: nat)
    requires n <= |lines|
    ensures EscapeLines(lines)[..n] == EscapeLines(lines[..n])
  {
    assert lines == lines[..n] + lines[n..];
    EscapeLinesConcat(lines[..n], lines[n..]);
  }

  /**
   Reading the generated expression gives back exactly the listed globs, each with its meaning,
   whenever at least one survives. With none the expression is empty, which reads as a single
   empty alternative.
   */
  lemma RegexReadsBack(text: string)
    ensures ReadRegex(RegexOf(text)) == Some(if Globs(text) == [] then [[]] else GlobMeanings(Globs(text)))
  {
    var entries := EntriesOf(text);
    var kept := if |entries| > MAX_PATTERNS then entries[..MAX_PATTERNS] else entries;
    EscapeLinesPrefix(entries, |kept|);
    assert RegexOf(text) == Join(EscapeLines(kept), "|");
    if kept != [] {
      ReadJoinedLines(kept);
    }
  }

  /** Read as a regular expression, the text lists as many alternatives as globs, unless none is left. */
  lemma RegexCountsGlobs(text: string)
    ensures ReadRegex(RegexOf(text)).Some?
    ensures |ReadRegex(RegexOf(text)).value| == |Globs(text)| <==> Globs(text) != []
  {
    RegexReadsBack(text);
  }
}
