/**
 The expression of an agent list inside the configuration, where it stands without quotes: whether nginx
 reads it as one word, and whether the word's value is still the expression.
 */
module GlobWords {
  import opened GlobPattern
  import opened GoStrings
  import opened LineLists
  import opened NginxText
  import opened Options
  import opened ReplaceChain

  /** A glob that stays inside its word: spaces and braces are escaped, but not these. */
  predicate StaysInWord(glob: string) {
    forall c <- glob :: c !in "\t\r\n;"
  }

  predicate KeepsValue(glob: string) {
    '\\' !in glob
  }

  // ---- one character ----

  lemma PlainRunsOn(c: char, rest: string)
    requires c != '\\'
    ensures OneWord([c] + rest) <==> !EndsWord(c) && OneWord(rest)
  {
    assert ([c] + rest)[1..] == rest;
  }

  lemma PlainValue(c: char, rest: string)
    requires c != '\\'
    ensures NginxValue([c] + rest) == [c] + NginxValue(rest)
  {
    assert ([c] + rest)[1..] == rest;
  }

  lemma PairRunsOn(c: char, rest: string)
    ensures OneWord(['\\', c] + rest) <==> OneWord(rest)
  {
    var s := ['\\', c] + rest;
    assert s[1..] == [c] + rest && s[1..][1..] == rest;
    assert RunsOnFrom(s[1..], true) == OneWord(rest);
  }

  lemma PairValue(c: char, rest: string)
    ensures NginxValue(['\\', c] + rest) == Unescaped(c) + NginxValue(rest)
  {
    var s := ['\\', c] + rest;
    assert s[1..] == [c] + rest && s[1..][1..] == rest;
    assert ValueFrom(s[1..], true) == Unescaped(c) + NginxValue(rest);
  }

  lemma SpecialStays(c: char)
    requires c in SPECIAL
    ensures c !in "\t\r\n;*" && Unescaped(c) == if c == '\\' then "\\" else ['\\', c]
  {
  }

  lemma ImageRunsOn(c: char, rest: string)
    ensures OneWord(Image(GLOB_RULES, c) + rest) <==> c !in "\t\r\n;" && OneWord(rest)
  {
    hide OneWord, Image, GLOB_RULES, SPECIAL;
    GlobImage(c);
    if c in SPECIAL {
      SpecialStays(c);
      PairRunsOn(c, rest);
    } else if c == '*' {
      PlainRunsOn('.', "*" + rest);
      PlainRunsOn('*', rest);
      assert ".*" + rest == "." + ("*" + rest);
    } else if c == ' ' {
      PairRunsOn('s', rest);
    } else {
      SpecialsListed();
      PlainRunsOn(c, rest);
    }
  }

  lemma SpecialsListed()
    ensures '\\' in SPECIAL && '{' in SPECIAL
  {
    assert SPECIAL[0] == '\\' && SPECIAL[8] == '{';
  }

  lemma ImageValue(c: char, rest: string)
    ensures NginxValue(Image(GLOB_RULES, c) + rest)
            == (if c == '\\' then "\\" else Image(GLOB_RULES, c)) + NginxValue(rest)
  {
    hide NginxValue, Image, GLOB_RULES, SPECIAL;
    GlobImage(c);
    SpecialsListed();
    if c in SPECIAL {
      SpecialStays(c);
      PairValue(c, rest);
    } else if c == '*' {
      PlainValue('.', "*" + rest);
      PlainValue('*', rest);
      assert ".*" + rest == "." + ("*" + rest);
      assert "." + ("*" + NginxValue(rest)) == ".*" + NginxValue(rest);
    } else if c == ' ' {
      PairValue('s', rest);
    } else {
      PlainValue(c, rest);
    }
  }

  // ---- one glob ----

  lemma {:induction false} GlobRunsOn(glob: string, rest: string)
    ensures OneWord(AtOnce(GLOB_RULES, glob) + rest) <==> StaysInWord(glob) && OneWord(rest)
  {
    hide Image, OneWord;
    if glob == "" {
      assert AtOnce(GLOB_RULES, glob) + rest == rest;
    } else {
      var tail := AtOnce(GLOB_RULES, glob[1..]) + rest;
      assert AtOnce(GLOB_RULES, glob) + rest == Image(GLOB_RULES, glob[0]) + tail;
      ImageRunsOn(glob[0], tail);
      GlobRunsOn(glob[1..], rest);
      assert glob == [glob[0]] + glob[1..];
    }
  }

  /** Nothing is lost without a backslash, and every backslash costs one character. */
  lemma {:induction false} GlobValue(glob: string, rest: string)
    ensures var text := AtOnce(GLOB_RULES, glob) + rest;
            && |NginxValue(text)| <= |AtOnce(GLOB_RULES, glob)| + |NginxValue(rest)|
            && (KeepsValue(glob) ==> NginxValue(text) == AtOnce(GLOB_RULES, glob) + NginxValue(rest))
            && (!KeepsValue(glob) ==> |NginxValue(text)| < |AtOnce(GLOB_RULES, glob)| + |NginxValue(rest)|)
  {
    hide Image, NginxValue;
    if glob == "" {
      assert AtOnce(GLOB_RULES, glob) + rest == rest;
    } else {
      var tail := AtOnce(GLOB_RULES, glob[1..]) + rest;
      assert AtOnce(GLOB_RULES, glob) + rest == Image(GLOB_RULES, glob[0]) + tail;
      ImageValue(glob[0], tail);
      BackslashImage();
      GlobValue(glob[1..], rest);
      assert glob == [glob[0]] + glob[1..];
    }
  }

  lemma BackslashImage()
    ensures Image(GLOB_RULES, '\\') == "\\\\"
  {
    GlobImage('\\');
  }

  // ---- the whole list ----

  predicate AllStayInWord(globs: seq<string>) {
    forall g <- globs :: StaysInWord(g)
  }

  predicate AllKeepValue(globs: seq<string>) {
    forall g <- globs :: KeepsValue(g)
  }

  function ListRegex(globs: seq<string>): string {
    if globs == [] then ""
    else if |globs| == 1 then AtOnce(GLOB_RULES, globs[0])
    else AtOnce(GLOB_RULES, globs[0]) + ("|" + ListRegex(globs[1..]))
  }

  lemma {:induction false} ListRegexOfLines(lines: seq<string>)
    ensures Join(EscapeLines(lines), "|") == ListRegex(CutAll(lines))
  {
    hide EscapeGlobLine, AtOnce, Cut;
    if lines != [] {
      EscapeGlobLineAtOnce(Cut(lines[0]));
      if |lines| == 1 {
        OneEscapedLine(lines);
      } else {
        JoinedLines(lines);
        ListRegexOfLines(lines[1..]);
        assert CutAll(lines)[1..] == CutAll(lines[1..]);
      }
    }
  }

  lemma RegexIsListRegex(text: string)
    ensures RegexOf(text) == ListRegex(Globs(text))
  {
    hide EscapeLines, CutAll, Join;
    var entries := EntriesOf(text);
    var kept := if |entries| > MAX_PATTERNS then entries[..MAX_PATTERNS] else entries;
    EscapeLinesPrefix(entries, |kept|);
    assert entries[..|kept|] == kept;
    ListRegexOfLines(kept);
  }

  lemma {:induction false} ListRunsOn(globs: seq<string>, rest: string)
    ensures OneWord(ListRegex(globs) + rest) <==> AllStayInWord(globs) && OneWord(rest)
  {
    hide OneWord, AtOnce, StaysInWord;
    if globs == [] {
      assert ListRegex(globs) + rest == rest;
    } else {
      assert globs == [globs[0]] + globs[1..];
      if |globs| == 1 {
        GlobRunsOn(globs[0], rest);
      } else {
        var tail := ListRegex(globs[1..]) + rest;
        assert ListRegex(globs) + rest == AtOnce(GLOB_RULES, globs[0]) + ("|" + tail);
        GlobRunsOn(globs[0], "|" + tail);
        PlainRunsOn('|', tail);
        ListRunsOn(globs[1..], rest);
      }
    }
  }

  lemma {:induction false} ListValue(globs: seq<string>, rest: string)
    ensures var text := ListRegex(globs) + rest;
            && |NginxValue(text)| <= |ListRegex(globs)| + |NginxValue(rest)|
            && (AllKeepValue(globs) ==> NginxValue(text) == ListRegex(globs) + NginxValue(rest))
            && (!AllKeepValue(globs) ==> |NginxValue(text)| < |ListRegex(globs)| + |NginxValue(rest)|)
  {
    hide NginxValue, AtOnce, KeepsValue;
    if globs == [] {
      assert ListRegex(globs) + rest == rest;
    } else {
      assert globs == [globs[0]] + globs[1..];
      if |globs| == 1 {
        GlobValue(globs[0], rest);
      } else {
        var tail := ListRegex(globs[1..]) + rest;
        assert ListRegex(globs) + rest == AtOnce(GLOB_RULES, globs[0]) + ("|" + tail);
        GlobValue(globs[0], "|" + tail);
        PlainValue('|', tail);
        ListValue(globs[1..], rest);
      }
    }
  }

  /** The expression as the templates write it, in the parentheses of its group. */
  function Grouped(regex: string): string {
    "(" + regex + ")"
  }

  /** nginx reads the group as one word exactly if no listed glob holds a semicolon, a tab or a line break. */
  lemma GroupIsOneWord(text: string)
    ensures OneWord(Grouped(RegexOf(text))) <==> forall g <- Globs(text) :: StaysInWord(g)
  {
    hide StaysInWord, RegexOf, Globs, ListRegex;
    RegexIsListRegex(text);
    var regex := RegexOf(text);
    assert Grouped(regex)[1..] == regex + ")";
    assert ")"[1..] == "";
    ListRunsOn(Globs(text), ")");
  }

  /** The word's value is the group as written exactly if no listed glob holds a backslash. */
  lemma GroupKeepsValue(text: string)
    ensures NginxValue(Grouped(RegexOf(text))) == Grouped(RegexOf(text)) <==> forall g <- Globs(text) :: KeepsValue(g)
  {
    hide KeepsValue, NginxValue, RegexOf, Globs, ListRegex;
    RegexIsListRegex(text);
    var regex := RegexOf(text);
    assert Grouped(regex) == ['('] + (regex + ")");
    PlainValue('(', regex + ")");
    ListValue(Globs(text), ")");
    ClosingValue();
  }

  lemma ClosingValue()
    ensures NginxValue(")") == ")"
  {
    assert ")"[1..] == "";
  }

  // ---- examples ----

  lemma OneGlob(glob: string)
    requires glob in ["a;b", "a\\b", "\\s"]
    ensures Globs(glob) == [glob]
  {
    SplitWithout(glob, '\n');
    TrimSpaceFixed(glob);
    assert Entries([glob][1..]) == [];
    assert Entries([glob]) == [glob];
    assert CutAll([glob][1..]) == [];
  }

  /** A semicolon, as in most agent names copied from a log, ends the word and with it the directive. */
  lemma SemicolonExample()
    ensures !OneWord(Grouped(RegexOf("a;b")))
  {
    OneGlob("a;b");
    GroupIsOneWord("a;b");
    assert !StaysInWord("a;b") by { assert ';' in "a;b"; }
    assert "a;b" in Globs("a;b");
  }

  lemma EscapedBackslash()
    ensures RegexOf("a\\b") == "a\\\\b"
  {
    hide Image, GLOB_RULES, SPECIAL, RegexOf, Globs;
    var glob := "a\\b";
    OneGlob(glob);
    RegexIsListRegex(glob);
    LettersStay();
    BackslashImage();
    assert glob[1..] == "\\b" && glob[1..][1..] == "b" && "b"[1..] == "";
    assert AtOnce(GLOB_RULES, "b") == "b";
    assert AtOnce(GLOB_RULES, "\\b") == "\\\\b";
  }

  lemma LettersStay()
    ensures Image(GLOB_RULES, 'a') == "a" && Image(GLOB_RULES, 'b') == "b" && Image(GLOB_RULES, 's') == "s"
  {
    hide Image, GLOB_RULES;
    GlobImage('a');
    GlobImage('b');
    GlobImage('s');
  }

  /** The glob `a\b` is meant to match a backslash; nginx's engine is given a word boundary instead. */
  lemma BackslashExample()
    ensures RegexOf("a\\b") == "a\\\\b" && NginxValue("a\\\\b") == "a\\b" && ReadRegex("a\\b") == None
  {
    hide RegexOf;
    EscapedBackslash();
    assert "a\\\\b" == "a" + ("\\\\" + "b");
    PlainValue('a', "\\\\" + "b");
    PairValue('\\', "b");
    PlainValue('b', "");
    assert "b" == "b" + "" && "a" + ("\\" + "b") == "a\\b";
    assert "a\\b"[1..] == "\\b" && 's' != 'b' && 'b' !in SPECIAL;
    assert ReadRegex("\\b") == None;
  }
}
