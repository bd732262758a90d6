/** How a rule file is cut into lines before its rules are looked for: comments, blank lines, continued lines. */
module RuleLines {
  import opened Decimals
  import opened GoStrings
  import opened Options
  import opened Waf

  predicate Spaces(s: string) {
    forall c <- s :: IsSpace(c)
  }

  lemma {:induction false} TrimLeftSpaces(front: string, s: string)
    requires Spaces(front) && s != "" && !IsSpace(s[0])
    ensures TrimLeft(front + s) == s
  {
    if front == "" {
      assert front + s == s;
    } else {
      assert (front + s)[1..] == front[1..] + s;
      TrimLeftSpaces(front[1..], s);
    }
  }

  lemma {:induction false} TrimRightKeepsFirst(s: string)
    requires s != "" && !IsSpace(s[0])
    ensures TrimRight(s) != "" && TrimRight(s)[0] == s[0]
  {
    if IsSpace(s[|s| - 1]) {
      TrimRightKeepsFirst(s[..|s| - 1]);
    }
  }

  /** A commented line declares no rule, whatever is in the comment; nor does a line of white space. */
  lemma CommentDeclaresNothing(front: string, comment: string)
    requires Spaces(front)
    ensures RuleOn(front + ("#" + comment)) == None
    ensures RuleOn(front) == None
  {
    hide FindId;
    var s := "#" + comment;
    TrimLeftSpaces(front, s);
    TrimRightKeepsFirst(s);
    assert TrimSpace(front + s)[..1] == "#";
    SpacesTrimAway(front);
  }

  lemma {:induction false} SpacesTrimAway(s: string)
    requires Spaces(s)
    ensures TrimLeft(s) == "" && TrimSpace(s) == ""
  {
    if s != "" {
      SpacesTrimAway(s[1..]);
    }
  }

  /** Any other line declares the rule whose number is found in it. */
  lemma OtherLineDeclares(front: string, c: char, rest: string)
    requires Spaces(front) && !IsSpace(c) && c != '#'
    ensures RuleOn(front + ([c] + rest)) == FindId(front + ([c] + rest))
  {
    hide FindId, TrimRight;
    var s := [c] + rest;
    TrimLeftSpaces(front, s);
    TrimRightKeepsFirst(s);
  }

  // ---- continued lines ----

  /** Occurrences of `pat` cannot overlap. */
  predicate Solid(pat: string) {
    pat != "" && pat[0] !in pat[1..]
  }

  lemma {:induction false} ReplaceAtJoint(a: string, pat: string, b: string, to: string)
    requires Solid(pat)
    ensures ReplaceAll(a + (pat + b), pat, to) == ReplaceAll(a, pat, to) + (to + ReplaceAll(b, pat, to))
    decreases |a|
  {
    hide ReplaceAll;
    var s := a + (pat + b);
    var tail := to + ReplaceAll(b, pat, to);
    if a == "" {
      assert s == pat + b;
      ReplaceMatch(s, pat, b, to);
      ReplaceNothing(pat, to);
    } else if |a| >= |pat| && a[..|pat|] == pat {
      var rest := a[|pat|..];
      ReplaceAtJoint(rest, pat, b, to);
      assert a == pat + rest && s == pat + (rest + (pat + b));
      ReplaceMatch(a, pat, rest, to);
      ReplaceMatch(s, pat, rest + (pat + b), to);
    } else {
      NoMatchAcross(a, pat, pat[0], pat[1..] + b);
      assert pat + b == [pat[0]] + (pat[1..] + b);
      assert s[1..] == a[1..] + (pat + b);
      ReplaceAtJoint(a[1..], pat, b, to);
      Advance(s, pat, to);
      Advance(a, pat, to);
    }
  }

  lemma ReplaceMatch(s: string, pat: string, rest: string, to: string)
    requires pat != "" && s == pat + rest
    ensures ReplaceAll(s, pat, to) == to + ReplaceAll(rest, pat, to)
  {
    assert s[..|pat|] == pat && s[|pat|..] == rest;
  }

  lemma ReplaceNothing(pat: string, to: string)
    requires pat != ""
    ensures ReplaceAll("", pat, to) == ""
  {
  }

  /** Without a match at its front, a text is replaced from its second character on. */
  lemma Advance(a: string, pat: string, to: string)
    requires a != "" && pat != "" && !(|a| >= |pat| && a[..|pat|] == pat)
    ensures ReplaceAll(a, pat, to) == [a[0]] + ReplaceAll(a[1..], pat, to)
  {
    assert a == [a[0]] + a[1..];
  }

  /** A character that cannot continue a match: no match at the front reaches beyond it. */
  lemma NoMatchAcross(a: string, pat: string, c: char, b: string)
    requires a != "" && pat != "" && c !in pat[1..] && !(|a| >= |pat| && a[..|pat|] == pat)
    ensures var s := a + ([c] + b); !(|s| >= |pat| && s[..|pat|] == pat)
  {
    var s := a + ([c] + b);
    if |s| >= |pat| {
      if |a| >= |pat| {
        assert s[..|pat|] == a[..|pat|];
      } else {
        assert s[..|pat|][|a|] == c && pat[|a|] == pat[1..][|a| - 1];
      }
    }
  }

  /** A character that is not in the pattern keeps what is before it and after it apart. */
  lemma {:induction false} ReplaceApart(a: string, c: char, b: string, pat: string, to: string)
    requires pat != "" && c !in pat
    ensures ReplaceAll(a + ([c] + b), pat, to) == ReplaceAll(a, pat, to) + ([c] + ReplaceAll(b, pat, to))
    decreases |a|
  {
    hide ReplaceAll;
    var s := a + ([c] + b);
    if a == "" {
      assert s == [c] + b && s[1..] == b;
      assert |s| >= |pat| ==> s[..|pat|][0] == c;
      Advance(s, pat, to);
      ReplaceNothing(pat, to);
    } else if |a| >= |pat| && a[..|pat|] == pat {
      var rest := a[|pat|..];
      ReplaceApart(rest, c, b, pat, to);
      assert a == pat + rest && s == pat + (rest + ([c] + b));
      ReplaceMatch(a, pat, rest, to);
      ReplaceMatch(s, pat, rest + ([c] + b), to);
    } else {
      NoMatchAcross(a, pat, c, b);
      assert s[1..] == a[1..] + ([c] + b);
      ReplaceApart(a[1..], c, b, pat, to);
      Advance(s, pat, to);
      Advance(a, pat, to);
    }
  }

  /** A text with its continued lines joined. */
  function Joined(content: string): string {
    ReplaceAll(ReplaceAll(content, "\\\n", " "), "\\\r\n", " ")
  }

  lemma {:induction false} BackslashAtEnd(a: string)
    ensures ReplaceAll(a + "\\", "\\\n", " ") == ReplaceAll(a, "\\\n", " ") + "\\"
    decreases |a|
  {
    var (s, pat) := (a + "\\", "\\\n");
    if a == "" {
      assert s == "\\" && |s| < |pat|;
    } else if |a| >= 2 && a[..2] == pat {
      assert s[..2] == pat && s[2..] == a[2..] + "\\";
      BackslashAtEnd(a[2..]);
    } else {
      assert |a| >= 2 ==> s[..2] == a[..2];
      assert |a| == 1 ==> s[..2][1] == '\\';
      Advance(s, pat, " ");
      assert s[1..] == a[1..] + "\\";
      BackslashAtEnd(a[1..]);
      Advance(a, pat, " ");
    }
  }

  lemma BreakAtFront(b: string)
    ensures ReplaceAll("\n" + b, "\\\n", " ") == "\n" + ReplaceAll(b, "\\\n", " ")
  {
    var s := "\n" + b;
    assert s[1..] == b && (|s| >= 2 ==> s[..2][0] == '\n');
    Advance(s, "\\\n", " ");
  }

  /** The first pass leaves a continuation with a carriage return alone. */
  lemma ReturnKept(a: string, b: string)
    ensures ReplaceAll(a + ("\\\r\n" + b), "\\\n", " ")
            == ReplaceAll(a, "\\\n", " ") + ("\\\r\n" + ReplaceAll(b, "\\\n", " "))
  {
    hide ReplaceAll;
    var (x, y) := (ReplaceAll(a, "\\\n", " "), ReplaceAll(b, "\\\n", " "));
    assert a + ("\\\r\n" + b) == a + "\\" + (['\r'] + ("\n" + b));
    ReplaceApart(a + "\\", '\r', "\n" + b, "\\\n", " ");
    BackslashAtEnd(a);
    BreakAtFront(b);
    assert x + "\\" + (['\r'] + ("\n" + y)) == x + ("\\\r\n" + y);
  }

  /** A line that ends with a backslash and the next one are one line, with a space between them. */
  lemma ContinuedLineIsJoined(a: string, b: string)
    ensures Joined(a + ("\\\n" + b)) == Joined(a) + (" " + Joined(b))
    ensures Joined(a + ("\\\r\n" + b)) == Joined(a) + (" " + Joined(b))
    ensures LogicalLines(a + ("\\\n" + b)) == Split(Joined(a) + (" " + Joined(b)), '\n')
    ensures LogicalLines(a + ("\\\r\n" + b)) == Split(Joined(a) + (" " + Joined(b)), '\n')
  {
    hide ReplaceAll, Split;
    var (x, y) := (ReplaceAll(a, "\\\n", " "), ReplaceAll(b, "\\\n", " "));
    assert '\\' !in "\\\n"[1..] && '\\' !in "\\\r\n"[1..];
    ReplaceAtJoint(a, "\\\n", b, " ");
    ReplaceApart(x, ' ', y, "\\\r\n", " ");
    ReturnKept(a, b);
    ReplaceAtJoint(x, "\\\r\n", y, " ");
  }

  /** Without a backslash nothing is joined, and the file is simply cut at its line breaks. */
  lemma NothingToJoin(content: string)
    requires '\\' !in content
    ensures LogicalLines(content) == Split(content, '\n')
  {
    hide Split;
    NothingReplaced(content, "\\\n");
    NothingReplaced(content, "\\\r\n");
  }

  lemma {:induction false} NothingReplaced(content: string, pat: string)
    requires '\\' !in content && pat != "" && pat[0] == '\\'
    ensures ReplaceAll(content, pat, " ") == content
  {
    if |content| >= |pat| {
      assert content[..|pat|][0] == content[0];
      NothingReplaced(content[1..], pat);
    }
  }

  // ---- rule numbers ----

  /** `id` in any case, colons or white space, a quote or none, six digits. */
  ghost predicate Declares(s: string, word: string, gap: string, quote: string, digits: string, after: string) {
    && s == word + (gap + (quote + (digits + after)))
    && |word| == 2 && word[0] in {'i', 'I'} && word[1] in {'d', 'D'}
    && (forall c <- gap :: c in {':', ' ', '\t', '\n', '\r', FF})
    && quote in {"", "'", "\""}
    && |digits| == 6 && AllDigits(digits)
  }

  lemma {:induction false} SkipGap(gap: string, s: string)
    requires (forall c <- gap :: IsColonOrSpace(c)) && (s == "" || !IsColonOrSpace(s[0]))
    ensures SkipSeparators(gap + s) == s
  {
    if gap == "" {
      assert gap + s == s;
    } else {
      assert (gap + s)[1..] == gap[1..] + s;
      SkipGap(gap[1..], s);
    }
  }

  lemma {:induction false} GapOf(s: string) returns (gap: string)
    ensures s == gap + SkipSeparators(s) && forall c <- gap :: IsColonOrSpace(c)
  {
    gap := "";
    if s != "" && IsColonOrSpace(s[0]) {
      gap := GapOf(s[1..]);
      assert [s[0]] + (gap + SkipSeparators(s[1..])) == [s[0]] + gap + SkipSeparators(s[1..]);
      assert s == [s[0]] + s[1..];
      gap := [s[0]] + gap;
    } else {
      assert s == "" + s;
    }
  }

  /** A rule number can be read at the front of a text exactly if the text begins so, and it is that number. */
  lemma DeclaredIsRead(s: string, word: string, gap: string, quote: string, digits: string, after: string)
    requires Declares(s, word, gap, quote, digits, after)
    ensures IdHere(s) == Some(ReadDecimal(digits))
  {
    hide ReadDecimal, SkipSeparators;
    var tail := digits + after;
    assert IsDigit(digits[0]) && tail[0] == digits[0];
    assert s[2..] == gap + (quote + tail) && s[0] == word[0] && s[1] == word[1];
    assert (quote + tail)[0] == if quote == "" then digits[0] else quote[0];
    SkipGap(gap, quote + tail);
    assert SkipQuote(quote + tail) == tail by { assert quote != "" ==> (quote + tail)[1..] == tail; }
    assert tail[..6] == digits;
  }

  lemma ReadIsDeclared(s: string)
    returns (word: string, gap: string, quote: string, digits: string, after: string)
    requires IdHere(s).Some?
    ensures Declares(s, word, gap, quote, digits, after) && IdHere(s) == Some(ReadDecimal(digits))
  {
    hide ReadDecimal, SkipSeparators;
    word := s[..2];
    gap := GapOf(s[2..]);
    var rest := SkipSeparators(s[2..]);
    var tail := SkipQuote(rest);
    quote := if rest != "" && (rest[0] == '\'' || rest[0] == '"') then [rest[0]] else "";
    digits, after := tail[..6], tail[6..];
    assert rest == quote + tail && tail == digits + after;
    assert s == s[..2] + s[2..] && s[2..] == gap + rest;
    assert quote == "" || quote == "'" || quote == "\"";
  }
}
