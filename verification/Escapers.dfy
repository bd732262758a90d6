/**
 The two text escapers: `escapeJS` for JavaScript string literals in the challenge page, and
 `escapeNginxPattern` for double-quoted nginx regexes. Each is proved against the reader that
 undoes it.
 */
module Escapers {
  import opened GoStrings
  import opened NginxText
  import opened ReplaceChain
  import opened Options

  // ---- escapeJS ----

  function EscapeJS(s: string): string {
    var s1 := ReplaceAll(s, "\\", "\\\\");
    var s2 := ReplaceAll(s1, "'", "\\'");
    var s3 := ReplaceAll(s2, "\"", "\\\"");
    var s4 := ReplaceAll(s3, "\n", "\\n");
    var s5 := ReplaceAll(s4, "\r", "\\r");
    var s6 := ReplaceAll(s5, "<", "\\x3c");
    var s7 := ReplaceAll(s6, ">", "\\x3e");
    ReplaceAll(s7, "&", "\\x26")
  }

  const JS_RULES: seq<Rule> := [
    Rule('\\', "\\\\"), Rule('\'', "\\'"), Rule('"', "\\\""), Rule('\n', "\\n"),
    Rule('\r', "\\r"), Rule('<', "\\x3c"), Rule('>', "\\x3e"), Rule('&', "\\x26")
  ]

  /** The eight replacements in sequence are one simultaneous map. */
  lemma EscapeJSAtOnce(s: string)
    ensures EscapeJS(s) == AtOnce(JS_RULES, s)
  {
    hide Chain, AtOnce, ReplaceAll, Image;
    var s1 := ChainStep(JS_RULES, 0, s);
    var s2 := ChainStep(JS_RULES, 1, s1);
    var s3 := ChainStep(JS_RULES, 2, s2);
    var s4 := ChainStep(JS_RULES, 3, s3);
    var s5 := ChainStep(JS_RULES, 4, s4);
    var s6 := ChainStep(JS_RULES, 5, s5);
    var s7 := ChainStep(JS_RULES, 6, s6);
    var s8 := ChainStep(JS_RULES, 7, s7);
    assert JS_RULES[0..] == JS_RULES;
    JsRulesIndependent();
    SequentialIsSimultaneous(JS_RULES, s);
  }

  lemma JsRulesIndependent()
    ensures Independent(JS_RULES)
  {}

  function HexDigit(c: char): Option<nat> {
    if '0' <= c <= '9' then Some(c as nat - '0' as nat)
    else if 'a' <= c <= 'f' then Some(c as nat - 'a' as nat + 10)
    else if 'A' <= c <= 'F' then Some(c as nat - 'A' as nat + 10)
    else None
  }

  /**
   How JavaScript reads the body of a string literal, whichever quote delimits it. A raw quote or
   line break would end the literal, so it makes the reading fail.
   */
  function JsRead(s: string): Option<string> {
    if s == "" then Some("")
    else if s[0] == '\'' || s[0] == '"' || s[0] == '\n' || s[0] == '\r' then None
    else if s[0] != '\\' then Cons(s[0], JsRead(s[1..]))
    else if |s| < 2 then None
    else if s[1] == '\\' || s[1] == '\'' || s[1] == '"' then Cons(s[1], JsRead(s[2..]))
    else if s[1] == 'n' then Cons('\n', JsRead(s[2..]))
    else if s[1] == 'r' then Cons('\r', JsRead(s[2..]))
    else if s[1] == 'x' && |s| >= 4 && HexDigit(s[2]).Some? && HexDigit(s[3]).Some? then
      Cons((16 * HexDigit(s[2]).value + HexDigit(s[3]).value) as char, JsRead(s[4..]))
    else None
  }

  function Cons(c: char, rest: Option<string>): Option<string> {
    if rest.Some? then Some([c] + rest.value) else None
  }

  lemma JsReadPlain(c: char, rest: string)
    requires c !in "\\'\"\n\r"
    ensures JsRead([c] + rest) == Cons(c, JsRead(rest))
  {
    assert ([c] + rest)[1..] == rest;
  }

  lemma JsReadLetter(letter: char, c: char, rest: string)
    requires if letter in "\\'\"" then c == letter else if letter == 'n' then c == '\n' else letter == 'r' && c == '\r'
    ensures JsRead(['\\', letter] + rest) == Cons(c, JsRead(rest))
  {
    assert (['\\', letter] + rest)[2..] == rest;
  }

  lemma JsReadHex(h: char, l: char, c: char, rest: string)
    requires HexDigit(h).Some? && HexDigit(l).Some? && c as nat == 16 * HexDigit(h).value + HexDigit(l).value
    ensures JsRead(['\\', 'x', h, l] + rest) == Cons(c, JsRead(rest))
  {
    assert (['\\', 'x', h, l] + rest)[4..] == rest;
  }

  lemma JsReadImage(c: char, rest: string)
    ensures JsRead(Image(JS_RULES, c) + rest) == Cons(c, JsRead(rest))
  {
    hide Image, JsRead, Cons;
    JsImage(c);
    match c
    case '<' => JsReadHex('3', 'c', c, rest);
    case '>' => JsReadHex('3', 'e', c, rest);
    case '&' => JsReadHex('2', '6', c, rest);
    case '\n' => JsReadLetter('n', c, rest);
    case '\r' => JsReadLetter('r', c, rest);
    case _ => if c in "\\'\"" { JsReadLetter(c, c, rest); } else { JsReadPlain(c, rest); }
  }

  lemma JsImage(c: char)
    ensures Image(JS_RULES, c) == match c
                                  case '<' => "\\x3c"
                                  case '>' => "\\x3e"
                                  case '&' => "\\x26"
                                  case '\n' => "\\n"
                                  case '\r' => "\\r"
                                  case _ => if c in "\\'\"" then ['\\', c] else [c]
  {
    hide Image;
    match c
    case '\\' => ImageOfRule(JS_RULES, 0);
    case '\'' => ImageOfRule(JS_RULES, 1);
    case '"' => ImageOfRule(JS_RULES, 2);
    case '\n' => ImageOfRule(JS_RULES, 3);
    case '\r' => ImageOfRule(JS_RULES, 4);
    case '<' => ImageOfRule(JS_RULES, 5);
    case '>' => ImageOfRule(JS_RULES, 6);
    case '&' => ImageOfRule(JS_RULES, 7);
    case _ => ImageOfOther(JS_RULES, c);
  }

  /** A JavaScript engine reads back exactly the text that was escaped. */
  lemma {:induction false} EscapeJSRoundTrip(s: string)
    ensures JsRead(EscapeJS(s)) == Some(s)
  {
    EscapeJSAtOnce(s);
    JsReadAtOnce(s);
  }

  lemma {:induction false} JsReadAtOnce(s: string)
    ensures JsRead(AtOnce(JS_RULES, s)) == Some(s)
  {
    if s != "" {
      JsReadImage(s[0], AtOnce(JS_RULES, s[1..]));
      JsReadAtOnce(s[1..]);
      assert [s[0]] + s[1..] == s;
    }
  }

  predicate MarkupFree(s: string) {
    '<' !in s && '>' !in s && '&' !in s
  }

  lemma ImageMarkupFree(c: char)
    ensures MarkupFree(Image(JS_RULES, c))
  {
    JsImage(c);
  }

  lemma {:induction false} AtOnceMarkupFree(s: string)
    ensures MarkupFree(AtOnce(JS_RULES, s))
  {
    if s != "" {
      ImageMarkupFree(s[0]);
      AtOnceMarkupFree(s[1..]);
    }
  }

  /** The output holds no character that HTML would act on inside a script element. */
  lemma EscapeJSHidesMarkup(s: string)
    ensures MarkupFree(EscapeJS(s))
  {
    EscapeJSAtOnce(s);
    AtOnceMarkupFree(s);
  }

  // ---- escapeNginxPattern ----

  function EscapeNginxPattern(s: string): string {
    ReplaceAll(ReplaceAll(s, "\\\"", "\""), "\"", "\\\"")
  }

  function UnescapeQuotes(s: string): string {
    ReplaceAll(s, "\\\"", "\"")
  }

  /** Unescaping undoes the quote-escaping pass on every text. */
  lemma {:induction false} UnescapeUndoesEscape(s: string)
    ensures UnescapeQuotes(ReplaceAll(s, "\"", "\\\"")) == s
  {
    if s != "" {
      var rest := ReplaceAll(s[1..], "\"", "\\\"");
      UnescapeUndoesEscape(s[1..]);
      if s[0] == '"' {
        assert s[..1] == "\"";
        assert ("\\\"" + rest)[..2] == "\\\"" && ("\\\"" + rest)[2..] == rest;
      } else {
        assert s[..1] != "\"";
        EscapedQuoteNeverFirst(s[1..]);
        var e := [s[0]] + rest;
        assert |e| >= 2 ==> e[..2][1] == rest[0];
        assert e[1..] == rest;
      }
    }
  }

  lemma EscapedQuoteNeverFirst(s: string)
    ensures var e := ReplaceAll(s, "\"", "\\\""); e == "" || e[0] != '"'
  {
    if s != "" && s[0] == '"' { assert s[..1] == "\""; }
  }

  /** Escaping an escaped pattern again changes nothing. */
  lemma EscapeNginxPatternIdempotent(s: string)
    ensures EscapeNginxPattern(EscapeNginxPattern(s)) == EscapeNginxPattern(s)
  {
    UnescapeUndoesEscape(ReplaceAll(s, "\\\"", "\""));
  }

  /** The escaped pattern and the original agree once their quotes are unescaped. */
  lemma EscapeNginxPatternKeepsMeaning(s: string)
    ensures UnescapeQuotes(EscapeNginxPattern(s)) == UnescapeQuotes(s)
  {
    UnescapeUndoesEscape(ReplaceAll(s, "\\\"", "\""));
  }

  predicate QuotesEscaped(s: string) {
    forall k :: 0 <= k < |s| && s[k] == '"' ==> k > 0 && s[k - 1] == '\\'
  }

  /** Every quote of the output follows a backslash. */
  lemma EscapeNginxPatternQuotes(s: string)
    ensures QuotesEscaped(EscapeNginxPattern(s))
  {
    EscapePassQuotes(UnescapeQuotes(s));
  }

  lemma {:induction false} EscapePassQuotes(s: string)
    ensures QuotesEscaped(ReplaceAll(s, "\"", "\\\""))
  {
    if s != "" {
      EscapePassQuotes(s[1..]);
      EscapedQuoteNeverFirst(s[1..]);
      var rest := ReplaceAll(s[1..], "\"", "\\\"");
      if s[0] == '"' {
        assert s[..1] == "\"";
        assert forall k :: 2 <= k < 2 + |rest| ==> ("\\\"" + rest)[k] == rest[k - 2];
      } else {
        assert s[..1] != "\"";
        assert forall k :: 1 <= k < 1 + |rest| ==> ([s[0]] + rest)[k] == rest[k - 1];
      }
    }
  }

  // ---- the escaped pattern inside nginx's quotes ----

  /** The pass read from left to right: a quote comes out behind one backslash, whether it had one or not. */
  lemma EscapeNginxPatternCons(s: string)
    ensures s == "" ==> EscapeNginxPattern(s) == ""
    ensures HasPrefix(s, "\\\"") ==> EscapeNginxPattern(s) == "\\\"" + EscapeNginxPattern(s[2..])
    ensures s != "" && s[0] == '"' ==> EscapeNginxPattern(s) == "\\\"" + EscapeNginxPattern(s[1..])
    ensures s != "" && s[0] != '"' && !HasPrefix(s, "\\\"") ==>
              EscapeNginxPattern(s) == [s[0]] + EscapeNginxPattern(s[1..])
  {
    if HasPrefix(s, "\\\"") {
      EscapeFirst('"', UnescapeQuotes(s[2..]));
    } else if s != "" {
      UnescapeFirst(s);
      EscapeFirst(s[0], UnescapeQuotes(s[1..]));
    }
  }

  lemma EscapeFirst(c: char, rest: string)
    ensures ReplaceAll([c] + rest, "\"", "\\\"")
            == (if c == '"' then "\\\"" else [c]) + ReplaceAll(rest, "\"", "\\\"")
  {
    assert ([c] + rest)[1..] == rest && ([c] + rest)[..1] == [c];
  }

  lemma UnescapeFirst(s: string)
    requires s != "" && !HasPrefix(s, "\\\"")
    ensures UnescapeQuotes(s) == [s[0]] + UnescapeQuotes(s[1..])
  {
    if |s| == 1 {
      assert s == [s[0]] + s[1..];
    }
  }

  /** Escaping does not change the value that nginx hands to its regex engine. */
  lemma EscapeNginxPatternKeepsValue(s: string)
    ensures NginxValue(EscapeNginxPattern(s)) == NginxValue(s)
  {
    KeepsValueFrom(s, false);
  }

  lemma {:induction false} KeepsValueFrom(s: string, escaped: bool)
    requires s == "" || s[0] != '"' || !escaped
    ensures ValueFrom(EscapeNginxPattern(s), escaped) == ValueFrom(s, escaped)
  {
    hide EscapeNginxPattern;
    EscapeNginxPatternCons(s);
    if HasPrefix(s, "\\\"") {
      KeepsValueFrom(s[2..], false);
      EscapedQuoteValue(s[2..], escaped);
      EscapedQuoteValue(EscapeNginxPattern(s[2..]), escaped);
      assert s == "\\\"" + s[2..];
    } else if s != "" && s[0] == '"' {
      KeepsValueFrom(s[1..], false);
      EscapedQuoteValue(EscapeNginxPattern(s[1..]), false);
    } else if s != "" {
      KeepsValueFrom(s[1..], !escaped && s[0] == '\\');
      assert EscapeNginxPattern(s)[1..] == EscapeNginxPattern(s[1..]);
    }
  }

  lemma EscapedQuoteValue(rest: string, escaped: bool)
    ensures ValueFrom("\\\"" + rest, escaped) == (if escaped then "\\\"" else "\"") + ValueFrom(rest, false)
  {
    var s := "\\\"" + rest;
    assert s[1..] == "\"" + rest && s[1..][1..] == rest;
  }

  /** From `k` on, no quote follows an even run of backslashes other than none, and the text ends in an even run. */
  predicate FitFrom(s: string, k: nat)
    requires k <= |s|
  {
    && (forall j :: k <= j < |s| && s[j] == '"' ==> RunBefore(s, j) == 0 || Odd(RunBefore(s, j)))
    && !Odd(RunBefore(s, |s|))
  }

  lemma {:induction false} EscapedClosesFrom(s: string, k: nat)
    requires k <= |s| && (k < |s| && s[k] == '"' ==> RunBefore(s, k) == 0)
    ensures ClosesFrom(EscapeNginxPattern(s[k..]), Odd(RunBefore(s, k))) <==> FitFrom(s, k)
    decreases |s| - k
  {
    hide EscapeNginxPattern;
    var t := s[k..];
    EscapeNginxPatternCons(t);
    if HasPrefix(t, "\\\"") {
      assert t[2..] == s[k + 2..] && s[k] == t[..2][0] && s[k + 1] == t[..2][1];
      EscapedClosesFrom(s, k + 2);
      EscapedQuoteCloses(EscapeNginxPattern(t[2..]), Odd(RunBefore(s, k)));
    } else if k < |s| && s[k] == '"' {
      assert t[1..] == s[k + 1..];
      EscapedClosesFrom(s, k + 1);
      EscapedQuoteCloses(EscapeNginxPattern(t[1..]), false);
    } else if k < |s| {
      assert t[1..] == s[k + 1..];
      assert s[k] == '\\' && k + 1 < |s| && s[k + 1] == '"' ==> t[..2] == "\\\"";
      EscapedClosesFrom(s, k + 1);
      assert EscapeNginxPattern(t)[1..] == EscapeNginxPattern(t[1..]);
    }
  }

  lemma EscapedQuoteCloses(rest: string, escaped: bool)
    ensures ClosesFrom("\\\"" + rest, escaped) <==> !escaped && ClosesFrom(rest, false)
  {
    var s := "\\\"" + rest;
    assert s[1..] == "\"" + rest && s[1..][1..] == rest;
  }

  /**
   The escaped pattern is one nginx string exactly if every quote had no backslash or an odd run of them
   before it, and the text does not end in an odd run.
   */
  lemma EscapeNginxPatternFits(s: string)
    ensures OneString(EscapeNginxPattern(s)) <==> FitFrom(s, 0)
  {
    EscapedClosesFrom(s, 0);
    assert s[0..] == s;
  }

  /** A quote behind an escaped backslash is left as it is, and ends the string. */
  lemma DoubledBackslashExample()
    ensures EscapeNginxPattern("\\\\\"") == "\\\\\"" && !OneString("\\\\\"")
  {
    var s := "\\\\\"";
    EscapeNginxPatternCons(s);
    assert s[..2] == "\\\\" && s[1..] == "\\\"";
    EscapeNginxPatternCons(s[1..]);
    EscapeNginxPatternCons("");
    assert s[1..][1..][0] == '"';
  }
}
