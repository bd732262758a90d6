/**
 How nginx reads a text that a template puts into its configuration: where a word or a double-quoted
 string ends, and which backslashes are gone from its value.
 */
module NginxText {

  /** What a character stands for after a backslash. */
  function Unescaped(c: char): string {
    if c == '\\' || c == '"' || c == '\'' then [c]
    else if c == 't' then "\t"
    else if c == 'r' then "\r"
    else if c == 'n' then "\n"
    else ['\\', c]
  }

  /** The value of `s`, when a backslash has just been read or not. */
  function ValueFrom(s: string, escaped: bool): string {
    if s == "" then if escaped then "\\" else ""
    else if escaped then Unescaped(s[0]) + ValueFrom(s[1..], false)
    else if s[0] == '\\' then ValueFrom(s[1..], true)
    else [s[0]] + ValueFrom(s[1..], false)
  }

  function NginxValue(s: string): string {
    ValueFrom(s, false)
  }

  /** Read from here, the next unescaped quote is the one that follows `s`. */
  predicate ClosesFrom(s: string, escaped: bool) {
    if s == "" then !escaped
    else if escaped then ClosesFrom(s[1..], false)
    else s[0] != '"' && ClosesFrom(s[1..], s[0] == '\\')
  }

  /** Between double quotes `s` is one string, ended by the second quote. */
  predicate OneString(s: string) {
    ClosesFrom(s, false)
  }

  /** White space, `;` and `{` end a word without quotes (a `{` behind a `$` does not; none is written here). */
  predicate EndsWord(c: char) {
    c in " \t\r\n;{"
  }

  predicate RunsOnFrom(s: string, escaped: bool) {
    if s == "" then !escaped
    else if escaped then RunsOnFrom(s[1..], false)
    else !EndsWord(s[0]) && RunsOnFrom(s[1..], s[0] == '\\')
  }

  /** Without quotes around it, `s` is one word. */
  predicate OneWord(s: string) {
    RunsOnFrom(s, false)
  }

  // ---- runs of backslashes ----

  /** The number of backslashes directly in front of position `k`. */
  function RunBefore(s: string, k: nat): nat
    requires k <= |s|
  {
    if k == 0 || s[k - 1] != '\\' then 0 else 1 + RunBefore(s, k - 1)
  }

  predicate Odd(n: nat) {
    n % 2 == 1
  }

  predicate QuotesOddFrom(s: string, k: nat)
    requires k <= |s|
  {
    && (forall j :: k <= j < |s| && s[j] == '"' ==> Odd(RunBefore(s, j)))
    && !Odd(RunBefore(s, |s|))
  }

  lemma {:induction false} ClosesFromIff(s: string, k: nat)
    requires k <= |s|
    ensures ClosesFrom(s[k..], Odd(RunBefore(s, k))) <==> QuotesOddFrom(s, k)
    decreases |s| - k
  {
    if k < |s| {
      assert s[k..][1..] == s[k + 1..];
      ClosesFromIff(s, k + 1);
    }
  }

  /** A text is one string exactly if odd runs of backslashes stand before its quotes, and an even one at its end. */
  lemma OneStringIff(s: string)
    ensures OneString(s) <==> QuotesOddFrom(s, 0)
  {
    ClosesFromIff(s, 0);
    assert s[0..] == s;
  }
}
