/**
 The parts of Go's `strings` package the configuration engine is written with: Split, Join,
 ReplaceAll, TrimSpace, ToLower and HasPrefix, and the laws that make them invertible.
 A string is read as its sequence of characters; white space is the six ASCII space characters.
 */
module GoStrings {

  const VT := '\U{000B}'
  const FF := '\U{000C}'

  predicate IsSpace(c: char) {
    c == ' ' || c == '\t' || c == '\n' || c == VT || c == FF || c == '\r'
  }

  predicate HasPrefix(s: string, p: string) {
    |p| <= |s| && s[..|p|] == p
  }

  predicate Contains(s: string, sub: string) {
    exists i :: 0 <= i <= |s| && HasPrefix(s[i..], sub)
  }

  /** strings.Split with a one-character separator: always at least one piece. */
  function Split(s: string, sep: char): (parts: seq<string>)
    ensures |parts| >= 1
  {
    if s == "" then [""]
    else
      var rest := Split(s[1..], sep);
      if s[0] == sep then [""] + rest
      else [[s[0]] + rest[0]] + rest[1..]
  }

  function Join(parts: seq<string>, sep: string): string {
    if parts == [] then ""
    else if |parts| == 1 then parts[0]
    else parts[0] + sep + Join(parts[1..], sep)
  }

  function TrimLeft(s: string): string {
    if s != "" && IsSpace(s[0]) then TrimLeft(s[1..]) else s
  }

  function TrimRight(s: string): string {
    if s != "" && IsSpace(s[|s| - 1]) then TrimRight(s[..|s| - 1]) else s
  }

  function TrimSpace(s: string): string {
    TrimRight(TrimLeft(s))
  }

  function LowerChar(c: char): char {
    if 'A' <= c <= 'Z' then (c as int + 32) as char else c
  }

  /** strings.ToLower on ASCII text. */
  function ToLower(s: string): (t: string)
    ensures |t| == |s|
    ensures forall k :: 0 <= k < |s| ==> t[k] == LowerChar(s[k])
  {
    seq(|s|, k requires 0 <= k < |s| => LowerChar(s[k]))
  }

  /** strings.ReplaceAll for a non-empty `pat`: leftmost occurrences, never overlapping. */
  function ReplaceAll(s: string, pat: string, to: string): string
    requires pat != ""
  {
    if |s| < |pat| then s
    else if s[..|pat|] == pat then to + ReplaceAll(s[|pat|..], pat, to)
    else [s[0]] + ReplaceAll(s[1..], pat, to)
  }

  /** Splitting and joining again gives the text back. */
  lemma {:induction false} JoinSplit(s: string, sep: char)
    ensures Join(Split(s, sep), [sep]) == s
  {
    if s != "" {
      JoinSplit(s[1..], sep);
      var rest := Split(s[1..], sep);
      if s[0] == sep {
        assert ([""] + rest)[1..] == rest;
      } else {
        assert ([[s[0]] + rest[0]] + rest[1..])[1..] == rest[1..];
      }
    }
  }

  lemma {:induction false} SplitHasNoSeparator(s: string, sep: char)
    ensures forall p <- Split(s, sep) :: sep !in p
  {
    if s != "" {
      SplitHasNoSeparator(s[1..], sep);
    }
  }

  /** No white space at either end. */
  predicate IsTrimmed(s: string) {
    s == "" || (!IsSpace(s[0]) && !IsSpace(s[|s| - 1]))
  }

  lemma {:induction false} TrimLeftShape(s: string)
    ensures var t := TrimLeft(s); t == "" || !IsSpace(t[0])
    ensures var t := TrimLeft(s); |t| <= |s| && t == s[|s| - |t|..]
    ensures forall c <- s[..|s| - |TrimLeft(s)|] :: IsSpace(c)
  {
    if s != "" && IsSpace(s[0]) {
      TrimLeftShape(s[1..]);
      var n := |s| - |TrimLeft(s)|;
      assert s[..n] == [s[0]] + s[1..][..n - 1];
    }
  }

  lemma {:induction false} TrimRightShape(s: string)
    ensures var t := TrimRight(s); t == "" || !IsSpace(t[|t| - 1])
    ensures var t := TrimRight(s); |t| <= |s| && t == s[..|t|]
    ensures forall c <- s[|TrimRight(s)|..] :: IsSpace(c)
  {
    if s != "" && IsSpace(s[|s| - 1]) {
      var init, n := s[..|s| - 1], |TrimRight(s)|;
      TrimRightShape(init);
      assert s[n..] == init[n..] + [s[|s| - 1]];
    }
  }

  lemma Front(s: string, n: nat)
    requires n <= |s|
    ensures s == s[..n] + s[n..]
  {
  }

  lemma TrimmedEnds(l: string, t: string)
    requires t == TrimRight(l) && (l == "" || !IsSpace(l[0]))
    ensures IsTrimmed(t)
  {
    TrimRightShape(l);
    hide TrimRight, IsSpace;
    assert t != "" ==> t[0] == l[0];
  }

  /** TrimSpace cuts white space off both ends, and only that. */
  lemma TrimSpaceShape(s: string) returns (front: string, back: string)
    ensures s == front + TrimSpace(s) + back
    ensures forall c <- front :: IsSpace(c)
    ensures forall c <- back :: IsSpace(c)
    ensures IsTrimmed(TrimSpace(s))
  {
    hide TrimLeft, TrimRight, IsSpace, IsTrimmed;
    var l := TrimLeft(s);
    TrimLeftShape(s);
    TrimRightShape(l);
    TrimmedEnds(l, TrimSpace(s));
    front, back := s[..|s| - |l|], l[|TrimSpace(s)|..];
    Front(s, |s| - |l|);
    Front(l, |TrimSpace(s)|);
    assert front + TrimSpace(s) + back == front + (TrimSpace(s) + back);
  }

  lemma TrimSpaceFixed(s: string)
    requires IsTrimmed(s)
    ensures TrimSpace(s) == s
  {}

  lemma TrimSpaceIdempotent(s: string)
    ensures TrimSpace(TrimSpace(s)) == TrimSpace(s)
  {
    var _, _ := TrimSpaceShape(s);
    TrimSpaceFixed(TrimSpace(s));
  }

  /** Trimming only drops characters. */
  lemma TrimSpaceSubset(s: string)
    ensures forall c <- TrimSpace(s) :: c in s
  {
    var _, _ := TrimSpaceShape(s);
  }

  /** A text without the separator is a single piece. */
  lemma {:induction false} SplitWithout(s: string, sep: char)
    requires sep !in s
    ensures Split(s, sep) == [s]
  {
    if s != "" {
      SplitWithout(s[1..], sep);
      assert [s[0]] + s[1..] == s;
    }
  }

  lemma {:induction false} SplitAtSeparator(p: string, s: string, sep: char)
    requires sep !in p
    ensures Split(p + [sep] + s, sep) == [p] + Split(s, sep)
  {
    if p == "" {
      assert (p + [sep] + s)[1..] == s;
    } else {
      assert (p + [sep] + s)[1..] == p[1..] + [sep] + s;
      SplitAtSeparator(p[1..], s, sep);
      assert ([p[1..]] + Split(s, sep))[1..] == Split(s, sep);
      assert [p[0]] + p[1..] == p;
    }
  }

  /** Joining separator-free pieces and splitting again gives the pieces back. */
  lemma {:induction false} SplitJoin(parts: seq<string>, sep: char)
    requires parts != []
    requires forall p <- parts :: sep !in p
    ensures Split(Join(parts, [sep]), sep) == parts
  {
    hide Split;
    if |parts| == 1 {
      SplitWithout(parts[0], sep);
      assert parts == [parts[0]];
    } else {
      SplitJoin(parts[1..], sep);
      assert Join(parts, [sep]) == parts[0] + [sep] + Join(parts[1..], [sep]);
      assert sep !in parts[0];
      SplitAtSeparator(parts[0], Join(parts[1..], [sep]), sep);
      assert parts == [parts[0]] + parts[1..];
    }
  }
}
