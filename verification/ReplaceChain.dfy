/**
 Escaping by a chain of `ReplaceAll` calls. Each call rewrites the output of the calls before it,
 so the order of the chain matters; `SequentialIsSimultaneous` says when it does not.
 */
module ReplaceChain {
  import opened GoStrings

  datatype Rule = Rule(key: char, value: string)

  /** The chain: one ReplaceAll after another, first rule first. */
  function Chain(rules: seq<Rule>, s: string): string {
    if rules == [] then s
    else Chain(rules[1..], ReplaceAll(s, [rules[0].key], rules[0].value))
  }

  /** What the first rule for `c` makes of it; a character without a rule stays. */
  function Image(rules: seq<Rule>, c: char): string {
    if rules == [] then [c]
    else if rules[0].key == c then rules[0].value
    else Image(rules[1..], c)
  }

  /** The simultaneous form: every character of the input is rewritten exactly once. */
  function AtOnce(rules: seq<Rule>, s: string): string {
    if s == "" then "" else Image(rules, s[0]) + AtOnce(rules, s[1..])
  }

  /** No rule looks for a character that an earlier rule has written. */
  predicate Independent(rules: seq<Rule>) {
    forall i, j :: 0 <= i < j < |rules| ==> rules[j].key !in rules[i].value
  }

  lemma {:induction false} AtOnceConcat(rules: seq<Rule>, s: string, t: string)
    ensures AtOnce(rules, s + t) == AtOnce(rules, s) + AtOnce(rules, t)
  {
    if s == "" {
      assert s + t == t;
    } else {
      assert (s + t)[1..] == s[1..] + t;
      AtOnceConcat(rules, s[1..], t);
    }
  }

  lemma {:induction false} ImageOfOther(rules: seq<Rule>, c: char)
    requires forall r <- rules :: r.key != c
    ensures Image(rules, c) == [c]
  {
    if rules != [] {
      ImageOfOther(rules[1..], c);
    }
  }

  lemma {:induction false} AtOnceUnchanged(rules: seq<Rule>, s: string)
    requires forall r <- rules :: r.key !in s
    ensures AtOnce(rules, s) == s
  {
    if s != "" {
      ImageOfOther(rules, s[0]);
      AtOnceUnchanged(rules, s[1..]);
    }
  }

  /** Pushing the rest of the rules through the output of one ReplaceAll. */
  lemma {:induction false} OneReplacement(rules: seq<Rule>, s: string)
    requires rules != [] && forall r <- rules[1..] :: r.key !in rules[0].value
    ensures AtOnce(rules[1..], ReplaceAll(s, [rules[0].key], rules[0].value)) == AtOnce(rules, s)
  {
    var key, value, rest := rules[0].key, rules[0].value, rules[1..];
    if s != "" {
      var tail := ReplaceAll(s[1..], [key], value);
      OneReplacement(rules, s[1..]);
      if s[0] == key {
        assert s[..1] == [key];
        AtOnceConcat(rest, value, tail);
        AtOnceUnchanged(rest, value);
      } else {
        assert s[..1] != [key];
        assert ([s[0]] + tail)[1..] == tail;
      }
    }
  }

  /** An independent chain of ReplaceAll calls is one simultaneous per-character map. */
  lemma {:induction false} SequentialIsSimultaneous(rules: seq<Rule>, s: string)
    requires Independent(rules)
    ensures Chain(rules, s) == AtOnce(rules, s)
  {
    if rules == [] {
      AtOnceUnchanged(rules, s);
    } else {
      var once := ReplaceAll(s, [rules[0].key], rules[0].value);
      SequentialIsSimultaneous(rules[1..], once);
      forall r | r in rules[1..] ensures r.key !in rules[0].value {
        var j :| 1 <= j < |rules| && rules[j] == r;
      }
      OneReplacement(rules, s);
    }
  }

  /** Runs one rule of the chain. */
  lemma ChainStep(rules: seq<Rule>, k: nat, s: string) returns (next: string)
    requires k < |rules|
    ensures next == ReplaceAll(s, [rules[k].key], rules[k].value)
    ensures Chain(rules[k..], s) == Chain(rules[k + 1..], next)
    ensures k + 1 == |rules| ==> Chain(rules[k..], s) == next
  {
    next := ReplaceAll(s, [rules[k].key], rules[k].value);
    assert rules[k..][1..] == rules[k + 1..];
  }

  /** The first rule for `c` decides its image. */
  lemma {:induction false} ImageOfRule(rules: seq<Rule>, k: nat)
    requires k < |rules|
    requires forall i :: 0 <= i < k ==> rules[i].key != rules[k].key
    ensures Image(rules, rules[k].key) == rules[k].value
  {
    if k > 0 {
      assert rules[0].key != rules[k].key;
      ImageOfRule(rules[1..], k - 1);
    }
  }
}
