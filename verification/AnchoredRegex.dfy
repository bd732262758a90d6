/**
 The two kinds of anchored regular expression that the policy compiler writes itself:
 `^prefix` with escaped dots, and `^(one|of|these)$`. All other expressions come from users and
 keep whatever meaning `re` gives them.
 */
module AnchoredRegex {
  import opened GoStrings
  import opened Options

  /** Decides whether a value matches an expression written by a user. */
  type Regex = (string, string) -> bool

  datatype Shape = Prefix(text: string) | OneOf(options: seq<string>) | Other

  /** Characters that stand for themselves, in and out of parentheses. */
  predicate IsPlain(c: char) {
    'a' <= c <= 'z' || 'A' <= c <= 'Z' || '0' <= c <= '9' || c == '-'
  }

  predicate AllPlain(s: string) {
    forall k :: 0 <= k < |s| ==> IsPlain(s[k])
  }

  predicate AllPlainOrBar(s: string) {
    forall k :: 0 <= k < |s| ==> IsPlain(s[k]) || s[k] == '|'
  }

  /** Plain characters and escaped dots. */
  function ReadLiteral(s: string): Option<string> {
    if s == "" then Some("")
    else if |s| >= 2 && s[0] == '\\' && s[1] == '.' then AddChar('.', ReadLiteral(s[2..]))
    else if IsPlain(s[0]) then AddChar(s[0], ReadLiteral(s[1..]))
    else None
  }

  function AddChar(c: char, rest: Option<string>): Option<string> {
    if rest.Some? then Some([c] + rest.value) else None
  }

  function ReadShape(pattern: string): Shape {
    if |pattern| >= 4 && pattern[..2] == "^(" && pattern[|pattern| - 2..] == ")$"
       && AllPlainOrBar(pattern[2..|pattern| - 2])
    then OneOf(Split(pattern[2..|pattern| - 2], '|'))
    else if pattern != "" && pattern[0] == '^' && ReadLiteral(pattern[1..]).Some?
    then Prefix(ReadLiteral(pattern[1..]).value)
    else Other
  }

  /** The case-sensitive match operator. */
  predicate Matches(re: Regex, pattern: string, value: string) {
    match ReadShape(pattern)
    case Prefix(text) => HasPrefix(value, text)
    case OneOf(options) => value in options
    case Other => re(pattern, value)
  }

  lemma ReadPrefix(literal: string)
    requires literal != "" && literal[0] != '(' && ReadLiteral(literal).Some?
    ensures ReadShape("^" + literal) == Prefix(ReadLiteral(literal).value)
  {
    var p := "^" + literal;
    assert p[1..] == literal;
    if |p| >= 4 { assert p[..2][1] == literal[0]; }
  }

  lemma {:induction false} JoinPlain(options: seq<string>)
    requires forall o <- options :: AllPlain(o)
    ensures AllPlainOrBar(Join(options, "|"))
  {
    if |options| > 1 {
      JoinPlain(options[1..]);
      assert AllPlain(options[0]);
    } else if |options| == 1 {
      assert AllPlain(options[0]);
    }
  }

  /** `^(a|b|c)$` matches exactly a, b and c. */
  lemma MatchesOneOf(re: Regex, options: seq<string>, value: string)
    requires options != [] && forall o <- options :: AllPlain(o)
    ensures Matches(re, "^(" + Join(options, "|") + ")$", value) <==> value in options
  {
    var inner := Join(options, "|");
    var p := "^(" + inner + ")$";
    JoinPlain(options);
    assert p[..2] == "^(" && p[|p| - 2..] == ")$" && p[2..|p| - 2] == inner;
    forall o | o in options ensures '|' !in o { assert AllPlain(o); }
    SplitJoin(options, '|');
  }
}
