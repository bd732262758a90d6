/**
 Which user agents a list of globs catches, once a regex engine that honours the emitted syntax has read the
 expression: those in which a listed glob occurs, and every agent if no glob is left.
 */
module AgentMeaning {
  import opened AnchoredRegex
  import opened GlobPattern
  import opened GlobWords
  import opened GoStrings
  import opened LineLists
  import opened NginxText
  import opened Options
  import opened Policy
  import opened PolicyDecision
  import opened ReplaceChain
  import opened Rewrite

  // ---- what a glob means ----

  /** The value starts with what the tokens describe, in any letter case. A `*` does not run over a line break. */
  predicate StartsAs(tokens: seq<Token>, value: string) {
    if tokens == [] then true
    else
      match tokens[0]
      case Lit(c) => value != "" && LowerChar(value[0]) == LowerChar(c) && StartsAs(tokens[1..], value[1..])
      case WhiteSpace => value != "" && IsSpace(value[0]) && StartsAs(tokens[1..], value[1..])
      case AnySequence => exists k :: 0 <= k <= |value| && '\n' !in value[..k] && StartsAs(tokens[1..], value[k..])
  }

  predicate OccursIn(tokens: seq<Token>, value: string) {
    exists k :: 0 <= k <= |value| && StartsAs(tokens, value[k..])
  }

  predicate SomeOccurs(alternatives: seq<seq<Token>>, value: string) {
    exists tokens <- alternatives :: OccursIn(tokens, value)
  }

  /** The engine gives the emitted syntax its meaning: literals, escapes, `\s`, `.*` and `|` in one group. */
  ghost predicate Honours(engine: Regex) {
    forall regex: string, value: string ::
      ReadRegex(regex).Some? ==> (engine(Grouped(regex), value) <==> SomeOccurs(ReadRegex(regex).value, value))
  }

  predicate SomeGlobOccurs(globs: seq<string>, value: string) {
    exists g <- globs :: OccursIn(GlobTokens(g), value)
  }

  lemma MeaningsOccur(globs: seq<string>, value: string)
    ensures SomeOccurs(GlobMeanings(globs), value) <==> SomeGlobOccurs(globs, value)
  {
    hide OccursIn, GlobTokens;
    var meanings := GlobMeanings(globs);
    if k :| 0 <= k < |globs| && OccursIn(GlobTokens(globs[k]), value) {
      assert meanings[k] == GlobTokens(globs[k]);
    }
    if k :| 0 <= k < |meanings| && OccursIn(meanings[k], value) {
      assert meanings[k] == GlobTokens(globs[k]);
    }
  }

  lemma NothingOccursEverywhere(value: string)
    ensures SomeOccurs([[]], value)
  {
    assert StartsAs([], value[0..]);
    assert OccursIn([], value);
  }

  /** An agent is listed exactly if a listed glob occurs in it, and always if none is listed. */
  lemma AgentListedIff(s: Situation, list: string)
    requires Honours(s.engine.noCase) && AllKeepValue(Globs(list))
    ensures AgentListed(s, list) <==> Globs(list) == [] || SomeGlobOccurs(Globs(list), s.req(UserAgent))
  {
    hide RegexOf, Globs, ReadRegex, NginxValue, SomeOccurs, SomeGlobOccurs, GlobMeanings, KeepsValue, Honours;
    var value := s.req(UserAgent);
    GroupKeepsValue(list);
    RegexReadsBack(list);
    HonoursOne(s.engine.noCase, RegexOf(list), value);
    NothingOccursEverywhere(value);
    MeaningsOccur(Globs(list), value);
  }

  lemma HonoursOne(engine: Regex, regex: string, value: string)
    requires Honours(engine) && ReadRegex(regex).Some?
    ensures engine(Grouped(regex), value) <==> SomeOccurs(ReadRegex(regex).value, value)
  {
  }

  // ---- plain globs ----

  predicate PlainGlob(glob: string) {
    '*' !in glob && ' ' !in glob
  }

  lemma {:induction false} PlainStartsAs(glob: string, value: string)
    requires PlainGlob(glob)
    ensures StartsAs(GlobTokens(glob), value) <==> HasPrefix(ToLower(value), ToLower(glob))
  {
    if glob != "" {
      assert glob == [glob[0]] + glob[1..];
      assert GlobTokens(glob)[1..] == GlobTokens(glob[1..]);
      if value != "" {
        PlainStartsAs(glob[1..], value[1..]);
        PrefixCons(ToLower(value), ToLower(glob));
        assert ToLower(value)[1..] == ToLower(value[1..]);
        assert ToLower(glob)[1..] == ToLower(glob[1..]);
      }
    }
  }

  lemma PrefixCons(s: string, p: string)
    requires s != "" && p != ""
    ensures HasPrefix(s, p) <==> s[0] == p[0] && HasPrefix(s[1..], p[1..])
  {
    if |p| <= |s| {
      assert s[..|p|] == [s[0]] + s[1..][..|p| - 1];
      assert p == [p[0]] + p[1..];
    }
  }

  /** A glob without `*` and spaces occurs wherever it is part of the agent, in any letter case. */
  lemma PlainGlobOccurs(glob: string, value: string)
    requires PlainGlob(glob)
    ensures OccursIn(GlobTokens(glob), value) <==> Contains(ToLower(value), ToLower(glob))
  {
    hide GlobTokens, StartsAs, HasPrefix;
    forall k | 0 <= k <= |value|
      ensures StartsAs(GlobTokens(glob), value[k..]) <==> HasPrefix(ToLower(value)[k..], ToLower(glob))
    {
      PlainStartsAs(glob, value[k..]);
      assert ToLower(value)[k..] == ToLower(value[k..]);
    }
  }

  // ---- lists of comments ----

  predicate OnlyComments(list: string) {
    forall line <- Split(list, '\n') :: !IsEntry(TrimSpace(line))
  }

  lemma {:induction false} NoEntries(lines: seq<string>)
    requires forall line <- lines :: !IsEntry(TrimSpace(line))
    ensures Entries(lines) == []
  {
    if lines != [] {
      NoEntries(lines[1..]);
    }
  }

  lemma OnlyCommentsNoGlobs(list: string)
    requires OnlyComments(list)
    ensures Globs(list) == []
  {
    NoEntries(Split(list, '\n'));
    assert CutAll([]) == [];
  }

  /** A list that holds nothing but comments and blank lines catches every agent. */
  lemma OnlyCommentsCatchAll(s: Situation, list: string)
    requires Honours(s.engine.noCase) && OnlyComments(list)
    ensures AgentListed(s, list)
  {
    hide AgentListed, OnlyComments, Globs;
    OnlyCommentsNoGlobs(list);
    AgentListedIff(s, list);
  }

  /** Such a list of blocked agents turns away everyone without priority; one of allowed agents blocks no one. */
  lemma CommentsInBotFilter(s: Situation)
    requires Honours(s.engine.noCase) && s.cfg.botFilter.Some? && s.cfg.botFilter.value.enabled
    ensures var bot := s.cfg.botFilter.value;
            && (bot.customBlockedAgents != "" && OnlyComments(bot.customBlockedAgents) && !BotPriority(s, bot)
                ==> Decide(s).Block?)
            && (bot.customAllowedAgents != "" && OnlyComments(bot.customAllowedAgents)
                ==> BotVerdict(s) == Pass)
  {
    hide Honours, AgentListed, OnlyComments, GeoVerdict, ExploitVerdict, BannedVerdict, CloudVerdict;
    hide FilterAgentVerdict, SearchBot, Exempt, Trusted, AddressAllowed;
    var bot := s.cfg.botFilter.value;
    if bot.customBlockedAgents != "" && OnlyComments(bot.customBlockedAgents) && !BotPriority(s, bot) {
      OnlyCommentsCatchAll(s, bot.customBlockedAgents);
      CustomKind(s, bot);
      BlockedSomewhere(
        [GeoVerdict(s), ExploitVerdict(s), BannedVerdict(s), CloudVerdict(s), BotVerdict(s), FilterAgentVerdict(s)], 4);
    }
    if bot.customAllowedAgents != "" && OnlyComments(bot.customAllowedAgents) {
      OnlyCommentsCatchAll(s, bot.customAllowedAgents);
    }
  }

  lemma CustomKind(s: Situation, bot: BotFilter)
    requires bot.customBlockedAgents != "" && AgentListed(s, bot.customBlockedAgents)
    ensures FirstKind(s, AgentKinds(s.cfg, bot)).Some?
  {
    hide AgentListed, OfKind;
    KindFound(s, AgentKinds(s.cfg, bot), 3);
  }

  lemma {:induction false} KindFound(s: Situation, kinds: seq<AgentKind>, k: nat)
    requires k < |kinds| && kinds[k].used && kinds[k].list != "" && AgentListed(s, kinds[k].list)
    ensures FirstKind(s, kinds).Some?
  {
    hide AgentListed;
    if k > 0 {
      KindFound(s, kinds[1..], k - 1);
    }
  }

  lemma {:induction false} BlockedSomewhere(verdicts: seq<Verdict>, k: nat)
    requires k < |verdicts| && verdicts[k].Block?
    ensures First(verdicts).Block?
  {
    if k > 0 {
      BlockedSomewhere(verdicts[1..], k - 1);
    }
  }

  // ---- engines ----

  predicate ReadsGroup(pattern: string, value: string) {
    && 2 <= |pattern|
    && var regex := pattern[1..|pattern| - 1];
    && pattern == Grouped(regex)
    && ReadRegex(regex).Some?
    && SomeOccurs(ReadRegex(regex).value, value)
  }

  /** There is an engine that honours the syntax. */
  lemma EnginesExist() returns (engine: Regex)
    ensures Honours(engine)
  {
    engine := ReadsGroup;
    hide ReadRegex, SomeOccurs;
    forall regex: string, value: string | ReadRegex(regex).Some?
      ensures engine(Grouped(regex), value) <==> SomeOccurs(ReadRegex(regex).value, value)
    {
      assert Grouped(regex)[1..|Grouped(regex)| - 1] == regex;
    }
  }

  // ---- a glob with a backslash ----

  /** `\s` as a glob is a backslash and an s; written out and read by nginx it is white space. */
  lemma BackslashGlob()
    ensures Globs("\\s") == ["\\s"] && NginxValue(Grouped(RegexOf("\\s"))) == Grouped("\\s")
  {
    hide Image, GLOB_RULES, SPECIAL, RegexOf, Globs, NginxValue;
    var glob := "\\s";
    OneGlob(glob);
    RegexIsListRegex(glob);
    BackslashImage();
    LettersStay();
    assert glob[1..] == "s" && "s"[1..] == "";
    assert AtOnce(GLOB_RULES, "s") == "s";
    assert RegexOf(glob) == "\\\\s";
    assert Grouped("\\\\s") == "(" + ("\\\\" + ("s" + ")"));
    PlainValue('(', "\\\\" + ("s" + ")"));
    PairValue('\\', "s" + ")");
    PlainValue('s', ")");
    ClosingValue();
    assert "(" + ("\\" + ("s" + ")")) == Grouped("\\s");
  }

  lemma ReadWhiteSpace()
    ensures ReadRegex("\\s") == Some([[WhiteSpace]])
  {
    var regex := "\\s";
    assert regex[2..] == "";
    assert ReadRegex(regex[2..]) == Some([[]]);
    var nothing: Alternatives := [[]];
    assert [WhiteSpace] + nothing[0] == [WhiteSpace];
    assert [[WhiteSpace] + nothing[0]] + nothing[1..] == [[WhiteSpace]];
  }

  lemma SpaceOccurs(value: string, k: nat)
    requires k < |value| && value[k] == ' '
    ensures SomeOccurs([[WhiteSpace]], value)
  {
    assert [WhiteSpace][1..] == [];
    assert StartsAs([WhiteSpace], value[k..]);
    assert OccursIn([WhiteSpace], value);
  }

  lemma NoBackslashNoOccurrence(value: string)
    requires '\\' !in value
    ensures !OccursIn(GlobTokens("\\s"), value)
  {
    PlainGlobOccurs("\\s", value);
    var lower, part := ToLower(value), ToLower("\\s");
    assert part[0] == '\\';
    forall i | 0 <= i <= |lower| ensures !HasPrefix(lower[i..], part) {
      if |part| <= |lower[i..]| {
        assert lower[i..][..|part|][0] == lower[i] && value[i] in value;
      }
    }
  }

  /** So a list with that one glob catches every agent with a space, in which the glob does not occur. */
  lemma BackslashGlobExample(s: Situation, k: nat)
    requires Honours(s.engine.noCase)
    requires k < |s.req(UserAgent)| && s.req(UserAgent)[k] == ' ' && '\\' !in s.req(UserAgent)
    ensures AgentListed(s, "\\s")
    ensures Globs("\\s") != [] && !SomeGlobOccurs(Globs("\\s"), s.req(UserAgent))
  {
    hide RegexOf, NginxValue, ReadRegex, Globs, OccursIn, SomeOccurs, GlobTokens, Honours;
    var value := s.req(UserAgent);
    BackslashGlob();
    ReadWhiteSpace();
    HonoursOne(s.engine.noCase, "\\s", value);
    SpaceOccurs(value, k);
    NoBackslashNoOccurrence(value);
  }
}
