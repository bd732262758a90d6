/**
 Who is blocked, said on the settings themselves: which rules, exceptions, addresses and lists have to meet
 which parts of the request for some stage to block it.
 */
module PolicyMeaning {
  import opened AnchoredRegex
  import opened Cidr
  import opened Exceptions
  import opened GeoMeaning
  import opened LineLists
  import opened NginxText
  import opened Policy
  import opened PolicyDecision
  import opened Rewrite

  // ---- exploit rules ----

  /** An expression, as nginx reads it, matches regardless of case. */
  predicate Finds(s: Situation, pattern: string, v: RequestVar) {
    s.engine.noCase(NginxValue(pattern), s.req(v))
  }

  /** Some exception of either list matches the path. */
  predicate Excepted(s: Situation) {
    || (exists x <- EntriesOf(s.cfg.globalExceptions) :: Finds(s, x, RequestUri))
    || (exists x <- EntriesOf(s.cfg.hostExceptions) :: Finds(s, x, RequestUri))
  }

  lemma ExceptedIff(s: Situation)
    ensures UriExcepted(s) <==> Excepted(s)
  {
    hide EntriesOf, NginxValue;
    var (g, h) := (s.cfg.globalExceptions, s.cfg.hostExceptions);
    forall x ensures x in MergedEntries(g, h) <==> x in EntriesOf(g) || x in EntriesOf(h) {
      SplitOfMerge(g, h);
      MergedIsUnion(g, h, x);
    }
    if x :| x in EntriesOf(g) && Finds(s, x, RequestUri) {
      assert x in MergedEntries(g, h) && MatchesNoCase(s.engine, x, s.req(RequestUri));
    }
    if x :| x in EntriesOf(h) && Finds(s, x, RequestUri) {
      assert x in MergedEntries(g, h) && MatchesNoCase(s.engine, x, s.req(RequestUri));
    }
    if x :| x in MergedEntries(g, h) && MatchesNoCase(s.engine, x, s.req(RequestUri)) {
      assert Finds(s, x, RequestUri);
    }
  }

  /** What a rule of the database looks at, and whether exceptions hold it back. */
  predicate RuleHits(s: Situation, r: Rule) {
    || (r.patternType == "query_string" && Finds(s, r.pattern, QueryString) && !Excepted(s))
    || (r.patternType == "request_uri" && Finds(s, r.pattern, RequestUri) && !Excepted(s))
    || (r.patternType == "user_agent" && Finds(s, r.pattern, UserAgent))
    || (r.patternType == "request_method" && Finds(s, r.pattern, RequestMethod))
  }

  lemma {:induction false} FirstMatchIff(s: Situation, v: RequestVar, rules: seq<Rule>)
    ensures FirstMatch(s, v, rules).Some? <==> exists r <- rules :: Finds(s, r.pattern, v)
    ensures FirstMatch(s, v, rules).Some? ==> FirstMatch(s, v, rules).value in rules
  {
    hide NginxValue;
    if rules != [] {
      FirstMatchIff(s, v, rules[1..]);
      assert rules == [rules[0]] + rules[1..];
      assert RuleMatches(s, v, rules[0]) <==> Finds(s, rules[0].pattern, v);
    }
  }

  lemma {:induction false} LastMatchIff(s: Situation, v: RequestVar, rules: seq<Rule>)
    ensures LastMatch(s, v, rules).Some? <==> exists r <- rules :: Finds(s, r.pattern, v)
  {
    hide NginxValue;
    if rules != [] {
      var (init, last) := (rules[..|rules| - 1], rules[|rules| - 1]);
      LastMatchIff(s, v, init);
      assert rules == init + [last];
      assert RuleMatches(s, v, last) <==> Finds(s, last.pattern, v);
    }
  }

  lemma SomeMatchIff(s: Situation, v: RequestVar, rules: seq<Rule>)
    ensures SomeRuleMatches(s, v, rules) <==> exists r <- rules :: Finds(s, r.pattern, v)
  {
    hide NginxValue;
    if r :| r in rules && Finds(s, r.pattern, v) {
      assert RuleMatches(s, v, r);
    }
    if r :| r in rules && RuleMatches(s, v, r) {
      assert Finds(s, r.pattern, v);
    }
  }

  /** Some rule of the type finds something. */
  predicate TypeFinds(s: Situation, patternType: string, v: RequestVar) {
    exists r <- s.cfg.exploitRules :: r.patternType == patternType && Finds(s, r.pattern, v)
  }

  lemma TypeFindsIff(s: Situation, patternType: string, v: RequestVar)
    ensures TypeFinds(s, patternType, v) <==>
            exists r <- RulesOfType(s.cfg.exploitRules, patternType) :: Finds(s, r.pattern, v)
  {
    hide Finds, RulesOfType;
    forall r ensures r in RulesOfType(s.cfg.exploitRules, patternType) <==>
                     r in s.cfg.exploitRules && r.patternType == patternType
    {
      RulesOfTypeMember(s.cfg.exploitRules, patternType, r);
    }
  }

  /** Each of the four stages blocks exactly if a rule of its type in the database finds something. */
  lemma StagesIff(s: Situation)
    ensures QueryVerdict(s).Block? <==> TypeFinds(s, "query_string", QueryString) && !Excepted(s)
    ensures UriVerdict(s).Block? <==> TypeFinds(s, "request_uri", RequestUri) && !Excepted(s)
    ensures AgentVerdict(s).Block? <==> TypeFinds(s, "user_agent", UserAgent)
    ensures MethodVerdict(s).Block? <==> TypeFinds(s, "request_method", RequestMethod)
  {
    hide Finds, RulesOfType, UriExcepted, Excepted, TypeFinds, FirstMatch, LastMatch, SomeRuleMatches;
    var rules := s.cfg.exploitRules;
    ExceptedIff(s);
    TypeFindsIff(s, "query_string", QueryString);
    TypeFindsIff(s, "request_uri", RequestUri);
    TypeFindsIff(s, "user_agent", UserAgent);
    TypeFindsIff(s, "request_method", RequestMethod);
    LastMatchIff(s, QueryString, RulesOfType(rules, "query_string"));
    SomeMatchIff(s, RequestUri, RulesOfType(rules, "request_uri"));
    FirstMatchIff(s, UserAgent, RulesOfType(rules, "user_agent"));
    FirstMatchIff(s, RequestMethod, RulesOfType(rules, "request_method"));
  }

  /** An exception of either list that matches the path lets the query and path stages pass. */
  lemma ExceptionPasses(s: Situation, x: string)
    requires x in EntriesOf(s.cfg.globalExceptions) || x in EntriesOf(s.cfg.hostExceptions)
    requires s.engine.noCase(NginxValue(x), s.req(RequestUri))
    ensures QueryVerdict(s) == Pass && UriVerdict(s) == Pass
  {
    hide NginxValue, EntriesOf;
    assert Finds(s, x, RequestUri);
    StagesIff(s);
  }

  predicate ExploitHits(s: Situation) {
    s.cfg.blockExploits && if s.cfg.exploitRules != [] then exists r <- s.cfg.exploitRules :: RuleHits(s, r)
                           else FallbackHits(s)
  }

  /** The six built-in rules. */
  predicate FallbackHits(s: Situation) {
    || Finds(s, "union.*select", QueryString)
    || Finds(s, "(;|<|>|'|\\\"|\\)|%0A|%0D|%22|%27|%3C|%3E|%00)", QueryString)
    || (Finds(s, "[a-zA-Z0-9_]=https?://", QueryString) && !Excepted(s))
    || Finds(s, "\\.\\./", QueryString)
    || Finds(s, "(nikto|sqlmap|dirbuster|nmap|nessus|openvas|w3af|acunetix|havij|appscan|webscarab|webinspect)",
             UserAgent)
    || s.req(RequestMethod) !in ["GET", "HEAD", "POST", "PUT", "PATCH", "DELETE", "OPTIONS"]
  }

  lemma FallbackIff(s: Situation)
    ensures First(FallbackVerdicts(s)).Block? <==> FallbackHits(s)
  {
    hide NginxValue, UriExcepted, Excepted, First, SCANNERS;
    ExceptedIff(s);
    FirstOfSix(FallbackVerdicts(s));
    SamePatterns(s);
  }

  lemma SamePatterns(s: Situation)
    ensures MatchesNoCase(s.engine, SQL_SELECT, s.req(QueryString)) <==> Finds(s, "union.*select", QueryString)
    ensures MatchesNoCase(s.engine, SQL_CHARS, s.req(QueryString)) <==>
            Finds(s, "(;|<|>|'|\\\"|\\)|%0A|%0D|%22|%27|%3C|%3E|%00)", QueryString)
    ensures MatchesNoCase(s.engine, REMOTE_INCLUDE, s.req(QueryString)) <==>
            Finds(s, "[a-zA-Z0-9_]=https?://", QueryString)
    ensures MatchesNoCase(s.engine, PATH_TRAVERSAL, s.req(QueryString)) <==> Finds(s, "\\.\\./", QueryString)
    ensures MatchesNoCase(s.engine, SCANNERS, s.req(UserAgent)) <==>
            Finds(s, "(nikto|sqlmap|dirbuster|nmap|nessus|openvas|w3af|acunetix|havij|appscan|webscarab|webinspect)",
                  UserAgent)
  {
    hide NginxValue;
  }

  lemma FirstOfSix(vs: seq<Verdict>)
    requires |vs| == 6
    ensures First(vs).Block? <==>
            vs[0].Block? || vs[1].Block? || vs[2].Block? || vs[3].Block? || vs[4].Block? || vs[5].Block?
  {
    assert vs[1..][1..] == vs[2..] && vs[2..][1..] == vs[3..] && vs[3..][1..] == vs[4..] && vs[4..][1..] == vs[5..];
    assert First(vs[5..]) == if vs[5].Block? then vs[5] else Pass;
    assert First(vs[4..]) == if vs[4].Block? then vs[4] else First(vs[5..]);
    assert First(vs[3..]) == if vs[3].Block? then vs[3] else First(vs[4..]);
    assert First(vs[2..]) == if vs[2].Block? then vs[2] else First(vs[3..]);
    assert First(vs[1..]) == if vs[1].Block? then vs[1] else First(vs[2..]);
  }

  /** With rules in the database, each counts by its type; without, the built-in ones do. */
  lemma ExploitIff(s: Situation)
    ensures ExploitVerdict(s).Block? <==> ExploitHits(s)
  {
    hide QueryVerdict, UriVerdict, AgentVerdict, MethodVerdict, FallbackVerdicts, FallbackHits, First, Finds, Excepted;
    StagesIff(s);
    FallbackIff(s);
    FirstOfFour(QueryVerdict(s), UriVerdict(s), AgentVerdict(s), MethodVerdict(s));
    RulesByType(s);
  }

  lemma RulesByType(s: Situation)
    ensures (exists r <- s.cfg.exploitRules :: RuleHits(s, r)) <==>
            || (TypeFinds(s, "query_string", QueryString) && !Excepted(s))
            || (TypeFinds(s, "request_uri", RequestUri) && !Excepted(s))
            || TypeFinds(s, "user_agent", UserAgent)
            || TypeFinds(s, "request_method", RequestMethod)
  {
    hide Finds, Excepted;
    if r :| r in s.cfg.exploitRules && r.patternType == "query_string" && Finds(s, r.pattern, QueryString) {
      assert !Excepted(s) ==> RuleHits(s, r);
    }
    if r :| r in s.cfg.exploitRules && r.patternType == "request_uri" && Finds(s, r.pattern, RequestUri) {
      assert !Excepted(s) ==> RuleHits(s, r);
    }
    if r :| r in s.cfg.exploitRules && r.patternType == "user_agent" && Finds(s, r.pattern, UserAgent) {
      assert RuleHits(s, r);
    }
    if r :| r in s.cfg.exploitRules && r.patternType == "request_method" && Finds(s, r.pattern, RequestMethod) {
      assert RuleHits(s, r);
    }
  }

  lemma FirstOfFour(a: Verdict, b: Verdict, c: Verdict, d: Verdict)
    ensures First([a, b, c, d]).Block? <==> a.Block? || b.Block? || c.Block? || d.Block?
  {
    assert [a, b, c, d][1..] == [b, c, d] && [b, c, d][1..] == [c, d] && [c, d][1..] == [d] && [d][1..] == [];
    assert First([d]) == if d.Block? then d else Pass;
    assert First([c, d]) == if c.Block? then c else First([d]);
    assert First([b, c, d]) == if b.Block? then b else First([c, d]);
  }

  // ---- addresses, countries, agents ----

  /** The client's address is one of the allowed ones, or its text matches the pattern of an allowed block. */
  predicate ClientAllowed(s: Situation) {
    && s.cfg.geo.Some?
    && exists ip <- s.cfg.geo.value.allowedIPs ::
         if '/' in ip then AddressIs(s, ip) else s.req(RemoteAddr) == ip
  }

  lemma ClientAllowedIff(s: Situation)
    ensures ClientAllowed(s) <==> AddressAllowed(s, AllowedIPsOf(s.cfg))
    ensures s.cfg.geo.Some? ==> (ClientAllowed(s) <==> AddressAllowed(s, s.cfg.geo.value.allowedIPs))
  {
    hide PatternOf;
    if ip :| ip in AllowedIPsOf(s.cfg) && AddressIs(s, ip) {
      assert if '/' in ip then AddressIs(s, ip) else s.req(RemoteAddr) == ip;
    }
  }

  /** The country is off the list (whitelist) or on it (otherwise), and no private network that is let off. */
  predicate CountryTargeted(s: Situation, geo: Geo) {
    && (s.req(CountryCode) in (if geo.countries == [] then [""] else geo.countries) <==> geo.mode != "whitelist")
    && !(geo.allowPrivateIPs && s.req(CountryCode) == "--")
  }

  predicate InList(s: Situation, list: string) {
    list != "" && AgentListed(s, list)
  }

  predicate GeoHits(s: Situation) {
    && s.cfg.geo.Some?
    && var geo := s.cfg.geo.value;
    && geo.enabled && !geo.challengeMode
    && CountryTargeted(s, geo)
    && !ClientAllowed(s)
    && !(geo.allowSearchBots && InList(s, s.cfg.searchEnginesList))
    && !Exempt(s)
  }

  /** In challenge mode the exempt paths do not count, but trusted addresses do. */
  predicate ChallengeHits(s: Situation) {
    && s.cfg.geo.Some?
    && var geo := s.cfg.geo.value;
    && geo.enabled && geo.challengeMode
    && CountryTargeted(s, geo)
    && !ClientAllowed(s)
    && !(geo.allowSearchBots && InList(s, s.cfg.searchEnginesList))
    && !(s.cfg.globalTrustedIPs != [] && s.req(TrustedIp) == "1")
  }

  predicate BannedHits(s: Situation) {
    (s.cfg.bannedIPs != [] || s.cfg.useFilterSubscription) && s.req(BannedIp) in {"1", "2"}
  }

  predicate CloudHits(s: Situation) {
    && s.cfg.blockedCloudIPRanges != [] && s.req(BlockedCloud) == "1"
    && !Exempt(s) && !ClientAllowed(s)
    && !(s.cfg.cloudAllowSearchBots && InList(s, s.cfg.searchEnginesList))
  }

  /** Some list of unwanted agents that is in use has the client's agent on it. */
  predicate AgentTargeted(s: Situation, bot: BotFilter) {
    || (bot.blockBadBots && InList(s, s.cfg.badBotsList))
    || (bot.blockAIBots && InList(s, s.cfg.aiBotsList))
    || (bot.blockSuspiciousClients && InList(s, s.cfg.suspiciousClientsList))
    || InList(s, bot.customBlockedAgents)
  }

  predicate Prioritised(s: Situation, bot: BotFilter) {
    || Exempt(s)
    || ClientAllowed(s)
    || (bot.allowSearchEngines && InList(s, s.cfg.searchEnginesList))
    || (s.cfg.globalTrustedIPs != [] && s.req(TrustedIp) == "1")
    || InList(s, bot.customAllowedAgents)
  }

  predicate BotHits(s: Situation) {
    && s.cfg.botFilter.Some?
    && var bot := s.cfg.botFilter.value;
    bot.enabled && AgentTargeted(s, bot) && !Prioritised(s, bot)
  }

  predicate FilterHits(s: Situation) {
    && s.cfg.useFilterSubscription && s.req(FilterSubUaBlocked) == "1"
    && !if s.cfg.botFilter.Some? && s.cfg.botFilter.value.enabled
        then Prioritised(s, s.cfg.botFilter.value) else Exempt(s)
  }

  predicate PlainGeoCountries(s: Situation) {
    s.cfg.geo.Some? ==> PlainCountries(s.cfg.geo.value)
  }

  lemma GeoIff(s: Situation)
    requires PlainGeoCountries(s)
    ensures GeoVerdict(s).Block? <==> GeoHits(s)
    ensures Challenged(s) <==> ChallengeHits(s)
  {
    hide CountryBlocked, ClientAllowed, AddressAllowed, AgentListed, Exempt, PlainCountries;
    ClientAllowedIff(s);
    if s.cfg.geo.Some? {
      CountryBlockedMeaning(s, s.cfg.geo.value);
    }
  }

  /** The paths of certificate validation and of the challenge pages, as the regex engine matches them. */
  lemma ExemptIff(s: Situation)
    ensures Exempt(s) <==>
            || s.engine.exact("^/.well-known/acme-challenge/", s.req(RequestUri))
            || s.engine.exact("^/api/v1/challenge/", s.req(RequestUri))
  {
    OtherShape(ACME_PATH);
    OtherShape(CHALLENGE_PATH);
  }

  lemma OtherShape(pattern: string)
    requires |pattern| >= 4 && pattern[0] == '^' && pattern[1] == '/'
    ensures ReadShape(pattern) == Other
  {
    assert pattern[..2][1] == '/' && pattern[1..][0] == '/';
  }

  lemma {:induction false} FirstKindIff(s: Situation, kinds: seq<AgentKind>)
    ensures FirstKind(s, kinds).Some? <==> exists k <- kinds :: OfKind(s, k)
  {
    hide OfKind;
    if kinds != [] {
      FirstKindIff(s, kinds[1..]);
      assert kinds == [kinds[0]] + kinds[1..];
    }
  }

  lemma KindsIff(s: Situation, bot: BotFilter)
    ensures FirstKind(s, AgentKinds(s.cfg, bot)).Some? <==> AgentTargeted(s, bot)
  {
    hide AgentListed;
    var kinds := AgentKinds(s.cfg, bot);
    FirstKindIff(s, kinds);
    assert kinds[0] in kinds && kinds[1] in kinds && kinds[2] in kinds && kinds[3] in kinds;
    assert forall k <- kinds :: k == kinds[0] || k == kinds[1] || k == kinds[2] || k == kinds[3];
  }

  lemma BotIff(s: Situation)
    ensures BotVerdict(s).Block? <==> BotHits(s)
    ensures BotFilterOn(s) ==> (BotPriority(s, s.cfg.botFilter.value) <==> Prioritised(s, s.cfg.botFilter.value))
  {
    hide AgentListed, Exempt, ClientAllowed, AddressAllowed, AgentTargeted, AgentKinds, FirstKind;
    ClientAllowedIff(s);
    if BotFilterOn(s) {
      KindsIff(s, s.cfg.botFilter.value);
    }
  }

  lemma RestIff(s: Situation)
    ensures BannedVerdict(s).Block? <==> BannedHits(s)
    ensures CloudVerdict(s).Block? <==> CloudHits(s)
    ensures FilterAgentVerdict(s).Block? <==> FilterHits(s)
  {
    hide AgentListed, Exempt, ClientAllowed, AddressAllowed, Prioritised, BotPriority;
    ClientAllowedIff(s);
    BotIff(s);
  }

  /**
   A request is blocked exactly if one of the stages has a reason to, in terms of the settings and the
   request alone; with country codes free of regex characters.
   */
  lemma BlockedIff(s: Situation)
    requires PlainGeoCountries(s)
    ensures Decide(s).Block? <==>
            GeoHits(s) || ExploitHits(s) || BannedHits(s) || CloudHits(s) || BotHits(s) || FilterHits(s)
  {
    hide GeoVerdict, ExploitVerdict, BannedVerdict, CloudVerdict, BotVerdict, FilterAgentVerdict, First;
    hide GeoHits, ExploitHits, BannedHits, CloudHits, BotHits, FilterHits;
    GeoIff(s);
    ExploitIff(s);
    BotIff(s);
    RestIff(s);
    FirstOfSix(
      [GeoVerdict(s), ExploitVerdict(s), BannedVerdict(s), CloudVerdict(s), BotVerdict(s), FilterAgentVerdict(s)]);
  }

  /** The reason that is logged for a blocked request: that of the first stage with one. */
  function Reason(s: Situation): string {
    if GeoHits(s) then "geo_block"
    else if ExploitHits(s) then "exploit_block"
    else if BannedHits(s) then if s.req(BannedIp) == "1" then "banned_ip" else "filter_subscription"
    else if CloudHits(s) then if s.cfg.cloudChallengeMode then "cloud_provider_challenge" else "cloud_provider_block"
    else if BotHits(s) then "bot_filter"
    else "filter_subscription"
  }

  lemma FirstReason(vs: seq<Verdict>, k: nat)
    requires k < |vs| && vs[k].Block? && forall j :: 0 <= j < k ==> vs[j].Pass?
    ensures First(vs) == vs[k]
  {
    if k > 0 {
      FirstReason(vs[1..], k - 1);
    }
  }

  lemma ExploitAnswers(s: Situation)
    ensures ExploitVerdict(s).Block? ==>
              ExploitVerdict(s).log.reason == "exploit_block" && ExploitVerdict(s).code in {403, 405}
  {
    hide UriExcepted, NginxValue, RulesOfType, FirstMatch, LastMatch, SomeRuleMatches;
    if s.cfg.blockExploits && s.cfg.exploitRules != [] {
      FirstIsOneOf([QueryVerdict(s), UriVerdict(s), AgentVerdict(s), MethodVerdict(s)]);
    } else if s.cfg.blockExploits {
      FirstIsOneOf(FallbackVerdicts(s));
    }
  }

  lemma FirstIsOneOf(vs: seq<Verdict>)
    requires forall v <- vs :: v.Block? ==> v.log.reason == "exploit_block" && v.code in {403, 405}
    ensures First(vs).Block? ==> First(vs).log.reason == "exploit_block" && First(vs).code in {403, 405}
  {
    if vs != [] {
      assert vs[0] in vs;
      FirstIsOneOf(vs[1..]);
    }
  }

  /** A blocked request is logged with the reason of the first stage that has one; 418 is the cloud challenge. */
  lemma ReasonIs(s: Situation)
    requires PlainGeoCountries(s) && Decide(s).Block?
    ensures Decide(s).log.reason == Reason(s)
    ensures Decide(s).code in {403, 405, 418}
    ensures Decide(s).code == 418 <==> Reason(s) == "cloud_provider_challenge"
    ensures Decide(s).code == 405 ==> Reason(s) == "exploit_block"
  {
    hide First, GeoBlocks, ExploitVerdict, GeoHits, ExploitHits, BannedHits, CloudHits, BotHits, FilterHits;
    hide CloudPriority, BotPriority, AgentKinds, FirstKind, Exempt;
    GeoIff(s);
    ExploitIff(s);
    ExploitAnswers(s);
    BotIff(s);
    RestIff(s);
    BlockedIff(s);
    var vs :=
      [GeoVerdict(s), ExploitVerdict(s), BannedVerdict(s), CloudVerdict(s), BotVerdict(s), FilterAgentVerdict(s)];
    var k := if GeoHits(s) then 0 else if ExploitHits(s) then 1 else if BannedHits(s) then 2
             else if CloudHits(s) then 3 else if BotHits(s) then 4 else 5;
    FirstReason(vs, k);
  }

  /** A client in an allowed block of eight bits or more is held up by neither the cloud stage nor the bot filter. */
  lemma AllowedBlockPasses(s: Situation, cidr: string, base: Address, ones: nat, x: Address)
    requires s.cfg.geo.Some? && cidr in s.cfg.geo.value.allowedIPs && '/' in cidr
    requires 8 <= ones <= 32 && s.parse(cidr) == NetworkOf(base, ones)
    requires InBlock(x, base, ones) && s.req(RemoteAddr) == Dotted(x)
    ensures CloudVerdict(s) == Pass && BotVerdict(s) == Pass && !GeoBlocks(s) && !Challenged(s)
  {
    hide Matches, PatternOf, InBlock, Dotted, NetworkOf, SearchBot, Exempt, AgentListed, Exempt, CountryBlocked;
    PatternCoversBlock(s.engine.exact, cidr, base, ones, x);
    assert AddressIs(s, cidr);
    AllowedPasses(s, cidr);
  }

  lemma AllowedPasses(s: Situation, ip: string)
    requires s.cfg.geo.Some? && ip in s.cfg.geo.value.allowedIPs && AddressIs(s, ip)
    ensures CloudVerdict(s) == Pass && BotVerdict(s) == Pass && !GeoBlocks(s) && !Challenged(s)
  {
    hide AddressIs, SearchBot, Exempt, AgentListed, CountryBlocked;
  }

  /** Nor is one with an allowed address. */
  lemma AllowedAddressPasses(s: Situation)
    requires s.cfg.geo.Some? && s.req(RemoteAddr) in s.cfg.geo.value.allowedIPs && '/' !in s.req(RemoteAddr)
    ensures CloudVerdict(s) == Pass && BotVerdict(s) == Pass && !GeoBlocks(s) && !Challenged(s)
  {
    hide PatternOf, SearchBot, Exempt, AgentListed, CountryBlocked;
    assert AddressIs(s, s.req(RemoteAddr));
    AllowedPasses(s, s.req(RemoteAddr));
  }
}
