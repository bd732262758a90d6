/**
 The policy compiler: a host's security settings become a straight-line nginx program. The same
 program is emitted into the HTTP and the HTTPS server block.
 */
module Policy {
  import opened Cidr
  import opened Escapers
  import opened Exceptions
  import opened GlobPattern
  import opened GoStrings
  import opened LineLists
  import opened Options
  import opened Rewrite

  // ---- settings ----

  datatype Geo = Geo(
    enabled: bool, challengeMode: bool, mode: string, countries: seq<string>,
    allowedIPs: seq<string>, allowPrivateIPs: bool, allowSearchBots: bool)

  datatype BotFilter = BotFilter(
    enabled: bool, blockBadBots: bool, blockAIBots: bool, allowSearchEngines: bool,
    blockSuspiciousClients: bool, customBlockedAgents: string, customAllowedAgents: string)

  datatype Rule = Rule(id: string, pattern: string, patternType: string)

  datatype Config = Config(
    geo: Option<Geo>,
    accessListItems: seq<string>,
    blockExploits: bool,
    exploitRules: seq<Rule>,
    globalExceptions: string,
    hostExceptions: string,
    bannedIPs: seq<string>,
    useFilterSubscription: bool,
    blockedCloudIPRanges: seq<string>,
    cloudChallengeMode: bool,
    cloudAllowSearchBots: bool,
    botFilter: Option<BotFilter>,
    searchEnginesList: string,
    badBotsList: string,
    aiBotsList: string,
    suspiciousClientsList: string,
    globalTrustedIPs: seq<string>)

  /** Go's `net.ParseCIDR`. */
  type ParseCidr = string -> ParsedNet

  function RulesOfType(rules: seq<Rule>, patternType: string): seq<Rule> {
    if rules == [] then []
    else (if rules[0].patternType == patternType then [rules[0]] else []) + RulesOfType(rules[1..], patternType)
  }

  /** Exactly the rules of the type, as often as they are there. */
  lemma {:induction false} RulesOfTypeCount(rules: seq<Rule>, patternType: string, r: Rule)
    ensures multiset(RulesOfType(rules, patternType))[r] ==
            if r.patternType == patternType then multiset(rules)[r] else 0
  {
    if rules != [] {
      RulesOfTypeCount(rules[1..], patternType, r);
      assert rules == [rules[0]] + rules[1..];
    }
  }

  /** And in their order. */
  lemma {:induction false} RulesOfTypeConcat(a: seq<Rule>, b: seq<Rule>, patternType: string)
    ensures RulesOfType(a + b, patternType) == RulesOfType(a, patternType) + RulesOfType(b, patternType)
  {
    if a == [] {
      assert a + b == b && RulesOfType(a, patternType) + RulesOfType(b, patternType) == RulesOfType(b, patternType);
    } else {
      RulesOfTypeConcat(a[1..], b, patternType);
      RulesOfTypeCons(a[0], a[1..], patternType);
      RulesOfTypeCons(a[0], a[1..] + b, patternType);
      hide RulesOfType;
      assert a + b == [a[0]] + (a[1..] + b) && a == [a[0]] + a[1..];
    }
  }

  lemma RulesOfTypeCons(r: Rule, rest: seq<Rule>, patternType: string)
    ensures RulesOfType([r] + rest, patternType) ==
            (if r.patternType == patternType then [r] else []) + RulesOfType(rest, patternType)
  {
    assert ([r] + rest)[1..] == rest;
  }

  lemma RulesOfTypeMember(rules: seq<Rule>, patternType: string, r: Rule)
    ensures r in RulesOfType(rules, patternType) <==> r in rules && r.patternType == patternType
  {
    RulesOfTypeCount(rules, patternType, r);
    assert r in RulesOfType(rules, patternType) <==> r in multiset(RulesOfType(rules, patternType));
    assert r in rules <==> r in multiset(rules);
  }

  method FilterRulesByPatternType(rules: seq<Rule>, patternType: string) returns (filtered: seq<Rule>)
    ensures filtered == RulesOfType(rules, patternType)
    ensures forall r <- filtered :: r in rules && r.patternType == patternType
    ensures forall r <- rules :: r.patternType == patternType ==> r in filtered
  {
    filtered := [];
    for i := 0 to |rules|
      invariant filtered + RulesOfType(rules[i..], patternType) == RulesOfType(rules, patternType)
    {
      assert rules[i..][1..] == rules[i + 1..];
      if rules[i].patternType == patternType {
        filtered := filtered + [rules[i]];
      }
    }
    forall r ensures r in filtered <==> r in rules && r.patternType == patternType {
      RulesOfTypeMember(rules, patternType, r);
    }
  }

  method HasRulesOfType(rules: seq<Rule>, patternType: string) returns (has: bool)
    ensures has <==> RulesOfType(rules, patternType) != []
    ensures has <==> exists r <- rules :: r.patternType == patternType
  {
    for i := 0 to |rules|
      invariant RulesOfType(rules, patternType) == RulesOfType(rules[i..], patternType)
      invariant forall j :: 0 <= j < i ==> rules[j].patternType != patternType
    {
      assert rules[i..][1..] == rules[i + 1..];
      if rules[i].patternType == patternType {
        return true;
      }
    }
    return false;
  }

  // ---- pieces used by several stages ----

  const COUNTRY := Of(CountryCode)
  const ADDRESS := Of(RemoteAddr)
  const AGENT := Of(UserAgent)
  const URI := Of(RequestUri)
  const QUERY := Of(QueryString)
  const METHOD := Of(RequestMethod)

  predicate IsCidr(ip: string) {
    '/' in ip
  }

  function AddressTest(parse: ParseCidr, ip: string): Test {
    if IsCidr(ip) then Like(ADDRESS, PatternOf(ip, parse(ip))) else Equals(ADDRESS, ip)
  }

  function AddressTests(parse: ParseCidr, ips: seq<string>): (tests: seq<Test>)
    ensures forall t <- tests :: OnRequest(t)
  {
    if ips == [] then [] else [AddressTest(parse, ips[0])] + AddressTests(parse, ips[1..])
  }

  function AgentTest(list: string): Test {
    LikeNoCase(AGENT, "(" + RegexOf(list) + ")")
  }

  function CountryPattern(geo: Geo): string {
    "^(" + Join(geo.countries, "|") + (if geo.mode == "whitelist" && geo.allowPrivateIPs then "|--" else "") + ")$"
  }

  function CountryTest(geo: Geo): Test {
    if geo.mode == "whitelist" then NotLike(COUNTRY, CountryPattern(geo)) else Like(COUNTRY, CountryPattern(geo))
  }

  /** In blacklist mode the private-network code can be taken out again. */
  function PrivateTest(geo: Geo): seq<Test> {
    if geo.mode != "whitelist" && geo.allowPrivateIPs then [Equals(COUNTRY, "--")] else []
  }

  const SEARCH_BOT := Equals(Own(IsSearchBot), "1")

  function Concat(x: Local, parts: seq<Part>): Program {
    [Do(Set(x, parts))]
  }

  function Flags(x: Local, y: Local): seq<Part> {
    [Value(Own(x)), Value(Own(y))]
  }

  function ExceptionTests(entries: seq<string>): (tests: seq<Test>)
    ensures forall t <- tests :: OnRequest(t)
  {
    if entries == [] then [] else [LikeNoCase(URI, entries[0])] + ExceptionTests(entries[1..])
  }

  // ---- the stages ----

  function EmitInit(): Program {
    SetTo(BlockReason, "-") + (SetTo(BotCategory, "-") + (SetTo(GeoBlocked, "0") + SetTo(IsSearchBot, "0")))
  }

  function EmitSearchBot(cfg: Config): Program {
    if cfg.searchEnginesList != "" then When(AgentTest(cfg.searchEnginesList), [To(IsSearchBot, "1")]) else []
  }

  const ACME_PATH := "^/.well-known/acme-challenge/"
  const CHALLENGE_PATH := "^/api/v1/challenge/"

  function EmitSkip(): Program {
    SetTo(SkipSecurity, "0") + WhenEach([Like(URI, ACME_PATH), Like(URI, CHALLENGE_PATH)], [To(SkipSecurity, "1")])
  }

  /** Marks the country in `x`, with the reason, unless a private network is let off. */
  function EmitCountry(geo: Geo, x: Local, pardon: seq<Assignment>): Program {
    When(CountryTest(geo), [To(x, "Y"), To(BlockReason, "geo_block")]) + WhenEach(PrivateTest(geo), pardon)
  }

  function EmitGeoWithAllowedIPs(parse: ParseCidr, geo: Geo): Program {
    SetTo(GeoAllowedIp, "0")
    + (WhenEach(AddressTests(parse, geo.allowedIPs), [To(GeoAllowedIp, "1")])
    + (SetTo(GeoBlockCheck, "")
    + (EmitCountry(geo, GeoBlockCheck, [To(GeoBlockCheck, "")])
    + ((if geo.allowSearchBots then When(SEARCH_BOT, [To(GeoBlockCheck, ""), To(BlockReason, "-")]) else [])
    + (Concat(GeoFinalBlock, [Value(Own(GeoAllowedIp)), Value(Own(GeoBlockCheck)), Value(Own(SkipSecurity))])
    + ReturnWhen(Equals(Own(GeoFinalBlock), "0Y0"), [], 403))))))
  }

  function EmitGeoWithSearchBots(geo: Geo): Program {
    SetTo(GeoBlockCheck, "")
    + (EmitCountry(geo, GeoBlockCheck, [To(GeoBlockCheck, "")])
    + (When(SEARCH_BOT, [To(GeoBlockCheck, ""), To(BlockReason, "-")])
    + (Concat(GeoBlockFinal, Flags(GeoBlockCheck, SkipSecurity))
    + ReturnWhen(Equals(Own(GeoBlockFinal), "Y0"), [], 403))))
  }

  function EmitGeoPlain(geo: Geo): Program {
    SetTo(GeoDirectBlock, "")
    + (EmitCountry(geo, GeoDirectBlock, [To(GeoDirectBlock, ""), To(BlockReason, "-")])
    + (Concat(GeoDirectFinal, Flags(GeoDirectBlock, SkipSecurity))
    + ReturnWhen(Equals(Own(GeoDirectFinal), "Y0"), [], 403)))
  }

  function EmitGeoDirect(parse: ParseCidr, cfg: Config): Program {
    if cfg.geo.None? || !cfg.geo.value.enabled || cfg.geo.value.challengeMode then []
    else
      var geo := cfg.geo.value;
      if geo.allowedIPs != [] then EmitGeoWithAllowedIPs(parse, geo)
      else if geo.allowSearchBots then EmitGeoWithSearchBots(geo)
      else EmitGeoPlain(geo)
  }

  const PARDON: seq<Assignment> := [To(GeoBlocked, "0"), To(BlockReason, "-")]
  const TRUSTED := Equals(Of(TrustedIp), "1")

  function EmitChallengeMark(geo: Geo): Program {
    SetTo(GeoBlocked, "0")
    + (When(CountryTest(geo), [To(GeoBlocked, "1"), To(BlockReason, "geo_block")])
    + WhenEach(PrivateTest(geo), [To(GeoBlocked, "0")]))
  }

  function EmitChallengePardons(parse: ParseCidr, cfg: Config, geo: Geo): Program {
    WhenEach(AddressTests(parse, geo.allowedIPs), PARDON)
    + ((if geo.allowSearchBots then When(SEARCH_BOT, PARDON) else [])
    + (if cfg.globalTrustedIPs != [] then When(TRUSTED, PARDON) else []))
  }

  function EmitGeoChallenge(parse: ParseCidr, cfg: Config): Program {
    if cfg.geo.None? || !cfg.geo.value.enabled || !cfg.geo.value.challengeMode then []
    else EmitChallengeMark(cfg.geo.value) + EmitChallengePardons(parse, cfg, cfg.geo.value)
  }

  function EmitAccessList(cfg: Config): Program {
    if cfg.accessListItems != [] then SetTo(BlockReason, "access_denied") else []
  }

  function RuleTest(v: Var, rule: Rule): Test {
    LikeNoCase(v, EscapeNginxPattern(rule.pattern))
  }

  function RuleTests(v: Var, rules: seq<Rule>): (tests: seq<Test>)
    requires v.Of?
    ensures forall t <- tests :: OnRequest(t)
  {
    if rules == [] then [] else [RuleTest(v, rules[0])] + RuleTests(v, rules[1..])
  }

  function EmitQueryRules(rules: seq<Rule>): Program {
    if rules == [] then []
    else When(RuleTest(QUERY, rules[0]), [To(ExploitQsBlock, "1"), To(ExploitQsRule, rules[0].id)])
         + EmitQueryRules(rules[1..])
  }

  function EmitExceptions(cfg: Config, flag: Local): Program {
    if MergedEntries(cfg.globalExceptions, cfg.hostExceptions) != [] then
      WhenEach(ExceptionTests(EntriesOf(Merged(cfg.globalExceptions, cfg.hostExceptions))), [To(flag, "0")])
    else []
  }

  function EmitQueryStage(cfg: Config): Program {
    var rules := RulesOfType(cfg.exploitRules, "query_string");
    if rules == [] then []
    else
      SetTo(ExploitQsBlock, "0")
      + (SetTo(ExploitQsRule, "-")
      + (EmitQueryRules(rules)
      + (EmitExceptions(cfg, ExploitQsBlock)
      + [If(Equals(Own(ExploitQsBlock), "1"),
            [Assign(BlockReason, "exploit_block"), Set(ExploitRuleId, [Value(Own(ExploitQsRule))]), Return(403)])])))
  }

  function EmitUriStage(cfg: Config): Program {
    var rules := RulesOfType(cfg.exploitRules, "request_uri");
    if rules == [] then []
    else
      SetTo(RfiBlock, "0")
      + (WhenEach(RuleTests(URI, rules), [To(RfiBlock, "1")])
      + (EmitExceptions(cfg, RfiBlock)
      + ReturnWhen(Equals(Own(RfiBlock), "1"), [To(BlockReason, "exploit_block")], 403)))
  }

  function ScannerLog(id: string): seq<Assignment> {
    [To(BlockReason, "exploit_block"), To(ExploitRuleId, id), To(BotCategory, "scanner")]
  }

  function ExploitLog(id: string): seq<Assignment> {
    [To(BlockReason, "exploit_block"), To(ExploitRuleId, id)]
  }

  function EmitAgentRules(rules: seq<Rule>): Program {
    if rules == [] then []
    else ReturnWhen(RuleTest(AGENT, rules[0]), ScannerLog(rules[0].id), 403) + EmitAgentRules(rules[1..])
  }

  function EmitMethodRules(rules: seq<Rule>): Program {
    if rules == [] then []
    else ReturnWhen(RuleTest(METHOD, rules[0]), ExploitLog(rules[0].id), 405) + EmitMethodRules(rules[1..])
  }

  const SQL_SELECT := "union.*select"
  const SQL_CHARS := "(;|<|>|'|\\\"|\\)|%0A|%0D|%22|%27|%3C|%3E|%00)"
  const REMOTE_INCLUDE := "[a-zA-Z0-9_]=https?://"
  const PATH_TRAVERSAL := "\\.\\./"
  const SCANNERS := "(nikto|sqlmap|dirbuster|nmap|nessus|openvas|w3af|acunetix|havij|appscan|webscarab|webinspect)"
  const KNOWN_METHODS := "^(" + ("GET|" + "HEAD|" + ("POST|" + "PUT|" + ("PATCH|" + "DELETE|" + "OPTIONS"))) + ")$"

  function EmitFallbackTail(): Program {
    ReturnWhen(LikeNoCase(QUERY, PATH_TRAVERSAL), ExploitLog("LFI-FALLBACK-001"), 403)
    + (ReturnWhen(LikeNoCase(AGENT, SCANNERS), ScannerLog("SCAN-FALLBACK-001"), 403)
    + ReturnWhen(NotLike(METHOD, KNOWN_METHODS), ExploitLog("METHOD-FALLBACK-001"), 405))
  }

  function EmitFallbackInclude(cfg: Config): Program {
    SetTo(RfiBlock, "0")
    + (When(LikeNoCase(QUERY, REMOTE_INCLUDE), [To(RfiBlock, "1")])
    + (EmitExceptions(cfg, RfiBlock)
    + ReturnWhen(Equals(Own(RfiBlock), "1"), ExploitLog("RFI-FALLBACK-001"), 403)))
  }

  function EmitFallback(cfg: Config): Program {
    ReturnWhen(LikeNoCase(QUERY, SQL_SELECT), ExploitLog("SQLI-FALLBACK-001"), 403)
    + (ReturnWhen(LikeNoCase(QUERY, SQL_CHARS), ExploitLog("SQLI-FALLBACK-002"), 403)
    + (EmitFallbackInclude(cfg)
    + EmitFallbackTail()))
  }

  function EmitExploits(cfg: Config): Program {
    if !cfg.blockExploits then []
    else if cfg.exploitRules != [] then
      EmitQueryStage(cfg)
      + (EmitUriStage(cfg)
      + (EmitAgentRules(RulesOfType(cfg.exploitRules, "user_agent"))
      + EmitMethodRules(RulesOfType(cfg.exploitRules, "request_method"))))
    else EmitFallback(cfg)
  }

  function EmitBanned(cfg: Config): Program {
    if cfg.bannedIPs != [] || cfg.useFilterSubscription then
      ReturnWhen(Equals(Of(BannedIp), "1"), [To(BlockReason, "banned_ip")], 403)
      + ReturnWhen(Equals(Of(BannedIp), "2"), [To(BlockReason, "filter_subscription")], 403)
    else []
  }

  function AllowedIPsOf(cfg: Config): seq<string> {
    if cfg.geo.Some? then cfg.geo.value.allowedIPs else []
  }

  function EmitCloud(parse: ParseCidr, cfg: Config): Program {
    if cfg.blockedCloudIPRanges == [] then []
    else
      Concat(PriorityAllowCloud, [Value(Own(SkipSecurity))])
      + (WhenEach(AddressTests(parse, AllowedIPsOf(cfg)), [To(PriorityAllowCloud, "1")])
      + ((if cfg.cloudAllowSearchBots && cfg.searchEnginesList != ""
          then When(SEARCH_BOT, [To(PriorityAllowCloud, "1")]) else [])
      + (Concat(CloudBlockCheck, [Value(Of(BlockedCloud)), Value(Own(PriorityAllowCloud))])
      + (if cfg.cloudChallengeMode
         then ReturnWhen(Equals(Own(CloudBlockCheck), "10"), [To(BlockReason, "cloud_provider_challenge")], 418)
         else ReturnWhen(Equals(Own(CloudBlockCheck), "10"), [To(BlockReason, "cloud_provider_block")], 403)))))
  }

  /** One category of agents: mark it, then block unless the client has priority. */
  function EmitAgents(used: bool, list: string, flag: Local, check: Local, category: string): Program {
    if !used || list == "" then []
    else
      SetTo(flag, "0")
      + (When(AgentTest(list), [To(flag, "1"), To(BlockReason, "bot_filter"), To(BotCategory, category)])
      + (Concat(check, Flags(PriorityAllow, flag))
      + ReturnWhen(Equals(Own(check), "01"), [], 403)))
  }

  function EmitPriority(parse: ParseCidr, cfg: Config, bot: BotFilter): Program {
    Concat(PriorityAllow, [Value(Own(SkipSecurity))])
    + (WhenEach(AddressTests(parse, AllowedIPsOf(cfg)), [To(PriorityAllow, "1")])
    + ((if bot.allowSearchEngines && cfg.searchEnginesList != ""
        then When(SEARCH_BOT, [To(PriorityAllow, "1")]) else [])
    + ((if cfg.globalTrustedIPs != [] then When(TRUSTED, [To(PriorityAllow, "1")]) else [])
    + (if bot.customAllowedAgents != ""
       then When(AgentTest(bot.customAllowedAgents), [To(PriorityAllow, "1")]) else []))))
  }

  function EmitBotFilter(parse: ParseCidr, cfg: Config): Program {
    if cfg.botFilter.None? || !cfg.botFilter.value.enabled then []
    else
      var bot := cfg.botFilter.value;
      EmitPriority(parse, cfg, bot)
      + (EmitAgents(bot.blockBadBots, cfg.badBotsList, BlockBadBot, BadBotCheck, "bad_bot")
      + (EmitAgents(bot.blockAIBots, cfg.aiBotsList, BlockAIBot, AIBotCheck, "ai_bot")
      + (EmitAgents(bot.blockSuspiciousClients, cfg.suspiciousClientsList, BlockSuspicious, SuspiciousCheck,
                    "suspicious")
      + EmitAgents(true, bot.customBlockedAgents, BlockCustom, CustomCheck, "custom"))))
  }

  function EmitFilterAgents(cfg: Config): Program {
    if !cfg.useFilterSubscription then []
    else
      var allow := if cfg.botFilter.Some? && cfg.botFilter.value.enabled then PriorityAllow else SkipSecurity;
      Concat(FilterUaCheck, [Value(Own(allow)), Value(Of(FilterSubUaBlocked))])
      + ReturnWhen(Equals(Own(FilterUaCheck), "01"), [To(BlockReason, "filter_subscription")], 403)
  }

  /** The server-level program. */
  function Emit(parse: ParseCidr, cfg: Config): Program {
    EmitInit()
    + (EmitSearchBot(cfg)
    + (EmitSkip()
    + (EmitGeoDirect(parse, cfg)
    + (EmitGeoChallenge(parse, cfg)
    + (EmitAccessList(cfg)
    + (EmitExploits(cfg)
    + (EmitBanned(cfg)
    + (EmitCloud(parse, cfg)
    + (EmitBotFilter(parse, cfg)
    + EmitFilterAgents(cfg))))))))))
  }
}
