/**
 What a host's security settings mean for a request, said without variables or order of assignment:
 a cascade of stages, each of which blocks or passes, and the first that blocks decides.
 */
module PolicyDecision {
  import opened AnchoredRegex
  import opened Cidr
  import opened Exceptions
  import opened GlobPattern
  import opened Options
  import opened Policy
  import opened Rewrite

  /** Everything the decision depends on. */
  datatype Situation = Situation(engine: Engine, parse: ParseCidr, cfg: Config, req: Request)

  /** The log variables of a request: why it was blocked, by which rule, and what kind of bot it was. */
  datatype Log = Log(reason: string, rule: string, category: string)

  datatype Verdict = Pass | Block(code: int, log: Log)

  function First(verdicts: seq<Verdict>): Verdict {
    if verdicts == [] then Pass
    else if verdicts[0].Block? then verdicts[0]
    else First(verdicts[1..])
  }

  // ---- facts about the request ----

  predicate AgentListed(s: Situation, list: string) {
    MatchesNoCase(s.engine, "(" + RegexOf(list) + ")", s.req(UserAgent))
  }

  predicate SearchBot(s: Situation) {
    s.cfg.searchEnginesList != "" && AgentListed(s, s.cfg.searchEnginesList)
  }

  /** Certificate validation and the challenge pages are never blocked by geo, cloud or agent stages. */
  predicate Exempt(s: Situation) {
    Matches(s.engine.exact, ACME_PATH, s.req(RequestUri)) || Matches(s.engine.exact, CHALLENGE_PATH, s.req(RequestUri))
  }

  predicate AddressIs(s: Situation, ip: string) {
    if IsCidr(ip) then Matches(s.engine.exact, PatternOf(ip, s.parse(ip)), s.req(RemoteAddr))
    else s.req(RemoteAddr) == ip
  }

  predicate AddressAllowed(s: Situation, ips: seq<string>) {
    exists ip <- ips :: AddressIs(s, ip)
  }

  predicate Trusted(s: Situation) {
    s.cfg.globalTrustedIPs != [] && s.req(TrustedIp) == "1"
  }

  /** The country test as written: off the list in whitelist mode, on it otherwise. */
  predicate CountryMarked(s: Situation, geo: Geo) {
    Matches(s.engine.exact, CountryPattern(geo), s.req(CountryCode)) <==> geo.mode != "whitelist"
  }

  /** Private networks carry the code `--`; outside whitelist mode they are let off afterwards. */
  predicate PrivatePardon(s: Situation, geo: Geo) {
    geo.mode != "whitelist" && geo.allowPrivateIPs && s.req(CountryCode) == "--"
  }

  predicate CountryBlocked(s: Situation, geo: Geo) {
    CountryMarked(s, geo) && !PrivatePardon(s, geo)
  }

  predicate BotPardon(s: Situation, geo: Geo) {
    geo.allowSearchBots && SearchBot(s)
  }

  // ---- the stages ----

  predicate GeoBlocks(s: Situation) {
    && s.cfg.geo.Some?
    && var geo := s.cfg.geo.value;
    && geo.enabled && !geo.challengeMode
    && CountryBlocked(s, geo)
    && !AddressAllowed(s, geo.allowedIPs)
    && !BotPardon(s, geo)
    && !Exempt(s)
  }

  function GeoVerdict(s: Situation): Verdict {
    if GeoBlocks(s) then Block(403, Log("geo_block", "", "-")) else Pass
  }

  /** In challenge mode nothing is blocked; the request is flagged for the challenge page. */
  predicate Challenged(s: Situation) {
    && s.cfg.geo.Some?
    && var geo := s.cfg.geo.value;
    && geo.enabled && geo.challengeMode
    && CountryBlocked(s, geo)
    && !AddressAllowed(s, geo.allowedIPs)
    && !BotPardon(s, geo)
    && !Trusted(s)
  }

  predicate RuleMatches(s: Situation, v: RequestVar, rule: Rule) {
    MatchesNoCase(s.engine, rule.pattern, s.req(v))
  }

  predicate SomeRuleMatches(s: Situation, v: RequestVar, rules: seq<Rule>) {
    exists r <- rules :: RuleMatches(s, v, r)
  }

  function FirstMatch(s: Situation, v: RequestVar, rules: seq<Rule>): Option<Rule> {
    if rules == [] then None
    else if RuleMatches(s, v, rules[0]) then Some(rules[0])
    else FirstMatch(s, v, rules[1..])
  }

  function LastMatch(s: Situation, v: RequestVar, rules: seq<Rule>): Option<Rule> {
    if rules == [] then None
    else
      var last := rules[|rules| - 1];
      if RuleMatches(s, v, last) then Some(last) else LastMatch(s, v, rules[..|rules| - 1])
  }

  predicate UriExcepted(s: Situation) {
    exists x <- MergedEntries(s.cfg.globalExceptions, s.cfg.hostExceptions) ::
      MatchesNoCase(s.engine, x, s.req(RequestUri))
  }

  function QueryVerdict(s: Situation): Verdict {
    var last := LastMatch(s, QueryString, RulesOfType(s.cfg.exploitRules, "query_string"));
    if last.Some? && !UriExcepted(s) then Block(403, Log("exploit_block", last.value.id, "-")) else Pass
  }

  function UriVerdict(s: Situation): Verdict {
    if SomeRuleMatches(s, RequestUri, RulesOfType(s.cfg.exploitRules, "request_uri")) && !UriExcepted(s)
    then Block(403, Log("exploit_block", "", "-")) else Pass
  }

  function AgentVerdict(s: Situation): Verdict {
    var first := FirstMatch(s, UserAgent, RulesOfType(s.cfg.exploitRules, "user_agent"));
    if first.Some? then Block(403, Log("exploit_block", first.value.id, "scanner")) else Pass
  }

  function MethodVerdict(s: Situation): Verdict {
    var first := FirstMatch(s, RequestMethod, RulesOfType(s.cfg.exploitRules, "request_method"));
    if first.Some? then Block(405, Log("exploit_block", first.value.id, "-")) else Pass
  }

  function BlockIf(blocks: bool, code: int, log: Log): Verdict {
    if blocks then Block(code, log) else Pass
  }

  const METHODS := ["GET", "HEAD", "POST", "PUT", "PATCH", "DELETE", "OPTIONS"]

  /** The built-in rules, used while the database holds none. */
  function FallbackVerdicts(s: Situation): seq<Verdict> {
    var (query, agent) := (s.req(QueryString), s.req(UserAgent));
    [
      BlockIf(MatchesNoCase(s.engine, SQL_SELECT, query), 403, Log("exploit_block", "SQLI-FALLBACK-001", "-")),
      BlockIf(MatchesNoCase(s.engine, SQL_CHARS, query), 403, Log("exploit_block", "SQLI-FALLBACK-002", "-")),
      BlockIf(MatchesNoCase(s.engine, REMOTE_INCLUDE, query) && !UriExcepted(s), 403,
              Log("exploit_block", "RFI-FALLBACK-001", "-")),
      BlockIf(MatchesNoCase(s.engine, PATH_TRAVERSAL, query), 403, Log("exploit_block", "LFI-FALLBACK-001", "-")),
      BlockIf(MatchesNoCase(s.engine, SCANNERS, agent), 403, Log("exploit_block", "SCAN-FALLBACK-001", "scanner")),
      BlockIf(s.req(RequestMethod) !in METHODS, 405, Log("exploit_block", "METHOD-FALLBACK-001", "-"))
    ]
  }

  function ExploitVerdict(s: Situation): Verdict {
    if !s.cfg.blockExploits then Pass
    else if s.cfg.exploitRules != [] then
      First([QueryVerdict(s), UriVerdict(s), AgentVerdict(s), MethodVerdict(s)])
    else First(FallbackVerdicts(s))
  }

  function BannedVerdict(s: Situation): Verdict {
    if s.cfg.bannedIPs == [] && !s.cfg.useFilterSubscription then Pass
    else if s.req(BannedIp) == "1" then Block(403, Log("banned_ip", "", "-"))
    else if s.req(BannedIp) == "2" then Block(403, Log("filter_subscription", "", "-"))
    else Pass
  }

  predicate CloudPriority(s: Situation) {
    || Exempt(s)
    || AddressAllowed(s, AllowedIPsOf(s.cfg))
    || (s.cfg.cloudAllowSearchBots && SearchBot(s))
  }

  function CloudVerdict(s: Situation): Verdict {
    if s.cfg.blockedCloudIPRanges == [] || s.req(BlockedCloud) != "1" || CloudPriority(s) then Pass
    else if s.cfg.cloudChallengeMode then Block(418, Log("cloud_provider_challenge", "", "-"))
    else Block(403, Log("cloud_provider_block", "", "-"))
  }

  predicate BotFilterOn(s: Situation) {
    s.cfg.botFilter.Some? && s.cfg.botFilter.value.enabled
  }

  predicate BotPriority(s: Situation, bot: BotFilter) {
    || Exempt(s)
    || AddressAllowed(s, AllowedIPsOf(s.cfg))
    || (bot.allowSearchEngines && SearchBot(s))
    || Trusted(s)
    || (bot.customAllowedAgents != "" && AgentListed(s, bot.customAllowedAgents))
  }

  /** One kind of agent the bot filter knows: whether it is looked for, and where it is listed. */
  datatype AgentKind = AgentKind(used: bool, list: string, category: string)

  function AgentKinds(cfg: Config, bot: BotFilter): seq<AgentKind> {
    [
      AgentKind(bot.blockBadBots, cfg.badBotsList, "bad_bot"),
      AgentKind(bot.blockAIBots, cfg.aiBotsList, "ai_bot"),
      AgentKind(bot.blockSuspiciousClients, cfg.suspiciousClientsList, "suspicious"),
      AgentKind(true, bot.customBlockedAgents, "custom")
    ]
  }

  predicate OfKind(s: Situation, k: AgentKind) {
    k.used && k.list != "" && AgentListed(s, k.list)
  }

  function FirstKind(s: Situation, kinds: seq<AgentKind>): Option<string> {
    if kinds == [] then None
    else if OfKind(s, kinds[0]) then Some(kinds[0].category)
    else FirstKind(s, kinds[1..])
  }

  function LastKind(s: Situation, kinds: seq<AgentKind>): Option<string> {
    if kinds == [] then None
    else
      var later := LastKind(s, kinds[1..]);
      if later.Some? then later
      else if OfKind(s, kinds[0]) then Some(kinds[0].category)
      else None
  }

  function BotVerdict(s: Situation): Verdict {
    if !BotFilterOn(s) then Pass
    else
      var bot := s.cfg.botFilter.value;
      var kind := FirstKind(s, AgentKinds(s.cfg, bot));
      if kind.Some? && !BotPriority(s, bot) then Block(403, Log("bot_filter", "", kind.value)) else Pass
  }

  function FilterAgentVerdict(s: Situation): Verdict {
    var priority := if BotFilterOn(s) then BotPriority(s, s.cfg.botFilter.value) else Exempt(s);
    if s.cfg.useFilterSubscription && s.req(FilterSubUaBlocked) == "1" && !priority
    then Block(403, Log("filter_subscription", "", "-")) else Pass
  }

  /** The cascade. */
  function Decide(s: Situation): Verdict {
    First([GeoVerdict(s), ExploitVerdict(s), BannedVerdict(s), CloudVerdict(s), BotVerdict(s), FilterAgentVerdict(s)])
  }

  // ---- what a passed request leaves in its log variables ----

  /** The direct-block geo program can leave its reason behind on a request it lets through. */
  function GeoReason(s: Situation): string {
    if s.cfg.geo.None? || !s.cfg.geo.value.enabled then "-"
    else
      var geo := s.cfg.geo.value;
      if geo.challengeMode then
        if CountryMarked(s, geo) && !AddressAllowed(s, geo.allowedIPs) && !BotPardon(s, geo) && !Trusted(s)
        then "geo_block" else "-"
      else if CountryMarked(s, geo) && !BotPardon(s, geo) && !(PrivatePardon(s, geo) && PlainGeo(geo))
      then "geo_block" else "-"
  }

  /** Neither allowed addresses nor search bots: the third geo program. */
  predicate PlainGeo(geo: Geo) {
    geo.allowedIPs == [] && !geo.allowSearchBots
  }

  function AccessReason(s: Situation): string {
    if s.cfg.accessListItems != [] then "access_denied" else GeoReason(s)
  }

  function PassedLog(s: Situation): Log {
    var kind := if BotFilterOn(s) then LastKind(s, AgentKinds(s.cfg, s.cfg.botFilter.value)) else None;
    if kind.Some? then Log("bot_filter", "", kind.value) else Log(AccessReason(s), "", "-")
  }
}
