/** The later stages: access list, bans, cloud providers, the bot filter and filter subscriptions. */
module AgentProof {
  import opened GlobPattern
  import opened Options
  import opened Policy
  import opened PolicyDecision
  import opened PolicySteps
  import opened Rewrite

  // ---- bans and cloud providers ----

  lemma AccessListRuns(s: Situation, st: Store)
    requires Ready(s, st) && Get(st, GeoBlocked) == Bit(Challenged(s)) && LogOf(st) == Log(GeoReason(s), "", "-")
    ensures Agrees(s, Run(s, EmitAccessList(s.cfg), st), Pass, AccessReason(s))
  {
    hide Exec, SearchBot, Exempt, Challenged, GeoReason;
    if s.cfg.accessListItems != [] {
      RunSetTo(s.engine, s.req, st, BlockReason, "access_denied");
    } else {
      RunNothing(s, st);
    }
  }

  lemma BannedRuns(s: Situation, st: Store, reason: string)
    requires Clear(s, st, reason)
    ensures Agrees(s, Run(s, EmitBanned(s.cfg), st), BannedVerdict(s), reason)
  {
    hide Exec, Clear, ReturnWhen;
    if s.cfg.bannedIPs != [] || s.cfg.useFilterSubscription {
      var t1, t2 := Equals(Of(BannedIp), "1"), Equals(Of(BannedIp), "2");
      var sets1, sets2 := [To(BlockReason, "banned_ip")], [To(BlockReason, "filter_subscription")];
      var p2 := ReturnWhen(t2, sets2, 403);
      ThenReturn(s, st, t1, sets1, 403, p2, s.req(BannedIp) == "1");
      ThenReturn(s, st, t2, sets2, 403, [], s.req(BannedIp) == "2");
      AtEnd(s, p2, st);
      RunNothing(s, st);
      UpdatedShort(st, sets1);
      UpdatedShort(st, sets2);
      ClearFacts(s, st, reason);
    } else {
      RunNothing(s, st);
    }
  }

  lemma CloudPriorityRuns(s: Situation, st: Store, q: Program) returns (mid: Store)
    requires Ready(s, st)
    ensures Run(s, Concat(PriorityAllowCloud, [Value(Own(SkipSecurity))])
                + (WhenEach(AddressTests(s.parse, AllowedIPsOf(s.cfg)), [To(PriorityAllowCloud, "1")])
                + ((if s.cfg.cloudAllowSearchBots && s.cfg.searchEnginesList != ""
                    then When(SEARCH_BOT, [To(PriorityAllowCloud, "1")]) else []) + q)), st) == Run(s, q, mid)
    ensures Get(mid, PriorityAllowCloud) == Bit(CloudPriority(s)) && Frame(st, mid, {PriorityAllowCloud})
  {
    hide Exec, Run, SearchBot, Exempt, AddressAllowed, AddressTests, AllowedIPsOf;
    hide Concat, WhenEach, When, Expand, Holds, AnyHolds, Updated;
    var tests := AddressTests(s.parse, AllowedIPsOf(s.cfg));
    var bots := s.cfg.cloudAllowSearchBots && s.cfg.searchEnginesList != "";
    var p3 := (if bots then When(SEARCH_BOT, [To(PriorityAllowCloud, "1")]) else []) + q;
    var p2 := WhenEach(tests, [To(PriorityAllowCloud, "1")]) + p3;
    var a := ThenParts(s, st, PriorityAllowCloud, [Value(Own(SkipSecurity))], p2);
    ExpandOne(s.req, st, Own(SkipSecurity));
    AddressTestsHold(s, AllowedIPsOf(s.cfg));
    var b := ThenEachOne(s, a, tests, To(PriorityAllowCloud, "1"), p3, AddressAllowed(s, AllowedIPsOf(s.cfg)));
    SearchBotHolds(s, b);
    mid := ThenOne(s, b, bots, SEARCH_BOT, To(PriorityAllowCloud, "1"), q, SearchBot(s));
    SearchBotListed(s);
  }

  lemma CloudRuns(s: Situation, st: Store, reason: string)
    requires Clear(s, st, reason)
    ensures Agrees(s, Run(s, EmitCloud(s.parse, s.cfg), st), CloudVerdict(s), reason)
  {
    hide Exec, Run, SearchBot, Exempt, Challenged, AddressTests, AllowedIPsOf, CloudPriority;
    hide Concat, WhenEach, When, ReturnWhen, Expand, Updated;
    if s.cfg.blockedCloudIPRanges != [] {
      var x := CloudBlockCheck;
      var reasonText := if s.cfg.cloudChallengeMode then "cloud_provider_challenge" else "cloud_provider_block";
      var sets := [To(BlockReason, reasonText)];
      var code := if s.cfg.cloudChallengeMode then 418 else 403;
      var p5 := ReturnWhen(Equals(Own(x), "10"), sets, code);
      var p4 := Concat(x, [Value(Of(BlockedCloud)), Value(Own(PriorityAllowCloud))]) + p5;
      var c := CloudPriorityRuns(s, st, p4);
      var d := ThenParts(s, c, x, [Value(Of(BlockedCloud)), Value(Own(PriorityAllowCloud))], p5);
      ExpandTwo(s.req, c, Of(BlockedCloud), Own(PriorityAllowCloud));
      DecodeFlagLast(s.req(BlockedCloud), CloudPriority(s));
      EndReturn(s, d, x, "10", sets, code);
      UpdatedShort(d, sets);
    } else {
      RunNothing(s, st);
    }
  }

  lemma SearchBotListed(s: Situation)
    ensures SearchBot(s) ==> s.cfg.searchEnginesList != ""
  {}

  // ---- the bot filter ----

  lemma PriorityRuns(s: Situation, st: Store, bot: BotFilter, q: Program) returns (mid: Store)
    requires Ready(s, st)
    ensures Run(s, EmitPriority(s.parse, s.cfg, bot) + q, st) == Run(s, q, mid)
    ensures Get(mid, PriorityAllow) == Bit(BotPriority(s, bot)) && Frame(st, mid, {PriorityAllow})
  {
    hide Exec, Run, SearchBot, Exempt, AddressAllowed, AddressTests, AllowedIPsOf, AgentListed, AgentTest;
    hide Concat, WhenEach, When, Expand, Holds, AnyHolds;
    var set1 := To(PriorityAllow, "1");
    var tests := AddressTests(s.parse, AllowedIPsOf(s.cfg));
    var bots := bot.allowSearchEngines && s.cfg.searchEnginesList != "";
    var trusted := s.cfg.globalTrustedIPs != [];
    var custom := bot.customAllowedAgents != "";
    var p5 := if custom then When(AgentTest(bot.customAllowedAgents), [set1]) else [];
    var p4 := if trusted then When(TRUSTED, [set1]) else [];
    var p3 := if bots then When(SEARCH_BOT, [set1]) else [];
    var p2 := WhenEach(tests, [set1]);
    var p1 := Concat(PriorityAllow, [Value(Own(SkipSecurity))]);
    assert EmitPriority(s.parse, s.cfg, bot) == p1 + (p2 + (p3 + (p4 + p5)));
    Regroup(p1, p2, p3, p4, p5, q);
    var a := ThenParts(s, st, PriorityAllow, [Value(Own(SkipSecurity))], p2 + (p3 + (p4 + (p5 + q))));
    ExpandOne(s.req, st, Own(SkipSecurity));
    AddressTestsHold(s, AllowedIPsOf(s.cfg));
    var b := ThenEachOne(s, a, tests, set1, p3 + (p4 + (p5 + q)), AddressAllowed(s, AllowedIPsOf(s.cfg)));
    SearchBotHolds(s, b);
    SearchBotListed(s);
    var c := ThenOne(s, b, bots, SEARCH_BOT, set1, p4 + (p5 + q), SearchBot(s));
    TrustedHolds(s, c);
    var d := ThenOne(s, c, trusted, TRUSTED, set1, p5 + q, s.req(TrustedIp) == "1");
    AgentTestHolds(s, d, bot.customAllowedAgents);
    mid := ThenOne(s, d, custom, AgentTest(bot.customAllowedAgents), set1, q, AgentListed(s, bot.customAllowedAgents));
  }

  lemma Regroup(p1: Program, p2: Program, p3: Program, p4: Program, p5: Program, q: Program)
    ensures p1 + (p2 + (p3 + (p4 + p5))) + q == p1 + (p2 + (p3 + (p4 + (p5 + q))))
  {}

  lemma AgentTestHolds(s: Situation, st: Store, list: string)
    ensures Holds(s.engine, s.req, st, AgentTest(list)) <==> AgentListed(s, list)
  {
    hide RegexOf, MatchesNoCase;
  }

  /** Variables only the agent steps use. */
  predicate IsScratch(x: Local) {
    && x != BlockReason && x != BotCategory && x != ExploitRuleId && x != PriorityAllow
    && x != SkipSecurity && x != IsSearchBot && x != GeoBlocked
  }

  /** What the agent steps leave alone. */
  predicate Kept(st: Store, st': Store) {
    && Get(st', ExploitRuleId) == Get(st, ExploitRuleId)
    && Get(st', PriorityAllow) == Get(st, PriorityAllow)
    && Get(st', SkipSecurity) == Get(st, SkipSecurity)
    && Get(st', IsSearchBot) == Get(st, IsSearchBot)
    && Get(st', GeoBlocked) == Get(st, GeoBlocked)
  }

  /** One category of agents: blocks, or leaves its mark, or does nothing. */
  lemma AgentsRun(s: Situation, st: Store, k: AgentKind, flag: Local, check: Local, allow: bool, q: Program)
    returns (mid: Store)
    requires flag != check && IsScratch(flag) && IsScratch(check)
    requires Get(st, PriorityAllow) == Bit(allow)
    ensures var o := Run(s, EmitAgents(k.used, k.list, flag, check, k.category) + q, st);
            && (OfKind(s, k) && !allow ==>
                  o == Returned(403, mid) && LogOf(mid) == Log("bot_filter", Get(st, ExploitRuleId), k.category))
            && (!OfKind(s, k) || allow ==> o == Run(s, q, mid))
    ensures Get(mid, BlockReason) == Chosen(OfKind(s, k), To(BlockReason, "bot_filter"), st)
    ensures Get(mid, BotCategory) == Chosen(OfKind(s, k), To(BotCategory, k.category), st)
    ensures Kept(st, mid)
  {
    hide Exec, Run, AgentListed, AgentTest, Concat, When, SetTo, ReturnWhen, Expand, Holds, Updated, EmitAgents;
    if !k.used || k.list == "" {
      mid := st;
      NoAgents(k, flag, check, q);
    } else {
      mid := UsedAgentsRun(s, st, k, flag, check, allow, q);
    }
  }

  /** Marking: the flag, and with it the reason and the category. */
  lemma MarkAgentsRun(s: Situation, st: Store, k: AgentKind, flag: Local, q: Program) returns (mid: Store)
    requires IsScratch(flag)
    ensures var sets := [To(flag, "1"), To(BlockReason, "bot_filter"), To(BotCategory, k.category)];
            Run(s, SetTo(flag, "0") + (When(AgentTest(k.list), sets) + q), st) == Run(s, q, mid)
    ensures var yes := AgentListed(s, k.list);
            && Get(mid, flag) == Bit(yes)
            && Get(mid, BlockReason) == Chosen(yes, To(BlockReason, "bot_filter"), st)
            && Get(mid, BotCategory) == Chosen(yes, To(BotCategory, k.category), st)
    ensures Frame(st, mid, {flag, BlockReason, BotCategory})
  {
    hide Exec, Run, AgentListed, AgentTest, When, SetTo, Holds, Updated;
    var sets := [To(flag, "1"), To(BlockReason, "bot_filter"), To(BotCategory, k.category)];
    var a := ThenPut(s, st, flag, "0", When(AgentTest(k.list), sets) + q);
    AgentTestHolds(s, a, k.list);
    mid := ThenThree(s, a, AgentTest(k.list), sets[0], sets[1], sets[2], q, AgentListed(s, k.list));
  }

  /** Checking: the flag decides unless the client has priority. */
  lemma CheckAgentsRun(s: Situation, st: Store, flag: Local, check: Local, allow: bool, yes: bool, q: Program)
    returns (mid: Store)
    requires flag != check && IsScratch(flag) && IsScratch(check)
    requires Get(st, PriorityAllow) == Bit(allow) && Get(st, flag) == Bit(yes)
    ensures Run(s, Concat(check, Flags(PriorityAllow, flag)) + (ReturnWhen(Equals(Own(check), "01"), [], 403) + q), st)
            == if yes && !allow then Returned(403, mid) else Run(s, q, mid)
    ensures Frame(st, mid, {check})
  {
    hide Exec, Run, Concat, ReturnWhen, Expand, Updated;
    var p := ReturnWhen(Equals(Own(check), "01"), [], 403);
    mid := ThenParts(s, st, check, Flags(PriorityAllow, flag), p + q);
    ExpandTwo(s.req, st, Own(PriorityAllow), Own(flag));
    DecodeFlagFirst(allow, Bit(yes));
    BitInjective(yes, true);
    EqualsHolds(s, mid, check, "01");
    ThenReturn(s, mid, Equals(Own(check), "01"), [], 403, q, yes && !allow);
    UpdatedShort(mid, []);
  }

  lemma NoAgents(k: AgentKind, flag: Local, check: Local, q: Program)
    requires !k.used || k.list == ""
    ensures EmitAgents(k.used, k.list, flag, check, k.category) + q == q
  {
    assert [] + q == q;
  }

  lemma UsedAgentsRun(s: Situation, st: Store, k: AgentKind, flag: Local, check: Local, allow: bool, q: Program)
    returns (mid: Store)
    requires flag != check && IsScratch(flag) && IsScratch(check)
    requires Get(st, PriorityAllow) == Bit(allow) && k.used && k.list != ""
    ensures var o, yes := Run(s, EmitAgents(k.used, k.list, flag, check, k.category) + q, st), AgentListed(s, k.list);
            && o == (if yes && !allow then Returned(403, mid) else Run(s, q, mid))
            && Get(mid, BlockReason) == Chosen(yes, To(BlockReason, "bot_filter"), st)
            && Get(mid, BotCategory) == Chosen(yes, To(BotCategory, k.category), st)
    ensures Frame(st, mid, {flag, check, BlockReason, BotCategory})
  {
    hide Exec, Run, AgentListed, AgentTest, Concat, When, SetTo, ReturnWhen, EmitAgents, Flags, Expand, Updated;
    var sets := [To(flag, "1"), To(BlockReason, "bot_filter"), To(BotCategory, k.category)];
    var p4 := ReturnWhen(Equals(Own(check), "01"), [], 403);
    var p3 := Concat(check, Flags(PriorityAllow, flag));
    AgentsEmitted(k, flag, check, q);
    var a := MarkAgentsRun(s, st, k, flag, p3 + (p4 + q));
    mid := CheckAgentsRun(s, a, flag, check, allow, AgentListed(s, k.list), q);
  }

  lemma AgentsEmitted(k: AgentKind, flag: Local, check: Local, q: Program)
    requires k.used && k.list != ""
    ensures var sets := [To(flag, "1"), To(BlockReason, "bot_filter"), To(BotCategory, k.category)];
            var verdict := ReturnWhen(Equals(Own(check), "01"), [], 403);
            EmitAgents(k.used, k.list, flag, check, k.category) + q
            == SetTo(flag, "0")
               + (When(AgentTest(k.list), sets) + (Concat(check, Flags(PriorityAllow, flag)) + (verdict + q)))
  {
    hide SetTo, When, AgentTest, Concat, Flags, ReturnWhen;
    var sets := [To(flag, "1"), To(BlockReason, "bot_filter"), To(BotCategory, k.category)];
    RegroupFour(SetTo(flag, "0"), When(AgentTest(k.list), sets), Concat(check, Flags(PriorityAllow, flag)),
                ReturnWhen(Equals(Own(check), "01"), [], 403), q);
  }

  lemma RegroupFour(p1: Program, p2: Program, p3: Program, p4: Program, q: Program)
    ensures p1 + (p2 + (p3 + p4)) + q == p1 + (p2 + (p3 + (p4 + q)))
  {}

  predicate AfterAgents(s: Situation, st: Store, kinds: seq<AgentKind>, reason: string) {
    LogOf(st) == match LastKind(s, kinds) case Some(c) => Log("bot_filter", "", c) case None => Log(reason, "", "-")
  }

  lemma KindsOfOne(s: Situation, k: AgentKind, ks: seq<AgentKind>)
    ensures FirstKind(s, [k] + ks) == if OfKind(s, k) then Some(k.category) else FirstKind(s, ks)
    ensures LastKind(s, [k] + ks)
            == if LastKind(s, ks).Some? then LastKind(s, ks) else if OfKind(s, k) then Some(k.category) else None
  {
    assert ([k] + ks)[1..] == ks;
  }

  /** What the bot filter leaves behind on a request it passes. */
  predicate BotPassed(s: Situation, st: Store, bot: BotFilter, reason: string) {
    && Get(st, PriorityAllow) == Bit(BotPriority(s, bot))
    && Get(st, SkipSecurity) == Bit(Exempt(s))
    && Get(st, IsSearchBot) == Bit(SearchBot(s))
    && Get(st, GeoBlocked) == Bit(Challenged(s))
    && AfterAgents(s, st, AgentKinds(s.cfg, bot), reason)
  }

  /** A kind of agent with the two variables its step uses. */
  datatype Slot = Slot(kind: AgentKind, flag: Local, check: Local)

  predicate IsSlot(x: Slot) {
    x.flag != x.check && IsScratch(x.flag) && IsScratch(x.check)
  }

  function EmitSlots(slots: seq<Slot>): Program {
    if slots == [] then []
    else EmitSlot(slots[0]) + EmitSlots(slots[1..])
  }

  function KindsOf(slots: seq<Slot>): seq<AgentKind> {
    if slots == [] then [] else [slots[0].kind] + KindsOf(slots[1..])
  }

  /** The log once the agents of these kinds have been marked. */
  function MarkedLog(s: Situation, log: Log, kinds: seq<AgentKind>): Log {
    match LastKind(s, kinds)
    case Some(c) => Log("bot_filter", log.rule, c)
    case None => log
  }

  /** The first kind found blocks a client without priority; all kinds found mark one that has it. */
  lemma {:induction false} SlotsRun(s: Situation, st: Store, slots: seq<Slot>, allow: bool)
    requires Get(st, PriorityAllow) == Bit(allow)
    requires forall x <- slots :: IsSlot(x)
    ensures var o, kinds := Run(s, EmitSlots(slots), st), KindsOf(slots);
            var first := FirstKind(s, kinds);
            && (first.Some? && !allow ==>
                  o.Returned? && o.code == 403
                  && LogOf(o.store) == Log("bot_filter", Get(st, ExploitRuleId), first.value))
            && (first.None? || allow ==>
                  o.Continue? && LogOf(o.store) == MarkedLog(s, LogOf(st), kinds) && Kept(st, o.store))
    decreases slots
  {
    hide Exec, Run, OfKind, EmitAgents, FirstKind, LastKind;
    if slots == [] {
      RunNothing(s, st);
      NoKinds(s);
    } else {
      var (x, rest) := (slots[0], slots[1..]);
      var kinds := KindsOf(rest);
      assert IsSlot(x);
      KindsOfOne(s, x.kind, kinds);
      KindsAgree(s, kinds);
      var mid := AgentsRun(s, st, x.kind, x.flag, x.check, allow, EmitSlots(rest));
      if allow || !OfKind(s, x.kind) {
        SlotsRun(s, mid, rest, allow);
      }
    }
  }

  function BotSlots(cfg: Config, bot: BotFilter): seq<Slot> {
    [
      Slot(AgentKind(bot.blockBadBots, cfg.badBotsList, "bad_bot"), BlockBadBot, BadBotCheck),
      Slot(AgentKind(bot.blockAIBots, cfg.aiBotsList, "ai_bot"), BlockAIBot, AIBotCheck),
      Slot(AgentKind(bot.blockSuspiciousClients, cfg.suspiciousClientsList, "suspicious"), BlockSuspicious,
           SuspiciousCheck),
      Slot(AgentKind(true, bot.customBlockedAgents, "custom"), BlockCustom, CustomCheck)
    ]
  }

  lemma BotSlotsEmitted(parse: ParseCidr, cfg: Config, bot: BotFilter)
    requires cfg.botFilter == Some(bot) && bot.enabled
    ensures EmitBotFilter(parse, cfg) == EmitPriority(parse, cfg, bot) + EmitSlots(BotSlots(cfg, bot))
    ensures KindsOf(BotSlots(cfg, bot)) == AgentKinds(cfg, bot)
    ensures forall x <- BotSlots(cfg, bot) :: IsSlot(x)
  {
    hide EmitAgents, EmitPriority, EmitSlots, KindsOf;
    var slots := BotSlots(cfg, bot);
    FourSlots(slots);
  }

  lemma FourSlots(slots: seq<Slot>)
    requires |slots| == 4
    ensures EmitSlots(slots)
            == EmitSlot(slots[0]) + (EmitSlot(slots[1]) + (EmitSlot(slots[2]) + EmitSlot(slots[3])))
    ensures KindsOf(slots) == [slots[0].kind, slots[1].kind, slots[2].kind, slots[3].kind]
  {
    hide EmitSlot, EmitSlots, KindsOf;
    var (x1, x2, x3, x4) := (slots[0], slots[1], slots[2], slots[3]);
    SlotsCons(x4, []);
    SlotsCons(x3, [x4] + []);
    SlotsCons(x2, [x3] + ([x4] + []));
    SlotsCons(x1, [x2] + ([x3] + ([x4] + [])));
    NoSlots();
    assert slots == [x1] + ([x2] + ([x3] + ([x4] + [])));
    assert EmitSlot(x4) + [] == EmitSlot(x4);
  }

  function EmitSlot(x: Slot): Program {
    EmitAgents(x.kind.used, x.kind.list, x.flag, x.check, x.kind.category)
  }

  lemma SlotsCons(x: Slot, rest: seq<Slot>)
    ensures EmitSlots([x] + rest)
            == EmitSlot(x) + EmitSlots(rest)
    ensures KindsOf([x] + rest) == [x.kind] + KindsOf(rest)
  {
    hide EmitAgents;
    assert ([x] + rest)[1..] == rest;
  }

  lemma NoSlots()
    ensures EmitSlots([]) == [] && KindsOf([]) == []
  {}

  lemma BotFilterRuns(s: Situation, st: Store, reason: string, bot: BotFilter)
    requires Clear(s, st, reason) && s.cfg.botFilter == Some(bot) && bot.enabled
    ensures var o := Run(s, EmitBotFilter(s.parse, s.cfg), st);
            match BotVerdict(s)
            case Block(code, log) => o.Returned? && o.code == code && LogOf(o.store) == log
            case Pass => o.Continue? && BotPassed(s, o.store, bot, reason)
  {
    hide Exec, Run, SearchBot, Exempt, Challenged, BotPriority, OfKind, EmitAgents, EmitPriority, FirstKind, LastKind;
    var slots := BotSlots(s.cfg, bot);
    BotSlotsEmitted(s.parse, s.cfg, bot);
    var a := PriorityRuns(s, st, bot, EmitSlots(slots));
    SlotsRun(s, a, slots, BotPriority(s, bot));
  }

  lemma NoKinds(s: Situation)
    ensures FirstKind(s, []) == None && LastKind(s, []) == None
  {}

  lemma {:induction false} KindsAgree(s: Situation, kinds: seq<AgentKind>)
    ensures FirstKind(s, kinds).Some? <==> LastKind(s, kinds).Some?
  {
    hide OfKind;
    if kinds != [] { KindsAgree(s, kinds[1..]); }
  }

  // ---- filter subscriptions ----

  predicate FilterPriority(s: Situation) {
    if BotFilterOn(s) then BotPriority(s, s.cfg.botFilter.value) else Exempt(s)
  }

  function FilterAllow(s: Situation): Local {
    if BotFilterOn(s) then PriorityAllow else SkipSecurity
  }

  lemma FilterAgentsRun(s: Situation, st: Store)
    requires Get(st, FilterAllow(s)) == Bit(FilterPriority(s))
    ensures var o, v := Run(s, EmitFilterAgents(s.cfg), st), FilterAgentVerdict(s);
            && (v.Block? ==> o.Returned? && o.code == v.code
                             && LogOf(o.store) == LogOf(st).(reason := "filter_subscription"))
            && (v.Pass? ==> o.Continue? && Frame(st, o.store, {FilterUaCheck}))
  {
    hide Exec, Run, Exempt, BotPriority, Concat, ReturnWhen, Expand, Updated;
    if s.cfg.useFilterSubscription {
      var x, parts := FilterUaCheck, [Value(Own(FilterAllow(s))), Value(Of(FilterSubUaBlocked))];
      var sets := [To(BlockReason, "filter_subscription")];
      var p2 := ReturnWhen(Equals(Own(x), "01"), sets, 403);
      assert EmitFilterAgents(s.cfg) == Concat(x, parts) + p2;
      var a := ThenParts(s, st, x, parts, p2);
      ExpandTwo(s.req, st, Own(FilterAllow(s)), Of(FilterSubUaBlocked));
      DecodeFlagFirst(FilterPriority(s), s.req(FilterSubUaBlocked));
      EndReturn(s, a, x, "01", sets, 403);
      UpdatedShort(a, sets);
    } else {
      RunNothing(s, st);
    }
  }
}
