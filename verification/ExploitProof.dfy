/** The exploit stage: rules from the database, or the built-in ones. */
module ExploitProof {
  import opened AnchoredRegex
  import opened Escapers
  import opened Exceptions
  import opened GoStrings
  import opened LineLists
  import opened NginxText
  import opened Options
  import opened Policy
  import opened PolicyDecision
  import opened PolicySteps
  import opened Rewrite

  // ---- exploit rules ----

  lemma RuleTestHolds(s: Situation, st: Store, v: RequestVar, rule: Rule)
    ensures Holds(s.engine, s.req, st, RuleTest(Of(v), rule)) <==> RuleMatches(s, v, rule)
  {
    hide EscapeNginxPattern, NginxValue;
    EscapeNginxPatternKeepsValue(rule.pattern);
  }

  lemma {:induction false} RuleTestsHold(s: Situation, v: RequestVar, rules: seq<Rule>)
    ensures AnyHolds(s.engine, s.req, RuleTests(Of(v), rules)) <==> SomeRuleMatches(s, v, rules)
  {
    hide RuleTest, HoldsOn, RuleMatches, AnyHolds;
    if rules == [] {
      assert !AnyHolds(s.engine, s.req, []) by { NoTestHolds(s); }
    } else {
      RuleTestsHold(s, v, rules[1..]);
      RuleTestHolds(s, map[], v, rules[0]);
      HoldsOnMeans(s, RuleTest(Of(v), rules[0]));
      AnyHoldsCons(s, RuleTest(Of(v), rules[0]), RuleTests(Of(v), rules[1..]));
      assert rules == [rules[0]] + rules[1..];
    }
  }

  lemma NoTestHolds(s: Situation)
    ensures !AnyHolds(s.engine, s.req, [])
  {}

  lemma HoldsOnMeans(s: Situation, t: Test)
    ensures HoldsOn(s.engine, s.req, t) <==> Holds(s.engine, s.req, map[], t)
  {}

  lemma {:induction false} ExceptionTestsHold(s: Situation, entries: seq<string>)
    ensures AnyHolds(s.engine, s.req, ExceptionTests(entries))
            <==> exists x <- entries :: MatchesNoCase(s.engine, x, s.req(RequestUri))
  {
    hide MatchesNoCase, AnyHolds;
    if entries == [] {
      NoTestHolds(s);
    } else {
      ExceptionTestsHold(s, entries[1..]);
      AnyHoldsCons(s, LikeNoCase(URI, entries[0]), ExceptionTests(entries[1..]));
      assert entries == [entries[0]] + entries[1..];
    }
  }

  /** The exceptions clear the flag exactly when the URI is excepted. */
  lemma ThenExceptions(s: Situation, st: Store, flag: Local, q: Program) returns (mid: Store)
    ensures Run(s, EmitExceptions(s.cfg, flag) + q, st) == Run(s, q, mid)
    ensures Get(mid, flag) == Chosen(UriExcepted(s), To(flag, "0"), st) && Frame(st, mid, {flag})
  {
    hide Exec, Run, Merged, MergedEntries, EntriesOf, MatchesNoCase, WhenEach;
    var g, h := s.cfg.globalExceptions, s.cfg.hostExceptions;
    SplitOfMerge(g, h);
    var entries := MergedEntries(g, h);
    ExceptionTestsHold(s, entries);
    if entries != [] {
      mid := ThenEachOne(s, st, ExceptionTests(entries), To(flag, "0"), q, UriExcepted(s));
    } else {
      mid := st;
      assert [] + q == q;
    }
  }

  lemma {:induction false} LastMatchFromFront(s: Situation, v: RequestVar, rules: seq<Rule>)
    requires rules != []
    ensures LastMatch(s, v, rules)
            == var later := LastMatch(s, v, rules[1..]);
               if later.Some? then later else if RuleMatches(s, v, rules[0]) then Some(rules[0]) else None
  {
    hide RuleMatches;
    if |rules| > 1 {
      LastMatchFromFront(s, v, rules[..|rules| - 1]);
      assert rules[1..][..|rules| - 2] == rules[..|rules| - 1][1..];
      assert rules[1..][|rules| - 2] == rules[|rules| - 1];
    } else {
      assert rules[1..] == [] && rules[..0] == [];
    }
  }

  /** The query-string loop leaves the flag up and the last matching rule on record. */
  lemma {:induction false} ThenQueryRules(s: Situation, st: Store, rules: seq<Rule>, q: Program) returns (mid: Store)
    ensures Run(s, EmitQueryRules(rules) + q, st) == Run(s, q, mid)
    ensures var last := LastMatch(s, QueryString, rules);
            && Get(mid, ExploitQsBlock) == (if last.Some? then "1" else Get(st, ExploitQsBlock))
            && Get(mid, ExploitQsRule) == (if last.Some? then last.value.id else Get(st, ExploitQsRule))
    ensures Frame(st, mid, {ExploitQsBlock, ExploitQsRule})
    decreases rules
  {
    hide Exec, Run, RuleTest, RuleMatches, Holds, When;
    if rules == [] {
      mid := st;
      assert EmitQueryRules(rules) + q == q;
    } else {
      var t := RuleTest(QUERY, rules[0]);
      var sets := [To(ExploitQsBlock, "1"), To(ExploitQsRule, rules[0].id)];
      var rest := EmitQueryRules(rules[1..]) + q;
      assert EmitQueryRules(rules) + q == When(t, sets) + rest;
      RuleTestHolds(s, st, QueryString, rules[0]);
      var m := ThenTwo(s, st, true, t, sets[0], sets[1], rest, RuleMatches(s, QueryString, rules[0]));
      mid := ThenQueryRules(s, m, rules[1..], q);
      LastMatchFromFront(s, QueryString, rules);
    }
  }

  function QueryEnd(): Instr {
    If(Equals(Own(ExploitQsBlock), "1"),
       [Assign(BlockReason, "exploit_block"), Set(ExploitRuleId, [Value(Own(ExploitQsRule))]), Return(403)])
  }

  lemma QueryEndRuns(s: Situation, st: Store, q: Program)
    ensures Run(s, [QueryEnd()] + q, st)
            == if Get(st, ExploitQsBlock) == "1"
               then Returned(403, st[BlockReason := "exploit_block"][ExploitRuleId := Get(st, ExploitQsRule)])
               else Run(s, q, st)
  {
    var st1 := st[BlockReason := "exploit_block"];
    ExpandText(s.req, st, "exploit_block");
    ExpandOne(s.req, st1, Own(ExploitQsRule));
    var actions := QueryEnd().actions;
    assert actions[1..][1..] == [Return(403)];
    assert ActAll(s.req, st, actions)
        == Returned(403, st1[ExploitRuleId := Get(st, ExploitQsRule)]);
    ExecOne(s.engine, s.req, QueryEnd(), st);
    ExecThen(s.engine, s.req, [QueryEnd()], q, st);
  }

  lemma QueryStageRuns(s: Situation, st: Store, reason: string, q: Program) returns (mid: Store)
    requires Clear(s, st, reason)
    ensures QueryVerdict(s).Block? ==> Agrees(s, Run(s, EmitQueryStage(s.cfg) + q, st), QueryVerdict(s), reason)
    ensures QueryVerdict(s).Pass? ==> Run(s, EmitQueryStage(s.cfg) + q, st) == Run(s, q, mid) && Clear(s, mid, reason)
  {
    hide Exec, Run, SearchBot, Exempt, Challenged, UriExcepted, EmitQueryRules, EmitExceptions, LastMatch,
         RulesOfType, SetTo;
    var rules := RulesOfType(s.cfg.exploitRules, "query_string");
    var p4 := [QueryEnd()];
    var p3 := EmitExceptions(s.cfg, ExploitQsBlock);
    var p2 := EmitQueryRules(rules);
    if rules == [] {
      assert EmitQueryStage(s.cfg) + q == q;
      NoLastMatch(s, QueryString);
      mid := st;
    } else {
      assert EmitQueryStage(s.cfg) == SetTo(ExploitQsBlock, "0") + (SetTo(ExploitQsRule, "-") + (p2 + (p3 + p4)));
      assert EmitQueryStage(s.cfg) + q
          == SetTo(ExploitQsBlock, "0") + (SetTo(ExploitQsRule, "-") + (p2 + (p3 + (p4 + q))));
      var a := ThenPut(s, st, ExploitQsBlock, "0", SetTo(ExploitQsRule, "-") + (p2 + (p3 + (p4 + q))));
      var b := ThenPut(s, a, ExploitQsRule, "-", p2 + (p3 + (p4 + q)));
      var c := ThenQueryRules(s, b, rules, p3 + (p4 + q));
      mid := ThenExceptions(s, c, ExploitQsBlock, p4 + q);
      QueryEndRuns(s, mid, q);
    }
  }

  lemma NoLastMatch(s: Situation, v: RequestVar)
    ensures LastMatch(s, v, []) == None
  {}

  lemma UriStageRuns(s: Situation, st: Store, reason: string, q: Program) returns (mid: Store)
    requires Clear(s, st, reason)
    ensures UriVerdict(s).Block? ==> Agrees(s, Run(s, EmitUriStage(s.cfg) + q, st), UriVerdict(s), reason)
    ensures UriVerdict(s).Pass? ==> Run(s, EmitUriStage(s.cfg) + q, st) == Run(s, q, mid) && Clear(s, mid, reason)
  {
    hide Exec, Run, SearchBot, Exempt, Challenged, UriExcepted, EmitExceptions, RulesOfType, SetTo, ReturnWhen,
         WhenEach, RuleTests;
    var rules := RulesOfType(s.cfg.exploitRules, "request_uri");
    if rules == [] {
      assert EmitUriStage(s.cfg) + q == q;
      mid := st;
    } else {
      var sets := [To(BlockReason, "exploit_block")];
      var p4 := ReturnWhen(Equals(Own(RfiBlock), "1"), sets, 403);
      var p3 := EmitExceptions(s.cfg, RfiBlock);
      var p2 := WhenEach(RuleTests(URI, rules), [To(RfiBlock, "1")]);
      assert EmitUriStage(s.cfg) + q == SetTo(RfiBlock, "0") + (p2 + (p3 + (p4 + q)));
      var a := ThenPut(s, st, RfiBlock, "0", p2 + (p3 + (p4 + q)));
      RuleTestsHold(s, RequestUri, rules);
      var b := ThenEachOne(s, a, RuleTests(URI, rules), To(RfiBlock, "1"), p3 + (p4 + q), SomeRuleMatches(s,
              RequestUri, rules));
      mid := ThenExceptions(s, b, RfiBlock, p4 + q);
      ThenReturn(s, mid, Equals(Own(RfiBlock), "1"), sets, 403, q, Get(mid, RfiBlock) == "1");
      UpdatedShort(mid, sets);
    }
  }

  lemma {:induction false} AgentRulesRun(s: Situation, st: Store, rules: seq<Rule>, q: Program)
    ensures var first := FirstMatch(s, UserAgent, rules);
            Run(s, EmitAgentRules(rules) + q, st)
            == if first.Some? then Returned(403, Updated(st, ScannerLog(first.value.id))) else Run(s, q, st)
  {
    hide Exec, Run, RuleTest, RuleMatches, Holds, ReturnWhen, Updated, ScannerLog;
    if rules == [] {
      assert EmitAgentRules(rules) + q == q;
    } else {
      var t, sets := RuleTest(AGENT, rules[0]), ScannerLog(rules[0].id);
      var rest := EmitAgentRules(rules[1..]) + q;
      assert EmitAgentRules(rules) + q == ReturnWhen(t, sets, 403) + rest;
      RuleTestHolds(s, st, UserAgent, rules[0]);
      ThenReturn(s, st, t, sets, 403, rest, RuleMatches(s, UserAgent, rules[0]));
      AgentRulesRun(s, st, rules[1..], q);
    }
  }

  lemma {:induction false} MethodRulesRun(s: Situation, st: Store, rules: seq<Rule>, q: Program)
    ensures var first := FirstMatch(s, RequestMethod, rules);
            Run(s, EmitMethodRules(rules) + q, st)
            == if first.Some? then Returned(405, Updated(st, ExploitLog(first.value.id))) else Run(s, q, st)
  {
    hide Exec, Run, RuleTest, RuleMatches, Holds, ReturnWhen, Updated, ExploitLog;
    if rules == [] {
      assert EmitMethodRules(rules) + q == q;
    } else {
      var t, sets := RuleTest(METHOD, rules[0]), ExploitLog(rules[0].id);
      var rest := EmitMethodRules(rules[1..]) + q;
      assert EmitMethodRules(rules) + q == ReturnWhen(t, sets, 405) + rest;
      RuleTestHolds(s, st, RequestMethod, rules[0]);
      ThenReturn(s, st, t, sets, 405, rest, RuleMatches(s, RequestMethod, rules[0]));
      MethodRulesRun(s, st, rules[1..], q);
    }
  }

  lemma LogsWrite(st: Store, id: string)
    requires Get(st, BotCategory) == "-"
    ensures LogOf(Updated(st, ScannerLog(id))) == Log("exploit_block", id, "scanner")
    ensures LogOf(Updated(st, ExploitLog(id))) == Log("exploit_block", id, "-")
  {
    UpdatedShort(st, ScannerLog(id));
    UpdatedShort(st, ExploitLog(id));
  }

  lemma RuleStagesRun(s: Situation, st: Store, reason: string)
    requires Clear(s, st, reason) && s.cfg.blockExploits && s.cfg.exploitRules != []
    ensures Agrees(s, Run(s, EmitExploits(s.cfg), st), ExploitVerdict(s), reason)
  {
    hide Exec, Run, QueryVerdict, UriVerdict, FirstMatch, RulesOfType, Clear, ScannerLog, ExploitLog, Updated;
    hide EmitQueryStage, EmitUriStage, EmitAgentRules, EmitMethodRules;
    var agents, methods := RulesOfType(s.cfg.exploitRules, "user_agent"), RulesOfType(s.cfg.exploitRules,
            "request_method");
    var p4 := EmitMethodRules(methods);
    var p3 := EmitAgentRules(agents) + p4;
    var a := QueryStageRuns(s, st, reason, EmitUriStage(s.cfg) + p3);
    FirstOfFour(QueryVerdict(s), UriVerdict(s), AgentVerdict(s), MethodVerdict(s));
    if QueryVerdict(s).Pass? {
      var b := UriStageRuns(s, a, reason, p3);
      if UriVerdict(s).Pass? {
        AgentRulesRun(s, b, agents, p4);
        ClearFacts(s, b, reason);
        if FirstMatch(s, UserAgent, agents).Some? {
          LogsWrite(b, FirstMatch(s, UserAgent, agents).value.id);
        } else {
          MethodRulesRun(s, b, methods, []);
          AtEnd(s, p4, b);
          RunNothing(s, b);
          if FirstMatch(s, RequestMethod, methods).Some? {
            LogsWrite(b, FirstMatch(s, RequestMethod, methods).value.id);
          }
        }
      }
    }
  }

  lemma FirstOfFour(a: Verdict, b: Verdict, c: Verdict, d: Verdict)
    ensures First([a, b, c, d]) == if a.Block? then a else if b.Block? then b else if c.Block? then c else d
  {
    FirstCons(a, [b, c, d]);
    FirstCons(b, [c, d]);
    FirstCons(c, [d]);
    FirstCons(d, []);
  }

  // ---- the built-in rules ----

  lemma FallbackTailRuns(s: Situation, st: Store, reason: string)
    requires Clear(s, st, reason)
    ensures Agrees(s, Run(s, EmitFallbackTail(), st), First(FallbackVerdicts(s)[3..]), reason)
  {
    hide Exec, Run, Clear, ReturnWhen, Holds, Updated, ScannerLog, ExploitLog, First, MatchesNoCase, Matches;
    var p3 := ReturnWhen(NotLike(METHOD, KNOWN_METHODS), ExploitLog("METHOD-FALLBACK-001"), 405);
    var p2 := ReturnWhen(LikeNoCase(AGENT, SCANNERS), ScannerLog("SCAN-FALLBACK-001"), 403) + p3;
    ClearFacts(s, st, reason);
    NoCaseHolds(s, st, QueryString, PATH_TRAVERSAL);
    NoCaseHolds(s, st, UserAgent, SCANNERS);
    KnownMethodsHold(s, st);
    ThenReturn(s, st, LikeNoCase(QUERY, PATH_TRAVERSAL), ExploitLog("LFI-FALLBACK-001"), 403, p2,
               MatchesNoCase(s.engine, PATH_TRAVERSAL, s.req(QueryString)));
    ThenReturn(s, st, LikeNoCase(AGENT, SCANNERS), ScannerLog("SCAN-FALLBACK-001"), 403, p3,
               MatchesNoCase(s.engine, SCANNERS, s.req(UserAgent)));
    ThenReturn(s, st, NotLike(METHOD, KNOWN_METHODS), ExploitLog("METHOD-FALLBACK-001"), 405, [],
               s.req(RequestMethod) !in METHODS);
    AtEnd(s, p3, st);
    RunNothing(s, st);
    LogsWrite(st, "LFI-FALLBACK-001");
    LogsWrite(st, "SCAN-FALLBACK-001");
    LogsWrite(st, "METHOD-FALLBACK-001");
    var vs := FallbackVerdicts(s)[3..];
    FirstOfThree(vs[0], vs[1], vs[2]);
    assert vs == [vs[0], vs[1], vs[2]];
  }

  lemma FallbackIncludeRuns(s: Situation, st: Store, reason: string, q: Program) returns (mid: Store)
    requires Clear(s, st, reason)
    ensures var v, o := FallbackVerdicts(s)[2], Run(s, EmitFallbackInclude(s.cfg) + q, st);
            && (v.Block? ==> Agrees(s, o, v, reason))
            && (v.Pass? ==> o == Run(s, q, mid) && Clear(s, mid, reason))
  {
    hide Exec, Run, SearchBot, Exempt, Challenged, UriExcepted, EmitExceptions, ReturnWhen, SetTo, When, Holds, Updated;
    hide ExploitLog, MatchesNoCase;
    var (t, remote) := (LikeNoCase(QUERY, REMOTE_INCLUDE), MatchesNoCase(s.engine, REMOTE_INCLUDE, s.req(QueryString)));
    var p4 := ReturnWhen(Equals(Own(RfiBlock), "1"), ExploitLog("RFI-FALLBACK-001"), 403);
    var p3 := EmitExceptions(s.cfg, RfiBlock);
    var p2 := When(t, [To(RfiBlock, "1")]);
    assert EmitFallbackInclude(s.cfg) + q == SetTo(RfiBlock, "0") + (p2 + (p3 + (p4 + q)));
    var a := ThenPut(s, st, RfiBlock, "0", p2 + (p3 + (p4 + q)));
    NoCaseHolds(s, a, QueryString, REMOTE_INCLUDE);
    var b := ThenOne(s, a, true, t, To(RfiBlock, "1"), p3 + (p4 + q), remote);
    mid := ThenExceptions(s, b, RfiBlock, p4 + q);
    EqualsHolds(s, mid, RfiBlock, "1");
    ThenReturn(s, mid, Equals(Own(RfiBlock), "1"), ExploitLog("RFI-FALLBACK-001"), 403, q, remote && !UriExcepted(s));
    LogsWrite(mid, "RFI-FALLBACK-001");
  }

  /** One built-in rule on the query string. */
  lemma FallbackRuleRuns(s: Situation, st: Store, reason: string, pattern: string, id: string, q: Program)
    requires Clear(s, st, reason)
    ensures var o := Run(s, ReturnWhen(LikeNoCase(QUERY, pattern), ExploitLog(id), 403) + q, st);
            if MatchesNoCase(s.engine, pattern, s.req(QueryString))
            then Agrees(s, o, Block(403, Log("exploit_block", id, "-")), reason)
            else o == Run(s, q, st)
  {
    hide Exec, Run, Clear, ReturnWhen, Holds, Updated, ExploitLog, MatchesNoCase;
    ClearFacts(s, st, reason);
    NoCaseHolds(s, st, QueryString, pattern);
    ThenReturn(s, st, LikeNoCase(QUERY, pattern), ExploitLog(id), 403, q, MatchesNoCase(s.engine, pattern,
            s.req(QueryString)));
    LogsWrite(st, id);
  }

  lemma FallbackCases(s: Situation)
    ensures |FallbackVerdicts(s)| == 6
    ensures var (query, vs) := (s.req(QueryString), FallbackVerdicts(s));
            First(vs) ==
            if MatchesNoCase(s.engine, SQL_SELECT, query)
            then Block(403, Log("exploit_block", "SQLI-FALLBACK-001", "-"))
            else if MatchesNoCase(s.engine, SQL_CHARS, query)
            then Block(403, Log("exploit_block", "SQLI-FALLBACK-002", "-"))
            else if vs[2].Block? then vs[2] else First(vs[3..])
  {
    hide First, MatchesNoCase;
    var vs := FallbackVerdicts(s);
    FirstCons(vs[0], vs[1..]);
    FirstCons(vs[1], vs[2..]);
    FirstCons(vs[2], vs[3..]);
    assert vs == [vs[0]] + vs[1..] && vs[1..] == [vs[1]] + vs[2..] && vs[2..] == [vs[2]] + vs[3..];
  }

  lemma FallbackRuns(s: Situation, st: Store, reason: string)
    requires Clear(s, st, reason) && s.cfg.blockExploits && s.cfg.exploitRules == []
    ensures Agrees(s, Run(s, EmitExploits(s.cfg), st), ExploitVerdict(s), reason)
  {
    hide Exec, Run, Clear, ReturnWhen, ExploitLog, First, FallbackVerdicts, MatchesNoCase, EmitFallbackInclude,
         EmitFallbackTail;
    var p3 := EmitFallbackInclude(s.cfg) + EmitFallbackTail();
    var p2 := ReturnWhen(LikeNoCase(QUERY, SQL_CHARS), ExploitLog("SQLI-FALLBACK-002"), 403) + p3;
    FallbackRuleRuns(s, st, reason, SQL_SELECT, "SQLI-FALLBACK-001", p2);
    FallbackRuleRuns(s, st, reason, SQL_CHARS, "SQLI-FALLBACK-002", p3);
    var mid := FallbackIncludeRuns(s, st, reason, EmitFallbackTail());
    FallbackCases(s);
    if FallbackVerdicts(s)[2].Pass? {
      FallbackTailRuns(s, mid, reason);
    }
  }

  lemma FirstOfThree(a: Verdict, b: Verdict, c: Verdict)
    ensures First([a, b, c]) == if a.Block? then a else if b.Block? then b else c
  {
    FirstCons(a, [b, c]);
    FirstCons(b, [c]);
    FirstCons(c, []);
  }

  /** The anchored method test is a membership test. */
  lemma KnownMethodsHold(s: Situation, st: Store)
    ensures Holds(s.engine, s.req, st, NotLike(METHOD, KNOWN_METHODS)) <==> s.req(RequestMethod) !in METHODS
  {
    MethodsJoin();
    PlainMethods();
    MatchesOneOf(s.engine.exact, METHODS, s.req(RequestMethod));
  }

  lemma PlainMethods()
    ensures forall m <- METHODS :: AllPlain(m)
  {}

  lemma MethodsJoin()
    ensures KNOWN_METHODS == "^(" + Join(METHODS, "|") + ")$"
  {
  }

  /** The exploit stage, with rules from the database or built in, agrees with its verdict. */
  lemma ExploitsRun(s: Situation, st: Store, reason: string)
    requires Clear(s, st, reason)
    ensures Agrees(s, Run(s, EmitExploits(s.cfg), st), ExploitVerdict(s), reason)
  {
    hide Exec, Clear, ExploitVerdict, EmitExploits;
    if !s.cfg.blockExploits {
      NoExploits(s, st);
    } else if s.cfg.exploitRules != [] {
      RuleStagesRun(s, st, reason);
    } else {
      FallbackRuns(s, st, reason);
    }
  }

  lemma NoExploits(s: Situation, st: Store)
    requires !s.cfg.blockExploits
    ensures Run(s, EmitExploits(s.cfg), st) == Continue(st) && ExploitVerdict(s) == Pass
  {}
}
