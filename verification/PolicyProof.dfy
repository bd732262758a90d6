/** The compiled program does what the settings mean. */
module PolicyProof {
  import opened AgentProof
  import opened ExploitProof
  import opened GeoProof
  import opened Policy
  import opened PolicyDecision
  import opened PolicySteps
  import opened Rewrite

  // ---- the whole program ----

  /** What the compiled program does to a request, against what the settings decide for it. */
  predicate Faithful(s: Situation, o: Outcome) {
    match Decide(s)
    case Block(code, log) => o.Returned? && o.code == code && LogOf(o.store) == log
    case Pass =>
      && o.Continue?
      && LogOf(o.store) == PassedLog(s)
      && Get(o.store, GeoBlocked) == Bit(Challenged(s))
      && Get(o.store, IsSearchBot) == Bit(SearchBot(s))
  }

  /** The last two stages together. */
  lemma AgentStagesRun(s: Situation, st: Store)
    requires Clear(s, st, AccessReason(s))
    ensures var o := Run(s, EmitBotFilter(s.parse, s.cfg) + EmitFilterAgents(s.cfg), st);
            match First([BotVerdict(s), FilterAgentVerdict(s)])
            case Block(code, log) => o.Returned? && o.code == code && LogOf(o.store) == log
            case Pass =>
              && o.Continue?
              && LogOf(o.store) == PassedLog(s)
              && Get(o.store, GeoBlocked) == Bit(Challenged(s))
              && Get(o.store, IsSearchBot) == Bit(SearchBot(s))
  {
    hide Exec, Run, SearchBot, Exempt, Challenged, BotPriority, OfKind, FirstKind, LastKind, AgentKinds, AccessReason;
    hide EmitBotFilter, EmitFilterAgents, First;
    var p, q := EmitBotFilter(s.parse, s.cfg), EmitFilterAgents(s.cfg);
    FirstCons(BotVerdict(s), [FilterAgentVerdict(s)]);
    FirstCons(FilterAgentVerdict(s), []);
    FirstNone();
    assert [FilterAgentVerdict(s)] + [] == [FilterAgentVerdict(s)];
    assert [BotVerdict(s)] + [FilterAgentVerdict(s)] == [BotVerdict(s), FilterAgentVerdict(s)];
    RunFirst(s, p, q, st);
    if BotFilterOn(s) {
      var bot := s.cfg.botFilter.value;
      BotFilterRuns(s, st, AccessReason(s), bot);
      KindsAgree(s, AgentKinds(s.cfg, bot));
    } else {
      NoBotFilter(s, st);
    }
    var o := Run(s, p, st);
    if o.Continue? {
      FilterAgentsRun(s, o.store);
    }
  }

  lemma FirstNone()
    ensures First([]) == Pass
  {}

  lemma NoBotFilter(s: Situation, st: Store)
    requires !BotFilterOn(s)
    ensures Run(s, EmitBotFilter(s.parse, s.cfg), st) == Continue(st)
  {}

  /**
   For every configuration and every request the compiled program reaches exactly the verdict of the
   cascade: it returns with the code, reason, rule and category of the first stage that blocks, or
   lets the request through with the challenge flag up exactly when the request is to be challenged.
   */
  lemma PolicyCorrect(s: Situation)
    ensures Faithful(s, Run(s, Emit(s.parse, s.cfg), map[]))
  {
    hide Exec, Run, Clear, Ready, SearchBot, Exempt, Challenged, GeoBlocks, GeoReason, AccessReason, PassedLog;
    hide EmitInit, EmitSearchBot, EmitSkip, EmitGeoDirect, EmitGeoChallenge, EmitAccessList;
    hide EmitExploits, EmitBanned, EmitCloud, EmitBotFilter, EmitFilterAgents;
    hide ExploitVerdict, BannedVerdict, CloudVerdict, BotVerdict, FilterAgentVerdict, First, DirectMode, ChallengeOn;
    var reason := AccessReason(s);
    var p11 := EmitBotFilter(s.parse, s.cfg) + EmitFilterAgents(s.cfg);
    var p9 := EmitCloud(s.parse, s.cfg) + p11;
    var p8 := EmitBanned(s.cfg) + p9;
    var p7 := EmitExploits(s.cfg) + p8;
    var p6 := EmitAccessList(s.cfg) + p7;
    var p5 := EmitGeoChallenge(s.parse, s.cfg) + p6;
    var p4 := EmitGeoDirect(s.parse, s.cfg) + p5;
    var st := PreludeRuns(s, p4);
    GeoDirectRuns(s, st);
    RunFirst(s, EmitGeoDirect(s.parse, s.cfg), p5, st);
    DecideUnfolds(s);
    if GeoVerdict(s).Pass? {
      var a := Run(s, EmitGeoDirect(s.parse, s.cfg), st).store;
      GeoModes(s, a);
      var b := GeoChallengeRuns(s, a);
      RunFirst(s, EmitGeoChallenge(s.parse, s.cfg), p6, a);
      AccessListRuns(s, b);
      RunFirst(s, EmitAccessList(s.cfg), p7, b);
      var c := Run(s, EmitAccessList(s.cfg), b).store;
      ExploitsRun(s, c, reason);
      RunFirst(s, EmitExploits(s.cfg), p8, c);
      if ExploitVerdict(s).Pass? {
        var d := Run(s, EmitExploits(s.cfg), c).store;
        BannedRuns(s, d, reason);
        RunFirst(s, EmitBanned(s.cfg), p9, d);
        if BannedVerdict(s).Pass? {
          var f := Run(s, EmitBanned(s.cfg), d).store;
          CloudRuns(s, f, reason);
          RunFirst(s, EmitCloud(s.parse, s.cfg), p11, f);
          if CloudVerdict(s).Pass? {
            AgentStagesRun(s, Run(s, EmitCloud(s.parse, s.cfg), f).store);
          }
        }
      }
    }
  }

  lemma DecideUnfolds(s: Situation)
    ensures Decide(s)
            == if GeoVerdict(s).Block? then GeoVerdict(s)
               else if ExploitVerdict(s).Block? then ExploitVerdict(s)
               else if BannedVerdict(s).Block? then BannedVerdict(s)
               else if CloudVerdict(s).Block? then CloudVerdict(s)
               else First([BotVerdict(s), FilterAgentVerdict(s)])
  {
    hide GeoVerdict, ExploitVerdict, BannedVerdict, CloudVerdict, BotVerdict, FilterAgentVerdict, First;
    var tail := [BotVerdict(s), FilterAgentVerdict(s)];
    FirstCons(CloudVerdict(s), tail);
    FirstCons(BannedVerdict(s), [CloudVerdict(s)] + tail);
    FirstCons(ExploitVerdict(s), [BannedVerdict(s)] + ([CloudVerdict(s)] + tail));
    FirstCons(GeoVerdict(s), [ExploitVerdict(s)] + ([BannedVerdict(s)] + ([CloudVerdict(s)] + tail)));
    assert [GeoVerdict(s), ExploitVerdict(s), BannedVerdict(s), CloudVerdict(s), BotVerdict(s), FilterAgentVerdict(s)]
        == [GeoVerdict(s)] + ([ExploitVerdict(s)] + ([BannedVerdict(s)] + ([CloudVerdict(s)] + tail)));
  }

  /** The two geo modes exclude each other. */
  lemma GeoModes(s: Situation, st: Store)
    requires GeoOutcome(s, Continue(st), false, if DirectMode(s) then GeoReason(s) else "-")
    ensures Ready(s, st) && Get(st, GeoBlocked) == "0" && (ChallengeOn(s) ==> Fresh(s, st))
    ensures !ChallengeOn(s) ==> LogOf(st) == Log(GeoReason(s), "", "-")
  {
    hide SearchBot, Exempt;
  }
}
