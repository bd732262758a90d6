/** The geo stages: three programs that block directly, and one that marks requests for the challenge. */
module GeoProof {
  import opened AnchoredRegex
  import opened Policy
  import opened PolicyDecision
  import opened PolicySteps
  import opened Rewrite

  // ---- geo restriction, direct block ----

  lemma CountryTestHolds(s: Situation, st: Store, geo: Geo)
    ensures Holds(s.engine, s.req, st, CountryTest(geo)) <==> CountryMarked(s, geo)
  {
    hide Matches, CountryPattern;
  }

  lemma PrivateTestHolds(s: Situation, geo: Geo)
    ensures AnyHolds(s.engine, s.req, PrivateTest(geo)) <==> PrivatePardon(s, geo)
  {
    if geo.mode != "whitelist" && geo.allowPrivateIPs {
      var t := Equals(COUNTRY, "--");
      assert PrivateTest(geo) == [t] + [];
      AnyHoldsCons(s, t, []);
    }
  }

  /** The country step when the pardon only takes the mark back. */
  lemma ThenCountry(s: Situation, st: Store, geo: Geo, x: Local, q: Program) returns (mid: Store)
    requires x != BlockReason && Get(st, x) == ""
    ensures Run(s, EmitCountry(geo, x, [To(x, "")]) + q, st) == Run(s, q, mid)
    ensures Get(mid, x) == if CountryBlocked(s, geo) then "Y" else ""
    ensures Get(mid, BlockReason) == if CountryMarked(s, geo) then "geo_block" else Get(st, BlockReason)
    ensures Frame(st, mid, {x, BlockReason})
  {
    hide Exec, Run, CountryTest, CountryMarked, PrivateTest, PrivatePardon;
    var mark := When(CountryTest(geo), [To(x, "Y"), To(BlockReason, "geo_block")]);
    var pardon := WhenEach(PrivateTest(geo), [To(x, "")]);
    assert EmitCountry(geo, x, [To(x, "")]) + q == mark + (pardon + q);
    CountryTestHolds(s, st, geo);
    var m := ThenTwo(s, st, true, CountryTest(geo), To(x, "Y"), To(BlockReason, "geo_block"), pardon + q,
                     CountryMarked(s, geo));
    PrivateTestIsOnRequest(geo);
    PrivateTestHolds(s, geo);
    mid := ThenEachOne(s, m, PrivateTest(geo), To(x, ""), q, PrivatePardon(s, geo));
  }

  /** The country step when the pardon takes the reason back too. */
  lemma ThenCountryClean(s: Situation, st: Store, geo: Geo, x: Local, q: Program) returns (mid: Store)
    requires x != BlockReason && Get(st, x) == ""
    ensures Run(s, EmitCountry(geo, x, [To(x, ""), To(BlockReason, "-")]) + q, st) == Run(s, q, mid)
    ensures Get(mid, x) == if CountryBlocked(s, geo) then "Y" else ""
    ensures Get(mid, BlockReason) == if PrivatePardon(s, geo) then "-"
                                     else if CountryMarked(s, geo) then "geo_block" else Get(st, BlockReason)
    ensures Frame(st, mid, {x, BlockReason})
  {
    hide Exec, Run, CountryTest, CountryMarked, PrivateTest, PrivatePardon;
    var mark := When(CountryTest(geo), [To(x, "Y"), To(BlockReason, "geo_block")]);
    var pardon := WhenEach(PrivateTest(geo), [To(x, ""), To(BlockReason, "-")]);
    assert EmitCountry(geo, x, [To(x, ""), To(BlockReason, "-")]) + q == mark + (pardon + q);
    CountryTestHolds(s, st, geo);
    var m := ThenTwo(s, st, true, CountryTest(geo), To(x, "Y"), To(BlockReason, "geo_block"), pardon + q,
                     CountryMarked(s, geo));
    PrivateTestIsOnRequest(geo);
    PrivateTestHolds(s, geo);
    mid := ThenEachTwo(s, m, PrivateTest(geo), To(x, ""), To(BlockReason, "-"), q, PrivatePardon(s, geo));
  }

  lemma PrivateTestIsOnRequest(geo: Geo)
    ensures forall t <- PrivateTest(geo) :: OnRequest(t)
  {}

  /** Where the geo stage leaves a request: blocked, or passed on with its log. */
  predicate GeoOutcome(s: Situation, o: Outcome, blocked: bool, reason: string) {
    if blocked then o.Returned? && o.code == 403 && LogOf(o.store) == Log("geo_block", "", "-")
    else o.Continue? && Ready(s, o.store) && Get(o.store, GeoBlocked) == "0" && LogOf(o.store) == Log(reason, "", "-")
  }

  /** The two flags of the program for allowed addresses. */
  lemma GeoFlags(s: Situation, st: Store, geo: Geo, q: Program) returns (mid: Store)
    requires Fresh(s, st)
    ensures Run(s, SetTo(GeoAllowedIp, "0") + (WhenEach(AddressTests(s.parse, geo.allowedIPs), [To(GeoAllowedIp, "1")])
                + (SetTo(GeoBlockCheck, "") + (EmitCountry(geo, GeoBlockCheck, [To(GeoBlockCheck, "")]) + q))), st)
            == Run(s, q, mid)
    ensures Get(mid, GeoAllowedIp) == Bit(AddressAllowed(s, geo.allowedIPs))
    ensures Get(mid, GeoBlockCheck) == if CountryBlocked(s, geo) then "Y" else ""
    ensures Get(mid, BlockReason) == if CountryMarked(s, geo) then "geo_block" else "-"
    ensures Frame(st, mid, {GeoAllowedIp, GeoBlockCheck, BlockReason})
  {
    hide Exec, Run, CountryTest, CountryBlocked, CountryMarked, PrivateTest, SearchBot, Exempt, AddressAllowed,
         EmitCountry;
    hide Expand, When, WhenEach, SetTo, Updated, Holds, AnyHolds, AddressTests;
    var tests := AddressTests(s.parse, geo.allowedIPs);
    var p4 := EmitCountry(geo, GeoBlockCheck, [To(GeoBlockCheck, "")]) + q;
    var p3 := SetTo(GeoBlockCheck, "") + p4;
    var a := ThenPut(s, st, GeoAllowedIp, "0", WhenEach(tests, [To(GeoAllowedIp, "1")]) + p3);
    AddressTestsHold(s, geo.allowedIPs);
    var b := ThenEachOne(s, a, tests, To(GeoAllowedIp, "1"), p3, AddressAllowed(s, geo.allowedIPs));
    var c := ThenPut(s, b, GeoBlockCheck, "", p4);
    mid := ThenCountry(s, c, geo, GeoBlockCheck, q);
  }

  /** The test for "0Y0". */
  lemma GeoVerdictStep(s: Situation, st: Store, allowed: bool, letter: bool) returns (mid: Store)
    requires Ready(s, st)
    requires Get(st, GeoAllowedIp) == Bit(allowed) && Get(st, GeoBlockCheck) == if letter then "Y" else ""
    ensures Run(s, Concat(GeoFinalBlock, GEO_PARTS) + ReturnWhen(Equals(Own(GeoFinalBlock), "0Y0"), [], 403), st)
            == if !allowed && letter && !Exempt(s) then Returned(403, mid) else Continue(mid)
    ensures Frame(st, mid, {GeoFinalBlock})
  {
    hide Exec, Run, Expand, Concat, ReturnWhen, Updated, SearchBot, Exempt;
    var p7 := ReturnWhen(Equals(Own(GeoFinalBlock), "0Y0"), [], 403);
    mid := ThenParts(s, st, GeoFinalBlock, GEO_PARTS, p7);
    ExpandThree(s.req, st, Own(GeoAllowedIp), Own(GeoBlockCheck), Own(SkipSecurity));
    DecodeFlagLetterFlag(allowed, letter, Exempt(s));
    EndReturn(s, mid, GeoFinalBlock, "0Y0", [], 403);
    UpdatedShort(mid, []);
  }

  const GEO_PARTS := [Value(Own(GeoAllowedIp)), Value(Own(GeoBlockCheck)), Value(Own(SkipSecurity))]

  const BOT_PARDON := [To(GeoBlockCheck, ""), To(BlockReason, "-")]

  function AllowedVerdict(): Program {
    Concat(GeoFinalBlock, GEO_PARTS) + ReturnWhen(Equals(Own(GeoFinalBlock), "0Y0"), [], 403)
  }

  function AllowedTail(geo: Geo): Program {
    (if geo.allowSearchBots then When(SEARCH_BOT, BOT_PARDON) else []) + AllowedVerdict()
  }

  lemma AllowedEmitted(parse: ParseCidr, geo: Geo)
    ensures EmitGeoWithAllowedIPs(parse, geo)
            == SetTo(GeoAllowedIp, "0") + (WhenEach(AddressTests(parse, geo.allowedIPs), [To(GeoAllowedIp, "1")])
               + (SetTo(GeoBlockCheck, "") + (EmitCountry(geo, GeoBlockCheck, [To(GeoBlockCheck, "")])
               + AllowedTail(geo))))
    ensures AllowedTail(geo)
            == (if geo.allowSearchBots then When(SEARCH_BOT, [BOT_PARDON[0], BOT_PARDON[1]]) else []) + AllowedVerdict()
  {
    hide SetTo, WhenEach, EmitCountry, When, Concat, ReturnWhen, AddressTests;
    assert BOT_PARDON == [BOT_PARDON[0], BOT_PARDON[1]];
  }

  /** The program for allowed addresses up to its verdict. */
  lemma GeoAllowedRuns(s: Situation, st: Store, geo: Geo) returns (mid: Store)
    requires Fresh(s, st)
    ensures var bot := BotPardon(s, geo);
            && Run(s, EmitGeoWithAllowedIPs(s.parse, geo), st)
               == (if !AddressAllowed(s, geo.allowedIPs) && CountryBlocked(s, geo) && !bot && !Exempt(s)
                   then Returned(403, mid) else Continue(mid))
            && Get(mid, BlockReason) == if CountryMarked(s, geo) && !bot then "geo_block" else "-"
    ensures Frame(st, mid, {GeoAllowedIp, GeoBlockCheck, GeoFinalBlock, BlockReason})
  {
    hide Exec, Run, CountryBlocked, CountryMarked, SearchBot, Exempt, AddressAllowed, EmitCountry;
    hide When, WhenEach, SetTo, Concat, ReturnWhen, Holds, AddressTests, PrivatePardon, Updated, Expand;
    hide EmitGeoWithAllowedIPs, AllowedTail;
    var p5, p6 := AllowedTail(geo), AllowedVerdict();
    AllowedEmitted(s.parse, geo);
    var d := GeoFlags(s, st, geo, p5);
    SearchBotHolds(s, d);
    var f := ThenTwo(s, d, geo.allowSearchBots, SEARCH_BOT, BOT_PARDON[0], BOT_PARDON[1], p6, SearchBot(s));
    mid := GeoVerdictStep(s, f, AddressAllowed(s, geo.allowedIPs), CountryBlocked(s, geo) && !BotPardon(s, geo));
  }

  lemma GeoWithAllowedIPs(s: Situation, st: Store, geo: Geo)
    requires Fresh(s, st)
    ensures var o, bot := Run(s, EmitGeoWithAllowedIPs(s.parse, geo), st), BotPardon(s, geo);
            GeoOutcome(s, o, CountryBlocked(s, geo) && !bot && !AddressAllowed(s, geo.allowedIPs) && !Exempt(s),
                       if CountryMarked(s, geo) && !bot then "geo_block" else "-")
  {
    hide Exec, Run, CountryMarked, PrivatePardon, SearchBot, Exempt, AddressAllowed, EmitGeoWithAllowedIPs;
    var mid := GeoAllowedRuns(s, st, geo);
  }

  lemma GeoWithSearchBots(s: Situation, st: Store, geo: Geo)
    requires Fresh(s, st)
    ensures GeoOutcome(s, Run(s, EmitGeoWithSearchBots(geo), st),
                       CountryBlocked(s, geo) && !SearchBot(s) && !Exempt(s),
                       if CountryMarked(s, geo) && !SearchBot(s) then "geo_block" else "-")
  {
    hide Exec, Run, CountryTest, PrivatePardon, CountryMarked, PrivateTest, SearchBot, Exempt, EmitCountry;
    hide Expand, When, SetTo, Concat, ReturnWhen, Updated, Holds;
    var p5 := ReturnWhen(Equals(Own(GeoBlockFinal), "Y0"), [], 403);
    var p4 := Concat(GeoBlockFinal, Flags(GeoBlockCheck, SkipSecurity)) + p5;
    var p3 := When(SEARCH_BOT, [To(GeoBlockCheck, ""), To(BlockReason, "-")]) + p4;
    var a := ThenPut(s, st, GeoBlockCheck, "", EmitCountry(geo, GeoBlockCheck, [To(GeoBlockCheck, "")]) + p3);
    var b := ThenCountry(s, a, geo, GeoBlockCheck, p3);
    SearchBotHolds(s, b);
    var c := ThenTwo(s, b, true, SEARCH_BOT, To(GeoBlockCheck, ""), To(BlockReason, "-"), p4, SearchBot(s));
    var d := ThenParts(s, c, GeoBlockFinal, Flags(GeoBlockCheck, SkipSecurity), p5);
    ExpandTwo(s.req, c, Own(GeoBlockCheck), Own(SkipSecurity));
    DecodeLetterFlag(CountryBlocked(s, geo) && !SearchBot(s), Exempt(s));
    EndReturn(s, d, GeoBlockFinal, "Y0", [], 403);
  }

  lemma GeoPlain(s: Situation, st: Store, geo: Geo)
    requires Fresh(s, st)
    ensures GeoOutcome(s, Run(s, EmitGeoPlain(geo), st), CountryBlocked(s, geo) && !Exempt(s),
                       if CountryMarked(s, geo) && !PrivatePardon(s, geo) then "geo_block" else "-")
  {
    hide Exec, Run, CountryTest, PrivatePardon, CountryMarked, PrivateTest, SearchBot, Exempt, EmitCountry;
    hide Expand, When, SetTo, Concat, ReturnWhen, Updated, Holds;
    var p4 := ReturnWhen(Equals(Own(GeoDirectFinal), "Y0"), [], 403);
    var p3 := Concat(GeoDirectFinal, Flags(GeoDirectBlock, SkipSecurity)) + p4;
    var pardon := [To(GeoDirectBlock, ""), To(BlockReason, "-")];
    var a := ThenPut(s, st, GeoDirectBlock, "", EmitCountry(geo, GeoDirectBlock, pardon) + p3);
    var b := ThenCountryClean(s, a, geo, GeoDirectBlock, p3);
    var c := ThenParts(s, b, GeoDirectFinal, Flags(GeoDirectBlock, SkipSecurity), p4);
    ExpandTwo(s.req, b, Own(GeoDirectBlock), Own(SkipSecurity));
    DecodeLetterFlag(CountryBlocked(s, geo), Exempt(s));
    EndReturn(s, c, GeoDirectFinal, "Y0", [], 403);
  }

  predicate DirectMode(s: Situation) {
    s.cfg.geo.Some? && s.cfg.geo.value.enabled && !s.cfg.geo.value.challengeMode
  }

  /** All three geo programs block exactly the requests the settings block. */
  lemma GeoDirectRuns(s: Situation, st: Store)
    requires Fresh(s, st)
    ensures GeoOutcome(s, Run(s, EmitGeoDirect(s.parse, s.cfg), st), GeoBlocks(s),
                       if DirectMode(s) then GeoReason(s) else "-")
  {
    hide Exec, CountryMarked, PrivatePardon, SearchBot, Exempt, AddressIs;
    hide EmitGeoWithAllowedIPs, EmitGeoWithSearchBots, EmitGeoPlain;
    if DirectMode(s) {
      var geo := s.cfg.geo.value;
      if geo.allowedIPs != [] {
        GeoWithAllowedIPs(s, st, geo);
      } else if geo.allowSearchBots {
        GeoWithSearchBots(s, st, geo);
      } else {
        GeoPlain(s, st, geo);
      }
    } else {
      RunNothing(s, st);
    }
  }

  // ---- geo restriction, challenge mode ----

  predicate ChallengeOn(s: Situation) {
    s.cfg.geo.Some? && s.cfg.geo.value.enabled && s.cfg.geo.value.challengeMode
  }

  lemma ChallengeMarkRuns(s: Situation, st: Store, geo: Geo, q: Program) returns (mid: Store)
    ensures Run(s, EmitChallengeMark(geo) + q, st) == Run(s, q, mid)
    ensures Get(mid, GeoBlocked) == Bit(CountryBlocked(s, geo))
    ensures Get(mid, BlockReason) == if CountryMarked(s, geo) then "geo_block" else Get(st, BlockReason)
    ensures Frame(st, mid, {GeoBlocked, BlockReason})
  {
    hide Exec, Run, CountryTest, PrivatePardon, CountryMarked, PrivateTest, When, WhenEach, SetTo, Holds, AnyHolds;
    var p3 := WhenEach(PrivateTest(geo), [To(GeoBlocked, "0")]);
    var p2 := When(CountryTest(geo), [To(GeoBlocked, "1"), To(BlockReason, "geo_block")]);
    assert EmitChallengeMark(geo) + q == SetTo(GeoBlocked, "0") + (p2 + (p3 + q));
    var a := ThenPut(s, st, GeoBlocked, "0", p2 + (p3 + q));
    CountryTestHolds(s, a, geo);
    var b := ThenTwo(s, a, true, CountryTest(geo), To(GeoBlocked, "1"), To(BlockReason, "geo_block"),
                     p3 + q, CountryMarked(s, geo));
    PrivateTestIsOnRequest(geo);
    PrivateTestHolds(s, geo);
    mid := ThenEachOne(s, b, PrivateTest(geo), To(GeoBlocked, "0"), q, PrivatePardon(s, geo));
  }

  lemma ChallengePardonsRun(s: Situation, st: Store, geo: Geo) returns (mid: Store)
    requires Ready(s, st)
    ensures Run(s, EmitChallengePardons(s.parse, s.cfg, geo), st) == Continue(mid)
    ensures var pardoned := AddressAllowed(s, geo.allowedIPs) || BotPardon(s, geo) || Trusted(s);
            && Get(mid, GeoBlocked) == (if pardoned then "0" else Get(st, GeoBlocked))
            && Get(mid, BlockReason) == (if pardoned then "-" else Get(st, BlockReason))
    ensures Frame(st, mid, {GeoBlocked, BlockReason})
  {
    hide Exec, SearchBot, Exempt, AddressAllowed, AddressTests, When, WhenEach, Holds, AnyHolds;
    var tests, trusted := AddressTests(s.parse, geo.allowedIPs), s.cfg.globalTrustedIPs != [];
    var p3 := if trusted then When(TRUSTED, PARDON) else [];
    var p2 := if geo.allowSearchBots then When(SEARCH_BOT, PARDON) else [];
    AddressTestsHold(s, geo.allowedIPs);
    var a := ThenEachTwo(s, st, tests, To(GeoBlocked, "0"), To(BlockReason, "-"), p2 + p3, AddressAllowed(s,
            geo.allowedIPs));
    SearchBotHolds(s, a);
    var b := ThenTwo(s, a, geo.allowSearchBots, SEARCH_BOT, To(GeoBlocked, "0"), To(BlockReason, "-"), p3,
                     SearchBot(s));
    TrustedHolds(s, b);
    mid := ThenTwo(s, b, trusted, TRUSTED, To(GeoBlocked, "0"), To(BlockReason, "-"), [], s.req(TrustedIp) == "1");
    RunNothing(s, mid);
    AtEnd(s, p3, b);
  }

  /** In challenge mode the stage flags the request and goes on. */
  lemma GeoChallengeRuns(s: Situation, st: Store) returns (mid: Store)
    requires Ready(s, st) && Get(st, GeoBlocked) == "0" && (ChallengeOn(s) ==> Fresh(s, st))
    ensures Run(s, EmitGeoChallenge(s.parse, s.cfg), st) == Continue(mid)
    ensures Ready(s, mid) && Get(mid, GeoBlocked) == Bit(Challenged(s))
    ensures LogOf(mid) == if ChallengeOn(s) then Log(GeoReason(s), "", "-") else LogOf(st)
  {
    hide Exec, Run, PrivatePardon, CountryMarked, SearchBot, Exempt, AddressAllowed, EmitChallengeMark,
         EmitChallengePardons;
    if !ChallengeOn(s) {
      mid := st;
      RunNothing(s, st);
    } else {
      var geo := s.cfg.geo.value;
      var a := ChallengeMarkRuns(s, st, geo, EmitChallengePardons(s.parse, s.cfg, geo));
      mid := ChallengePardonsRun(s, a, geo);
    }
  }

}
