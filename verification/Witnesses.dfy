/** Single requests that show what the log variables and the access phase let happen. */
module Witnesses {
  import opened AnchoredRegex
  import opened Challenge
  import opened Cidr
  import opened GeoMeaning
  import opened GoStrings
  import opened Options
  import opened Policy
  import opened PolicyDecision
  import opened PolicyProof
  import opened PolicySteps
  import opened Rewrite

  /** Every stage but the geo restriction is off. */
  function OnlyGeo(geo: Geo, items: seq<string>): Config {
    Config(Some(geo), items, false, [], "", "", [], false, [], false, false, None, "", "", "", "", [])
  }

  /** The country `XA` is blocked, or challenged. */
  function Against(challengeMode: bool, allowedIPs: seq<string>): Geo {
    Geo(true, challengeMode, "blacklist", ["XA"], allowedIPs, false, false)
  }

  /** A client from `XA`. */
  function From(address: string, agent: string, cookie: string): Request {
    (v: RequestVar) =>
      match v
      case RemoteAddr => address
      case CountryCode => "XA"
      case RequestUri => "/"
      case UserAgent => agent
      case ChallengeCookie => cookie
      case _ => ""
  }

  lemma CountryIsBlocked(s: Situation, geo: Geo)
    requires geo.mode == "blacklist" && geo.countries == ["XA"] && s.req(CountryCode) == "XA"
    ensures CountryMarked(s, geo) && !PrivatePardon(s, geo)
  {
    hide CountryPattern, Matches;
    assert AllPlain("XA");
    CountryPatternMatches(s, geo);
    assert "blacklist"[0] != "whitelist"[0] && "XA"[0] != "--"[0];
  }

  lemma {:induction false} NoneBlocks(verdicts: seq<Verdict>)
    requires forall v <- verdicts :: v.Pass?
    ensures First(verdicts) == Pass
  {
    if verdicts != [] {
      assert verdicts[0] in verdicts;
      NoneBlocks(verdicts[1..]);
    }
  }

  lemma OtherStagesPass(s: Situation, geo: Geo, items: seq<string>)
    requires s.cfg == OnlyGeo(geo, items) && GeoVerdict(s) == Pass
    ensures Decide(s) == Pass
  {
    hide GeoVerdict, First;
    NoneBlocks(
      [GeoVerdict(s), ExploitVerdict(s), BannedVerdict(s), CloudVerdict(s), BotVerdict(s), FilterAgentVerdict(s)]);
  }

  /** An allowed address in a blocked country is let through, and logged with the reason `geo_block` all the same. */
  lemma PassedWithReason(engine: Engine, parse: ParseCidr)
    ensures var s := Situation(engine, parse, OnlyGeo(Against(false, ["10.0.0.1"]), []), From("10.0.0.1", "", ""));
            var o := Run(s, Emit(parse, s.cfg), map[]);
            Decide(s) == Pass && o.Continue? && LogOf(o.store) == Log("geo_block", "", "-")
  {
    hide Run, Emit, Matches, CountryPattern, CountryMarked, PatternOf;
    var geo := Against(false, ["10.0.0.1"]);
    var s := Situation(engine, parse, OnlyGeo(geo, []), From("10.0.0.1", "", ""));
    CountryIsBlocked(s, geo);
    assert AddressIs(s, "10.0.0.1");
    assert AddressAllowed(s, geo.allowedIPs);
    assert !GeoBlocks(s);
    OtherStagesPass(s, geo, []);
    PolicyCorrect(s);
  }

  function RefuseAll(token: string, host: Option<string>): Option<bool> {
    Some(false)
  }

  lemma ChallengedAtTheDoor(s: Situation, geo: Geo, items: seq<string>)
    requires geo == Against(true, []) && s.cfg == OnlyGeo(geo, items) && s.req(CountryCode) == "XA"
    ensures Challenged(s) && GeoVerdict(s) == Pass
  {
    hide Matches, CountryPattern, CountryMarked;
    CountryIsBlocked(s, geo);
  }

  lemma TokenRefused(s: Situation, api: Api)
    requires Challenged(s) && !IsSearchEngine(s.req(UserAgent)) && api.tokens == RefuseAll
    ensures !Cleared(s, api)
  {
    hide Challenged, IsSearchEngine;
  }

  lemma NobodyIsNoEngine()
    ensures !IsSearchEngine("")
  {
  }

  /** A flagged client whose token is refused is let in where any condition of the access list is enough. */
  lemma RefusedTokenLetIn(engine: Engine, parse: ParseCidr)
    ensures var cfg := OnlyGeo(Against(true, []), ["allow 10.0.0.1"]);
            var s := Situation(engine, parse, cfg, From("10.0.0.1", "", "x"));
            var api := Api(None, Some("x"), "", RefuseAll);
            Challenged(s) && !Cleared(s, api) && Visit(s, api, Door(true, true)) == Upstream
  {
    hide Visit, Challenged, GeoVerdict, Decide, Cleared, IsSearchEngine;
    var geo := Against(true, []);
    var s := Situation(engine, parse, OnlyGeo(geo, ["allow 10.0.0.1"]), From("10.0.0.1", "", "x"));
    var api := Api(None, Some("x"), "", RefuseAll);
    NobodyIsNoEngine();
    ChallengedAtTheDoor(s, geo, ["allow 10.0.0.1"]);
    OtherStagesPass(s, geo, ["allow 10.0.0.1"]);
    TokenRefused(s, api);
    ReachesUpstream(s, api, Door(true, true));
  }

  lemma BrowserIsNoEngine()
    ensures !IsSearchEngine("Mozilla/5.0")
  {
    UnsuspiciousIsNoEngine("Mozilla/5.0");
  }

  /** A flagged browser with a token the API refuses: the answer is 401, and it ends at the challenge page. */
  lemma BrowserTurnedAway(engine: Engine, parse: ParseCidr, door: Door)
    ensures var s := Situation(engine, parse, OnlyGeo(Against(true, []), []), From("10.0.0.1", "Mozilla/5.0", "x"));
            var api := Api(None, Some("x"), "", RefuseAll);
            Answer(s, api) == 401 && Visit(s, api, door) == Redirected
    ensures ValidateToken(Query("1", "Mozilla/5.0", "x", Some("x"), ""), RefuseAll) == 401
  {
    hide Visit, Challenged, GeoVerdict, Decide, IsSearchEngine;
    var geo := Against(true, []);
    var s := Situation(engine, parse, OnlyGeo(geo, []), From("10.0.0.1", "Mozilla/5.0", "x"));
    var api := Api(None, Some("x"), "", RefuseAll);
    BrowserIsNoEngine();
    ChallengedAtTheDoor(s, geo, []);
    OtherStagesPass(s, geo, []);
    TokenRefused(s, api);
    VisitDecides(s, api, door);
  }

  lemma GooglebotIsAnEngine()
    ensures IsSearchEngine("Googlebot/2.1")
  {
    assert ToLower("Googlebot") == "googlebot" == CRAWLERS[0];
    assert "googlebot" in ENGINES;
    EngineNameRecognised("", "Googlebot", "/2.1");
    assert "" + "Googlebot" + "/2.1" == "Googlebot/2.1";
  }

  /** The same client under a search engine's name is let through, token or not. */
  lemma EngineLetIn(engine: Engine, parse: ParseCidr, door: Door)
    ensures var s := Situation(engine, parse, OnlyGeo(Against(true, []), []), From("10.0.0.1", "Googlebot/2.1", "x"));
            Challenged(s) && Visit(s, Api(None, Some("x"), "", RefuseAll), door) == Upstream
  {
    hide Visit, Challenged, GeoVerdict, Decide, IsSearchEngine;
    var geo := Against(true, []);
    var s := Situation(engine, parse, OnlyGeo(geo, []), From("10.0.0.1", "Googlebot/2.1", "x"));
    var api := Api(None, Some("x"), "", RefuseAll);
    GooglebotIsAnEngine();
    ChallengedAtTheDoor(s, geo, []);
    OtherStagesPass(s, geo, []);
    ReachesUpstream(s, api, door);
  }
}
