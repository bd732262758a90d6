/**
 The challenge flow of `location /`: a rewrite program that redirects clients without a cookie, an
 authorisation subrequest for the others, and the API handler that answers it.
 */
module Challenge {
  import opened GoStrings
  import opened Options
  import opened Policy
  import opened PolicyDecision
  import opened PolicyProof
  import opened PolicySteps
  import opened Rewrite

  // ---- the API's side ----

  const CRAWLERS := [
    "googlebot", "googlebot-mobile", "googlebot-image", "googlebot-news", "googlebot-video", "adsbot-google",
    "adsbot-google-mobile", "mediapartners-google", "apis-google", "feedfetcher-google"
  ]

  const FETCHERS := [
    "google-read-aloud", "duplexweb-google", "storebot-google", "google-inspectiontool", "googleother", "bingbot",
    "msnbot", "bingpreview", "slurp", "duckduckbot", "baiduspider", "yandexbot"
  ]

  const SPIDERS := [
    "yandex", "sogou", "exabot", "facebot", "ia_archiver", "applebot", "naverbot", "yeti", "seznambot", "petalbot",
    "360spider", "qwantify"
  ]

  /** The names `isSearchBot` looks for, in lower case. */
  const ENGINES := CRAWLERS + FETCHERS + SPIDERS

  predicate IsSearchEngine(agent: string) {
    agent != "" && exists name <- ENGINES :: Contains(ToLower(agent), name)
  }

  /** What the handler is asked: headers as nginx sets them, and the cookie as the API reads it. */
  datatype Query = Query(geoBlocked: string, agent: string, tokenHeader: string, cookie: Option<string>, hostId: string)

  /** The token store: `None` is an error. */
  type TokenStore = (string, Option<string>) -> Option<bool>

  function TokenOf(q: Query): string {
    if q.tokenHeader != "" then q.tokenHeader
    else if q.cookie.Some? then q.cookie.value else ""
  }

  function HostOf(q: Query): Option<string> {
    if q.hostId != "" then Some(q.hostId) else None
  }

  function ValidateToken(q: Query, tokens: TokenStore): int {
    if q.geoBlocked == "0" then 200
    else if IsSearchEngine(q.agent) then 200
    else if TokenOf(q) == "" then 401
    else
      var valid := tokens(TokenOf(q), HostOf(q));
      if valid.None? then 401 else if !valid.value then 401 else 200
  }

  predicate Accepted(tokens: TokenStore, token: string, host: Option<string>) {
    token != "" && tokens(token, host) == Some(true)
  }

  /** The handler answers 200 or 401, and looks at the cookie only when nginx sent no token. */
  lemma TokenIsChecked(q: Query, tokens: TokenStore)
    ensures ValidateToken(q, tokens) in {200, 401}
    ensures ValidateToken(q, tokens) == 200 <==>
            || q.geoBlocked == "0"
            || (exists before, name, after :: NamesEngine(q.agent, before, name, after))
            || Accepted(tokens, if q.tokenHeader != "" then q.tokenHeader
                                else if q.cookie.Some? then q.cookie.value else "", HostOf(q))
  {
    hide IsSearchEngine, NamesEngine;
    SearchEngineIff(q.agent);
  }

  lemma ToLowerConcat(a: string, b: string)
    ensures ToLower(a + b) == ToLower(a) + ToLower(b)
  {
  }

  lemma NamesAreNotEmpty(name: string)
    requires ToLower(name) in ENGINES
    ensures name != ""
  {
  }

  /** A listed name is recognised anywhere in the agent and in any letter case. */
  lemma EngineNameRecognised(before: string, name: string, after: string)
    requires ToLower(name) in ENGINES
    ensures IsSearchEngine(before + name + after)
  {
    NamesAreNotEmpty(name);
    hide ToLower, ENGINES, Contains, IsSearchEngine;
    var agent := before + name + after;
    ToLowerConcat(before + name, after);
    ToLowerConcat(before, name);
    var (b, n, a) := (ToLower(before), ToLower(name), ToLower(after));
    assert ToLower(agent) == b + n + a;
    ContainsPart(b, n, a);
    RecognisedBy(agent, n);
  }

  /** The agent has a listed name in it, in any letter case. */
  ghost predicate NamesEngine(agent: string, before: string, name: string, after: string) {
    agent == before + name + after && ToLower(name) in ENGINES
  }

  /** Search engines are exactly the agents with a listed name in them. */
  lemma SearchEngineIff(agent: string)
    ensures IsSearchEngine(agent) <==> exists before, name, after :: NamesEngine(agent, before, name, after)
  {
    if before, name, after :| NamesEngine(agent, before, name, after) {
      EngineNameRecognised(before, name, after);
    }
    if IsSearchEngine(agent) {
      var listed :| listed in ENGINES && Contains(ToLower(agent), listed);
      var before, name, after := PartOf(agent, listed);
      assert NamesEngine(agent, before, name, after);
    }
  }

  lemma PartOf(agent: string, listed: string) returns (before: string, name: string, after: string)
    requires Contains(ToLower(agent), listed)
    ensures agent == before + name + after && ToLower(name) == listed
  {
    var lower := ToLower(agent);
    var i :| 0 <= i <= |lower| && HasPrefix(lower[i..], listed);
    var j := i + |listed|;
    before, name, after := agent[..i], agent[i..j], agent[j..];
    ToLowerPart(agent, i, j);
    assert lower[i..][..|listed|] == lower[i..j];
    hide ToLower;
    assert agent == agent[..j] + agent[j..] && agent[..j] == agent[..i] + agent[i..j];
  }

  lemma ToLowerPart(s: string, i: nat, j: nat)
    requires i <= j <= |s|
    ensures ToLower(s[i..j]) == ToLower(s)[i..j]
  {
  }

  /** Every listed name has one of these letters. */
  predicate Telling(c: char) {
    c == 'b' || c == 'e' || c == 'g' || c == 's' || c == 'y'
  }

  predicate Tells(s: string) {
    exists k :: 0 <= k < |s| && Telling(s[k])
  }

  predicate Unsuspicious(agent: string) {
    forall c <- agent :: !Telling(LowerChar(c))
  }

  predicate TellsAt(s: string, k: nat) {
    k < |s| && Telling(s[k])
  }

  lemma CrawlersTell(name: string)
    requires name in CRAWLERS
    ensures Tells(name)
  {
    assert TellsAt(name, 0) || TellsAt(name, 1) || TellsAt(name, 2) || TellsAt(name, 3);
  }

  lemma FetchersTell(name: string)
    requires name in FETCHERS
    ensures Tells(name)
  {
    assert TellsAt(name, 0) || TellsAt(name, 1) || TellsAt(name, 4) || TellsAt(name, 8);
  }

  lemma SpidersTell(name: string)
    requires name in SPIDERS
    ensures Tells(name)
  {
    assert TellsAt(name, 0) || TellsAt(name, 1) || TellsAt(name, 3) || TellsAt(name, 4)
        || TellsAt(name, 7) || TellsAt(name, 9);
  }

  lemma NamesTell(name: string)
    requires name in ENGINES
    ensures Tells(name)
  {
    hide Tells, CRAWLERS, FETCHERS, SPIDERS;
    if name in CRAWLERS {
      CrawlersTell(name);
    } else if name in FETCHERS {
      FetchersTell(name);
    } else {
      SpidersTell(name);
    }
  }

  /** An agent without any of those letters, such as `Mozilla/5.0`, is no search engine. */
  lemma UnsuspiciousIsNoEngine(agent: string)
    requires Unsuspicious(agent)
    ensures !IsSearchEngine(agent)
  {
    hide ENGINES, Contains, Tells, Unsuspicious;
    forall name | name in ENGINES ensures !Contains(ToLower(agent), name) {
      NamesTell(name);
      NotPartOf(agent, name);
    }
  }

  lemma NotPartOf(agent: string, name: string)
    requires Unsuspicious(agent) && Tells(name)
    ensures !Contains(ToLower(agent), name)
  {
    hide Telling;
    var k :| 0 <= k < |name| && Telling(name[k]);
    var lower := ToLower(agent);
    forall i | 0 <= i <= |lower| ensures !HasPrefix(lower[i..], name) {
      if |name| <= |lower[i..]| {
        assert lower[i..][..|name|][k] == lower[i + k] && agent[i + k] in agent;
      }
    }
  }

  lemma ContainsPart(before: string, part: string, after: string)
    ensures Contains(before + part + after, part)
  {
    var s := before + part + after;
    assert s[|before|..] == part + after;
    assert HasPrefix(s[|before|..], part);
  }

  lemma RecognisedBy(agent: string, name: string)
    requires agent != "" && name in ENGINES && Contains(ToLower(agent), name)
    ensures IsSearchEngine(agent)
  {
    hide ENGINES, ToLower, Contains;
  }

  // ---- nginx's side ----

  const COOKIE := Of(ChallengeCookie)

  /** `location /` in front of the upstream. */
  function EmitLocation(geo: Geo): Program {
    SetTo(ChallengeCheck, "0")
    + (When(Equals(Own(GeoBlocked), "1"), [To(ChallengeCheck, "1")])
    + ((if geo.allowSearchBots then When(SEARCH_BOT, [To(ChallengeCheck, "0")]) else [])
    + (Concat(ChallengeCheckFinal, [Value(Own(ChallengeCheck))])
    + ([If(Equals(COOKIE, ""), [Set(ChallengeCheckFinal, [Value(Own(ChallengeCheck)), Text("1")])])]
    + ReturnWhen(Equals(Own(ChallengeCheckFinal), "11"), [], 302)))))
  }

  datatype Fate = Blocked(code: int) | Redirected | Denied | Upstream

  /**
   `auth_request`: 2xx lets the request through, 401 goes to the challenge page, any other failure to
   the upstream all the same.
   */
  function Authorised(status: int): Fate {
    if 200 <= status < 300 then Upstream
    else if status == 401 then Redirected
    else if status == 403 then Denied
    else Upstream
  }

  /** What the access list says: whether one of its conditions is enough, and whether it allows the address. */
  datatype Door = Door(satisfyAny: bool, allows: bool)

  /**
   The access phase. The access list is asked first. If any condition is enough, an allowed address is not
   asked for a token, and one that is not allowed is let in by a token only: when the API fails it is turned
   away by the fallback location, where the list applies as well.
   */
  function Gate(listed: bool, door: Door, status: Option<int>): Fate {
    var authorised := if status.Some? then Authorised(status.value) else Upstream;
    if !listed then authorised
    else if !door.satisfyAny then (if door.allows then authorised else Denied)
    else if door.allows then Upstream
    else if status.Some? && (200 <= status.value < 300 || status.value == 401) then authorised
    else Denied
  }

  /**
   The world around a request: how the subrequest fares if it never reaches the handler, the cookie as
   the API sees it, and the tokens.
   */
  datatype Api = Api(failure: Option<int>, cookie: Option<string>, hostId: string, tokens: TokenStore)

  function QueryOf(s: Situation, api: Api, st: Store): Query {
    Query(Get(st, GeoBlocked), s.req(UserAgent), s.req(ChallengeCookie), api.cookie, api.hostId)
  }

  function Status(s: Situation, api: Api, st: Store): int {
    if api.failure.Some? then api.failure.value else ValidateToken(QueryOf(s, api, st), api.tokens)
  }

  /** Whether the challenge is part of the emitted location. */
  predicate ChallengeEmitted(cfg: Config) {
    cfg.geo.Some? && cfg.geo.value.challengeMode
  }

  /** A request to `location /`, from the first server-level instruction on. */
  function Visit(s: Situation, api: Api, door: Door): Fate {
    match Run(s, Emit(s.parse, s.cfg), map[])
    case Returned(code, _) => Blocked(code)
    case Continue(st) =>
      var listed := s.cfg.accessListItems != [];
      if !ChallengeEmitted(s.cfg) then Gate(listed, door, None)
      else
        match Run(s, EmitLocation(s.cfg.geo.value), st)
        case Returned(_, _) => Redirected
        case Continue(st') => Gate(listed, door, Some(Status(s, api, st')))
  }

  // ---- what it amounts to ----

  predicate TokenAccepted(s: Situation, api: Api) {
    Accepted(api.tokens, s.req(ChallengeCookie), if api.hostId != "" then Some(api.hostId) else None)
  }

  /** The flag and an absent cookie concatenate to "11" in one way only. */
  lemma DecodeChallenge(flag: bool, cookie: string)
    ensures (if cookie == "" then Bit(flag) + "1" else Bit(flag)) == "11" <==> flag && cookie == ""
  {
    var text := if cookie == "" then Bit(flag) + "1" else Bit(flag);
    assert text == "11" ==> |text| == 2 && text[0] == '1';
    assert flag && cookie == "" ==> text == "1" + "1";
  }

  /** The rewrite part of the location: an immediate redirect exactly for flagged clients without a cookie. */
  lemma LocationRuns(s: Situation, geo: Geo, st: Store)
    requires s.cfg.geo == Some(geo)
    requires Get(st, GeoBlocked) == Bit(Challenged(s)) && Get(st, IsSearchBot) == Bit(SearchBot(s))
    ensures var o := Run(s, EmitLocation(geo), st);
            if Challenged(s) && s.req(ChallengeCookie) == "" then o.Returned? && o.code == 302
            else o.Continue? && Get(o.store, GeoBlocked) == Bit(Challenged(s))
  {
    hide Exec, Run, Challenged, SearchBot, When, SetTo, Concat, ReturnWhen, Updated, Expand;
    var (flag, cookie) := (Challenged(s), s.req(ChallengeCookie));
    var p6 := ReturnWhen(Equals(Own(ChallengeCheckFinal), "11"), [], 302);
    var noCookie := If(Equals(COOKIE, ""), [Set(ChallengeCheckFinal, [Value(Own(ChallengeCheck)), Text("1")])]);
    var p5 := [noCookie] + p6;
    var p4 := Concat(ChallengeCheckFinal, [Value(Own(ChallengeCheck))]) + p5;
    var p3 := (if geo.allowSearchBots then When(SEARCH_BOT, [To(ChallengeCheck, "0")]) else []) + p4;
    var p2 := When(Equals(Own(GeoBlocked), "1"), [To(ChallengeCheck, "1")]) + p3;
    var a := ThenPut(s, st, ChallengeCheck, "0", p2);
    EqualsHolds(s, a, GeoBlocked, "1");
    var b := ThenOne(s, a, true, Equals(Own(GeoBlocked), "1"), To(ChallengeCheck, "1"), p3, flag);
    EqualsHolds(s, b, IsSearchBot, "1");
    var c := ThenOne(s, b, geo.allowSearchBots, SEARCH_BOT, To(ChallengeCheck, "0"), p4, SearchBot(s));
    ChallengedIsNoBot(s, geo);
    assert Get(c, ChallengeCheck) == Bit(flag);
    var d := ThenParts(s, c, ChallengeCheckFinal, [Value(Own(ChallengeCheck))], p5);
    ExpandOne(s.req, c, Own(ChallengeCheck));
    var f := CookieStep(s, d, noCookie, p6, flag);
    DecodeChallenge(flag, cookie);
    EndReturn(s, f, ChallengeCheckFinal, "11", [], 302);
  }

  lemma ChallengedIsNoBot(s: Situation, geo: Geo)
    requires s.cfg.geo == Some(geo)
    ensures Challenged(s) && geo.allowSearchBots ==> !SearchBot(s)
  {
    hide SearchBot;
  }

  lemma CookieStep(s: Situation, st: Store, i: Instr, q: Program, flag: bool) returns (mid: Store)
    requires i == If(Equals(COOKIE, ""), [Set(ChallengeCheckFinal, [Value(Own(ChallengeCheck)), Text("1")])])
    requires Get(st, ChallengeCheck) == Bit(flag) && Get(st, ChallengeCheckFinal) == Bit(flag)
    ensures Run(s, [i] + q, st) == Run(s, q, mid)
    ensures Get(mid, ChallengeCheckFinal) == if s.req(ChallengeCookie) == "" then Bit(flag) + "1" else Bit(flag)
    ensures Get(mid, GeoBlocked) == Get(st, GeoBlocked)
  {
    var parts := [Value(Own(ChallengeCheck)), Text("1")];
    mid := if s.req(ChallengeCookie) == "" then st[ChallengeCheckFinal := Bit(flag) + "1"] else st;
    assert parts[1..] == [Text("1")];
    ExpandText(s.req, st, "1");
    assert Expand(s.req, st, parts) == Bit(flag) + "1";
    var actions := [Set(ChallengeCheckFinal, parts)];
    assert actions[1..] == [];
    assert ActAll(s.req, st, actions) == Continue(st[ChallengeCheckFinal := Bit(flag) + "1"]);
    ExecOne(s.engine, s.req, i, st);
    Then(s, [i], q, st, mid);
  }

  /** Nothing is held against the client, or it has what it takes. */
  predicate Cleared(s: Situation, api: Api) {
    !Challenged(s) || IsSearchEngine(s.req(UserAgent)) || TokenAccepted(s, api)
  }

  /** The answer to the authorisation subrequest. */
  function Answer(s: Situation, api: Api): int {
    if api.failure.Some? then api.failure.value else if Cleared(s, api) then 200 else 401
  }

  /**
   The whole flow, for every configuration. A blocked request is turned away with its code. With challenge
   mode on, a flagged client without a cookie is redirected at once, and whoever is left passes the access
   phase with 200 if not flagged, if a search engine, or with a token the API accepts, and with 401 otherwise.
   */
  lemma VisitDecides(s: Situation, api: Api, door: Door)
    ensures Visit(s, api, door) ==
            match Decide(s)
            case Block(code, _) => Blocked(code)
            case Pass =>
              var listed := s.cfg.accessListItems != [];
              if !ChallengeEmitted(s.cfg) then Gate(listed, door, None)
              else if Challenged(s) && s.req(ChallengeCookie) == "" then Redirected
              else Gate(listed, door, Some(Answer(s, api)))
  {
    hide Exec, Run, Decide, Challenged, SearchBot, Emit, EmitLocation, PassedLog, IsSearchEngine, Gate;
    PolicyCorrect(s);
    if Decide(s).Pass? && ChallengeEmitted(s.cfg) {
      var st := Run(s, Emit(s.parse, s.cfg), map[]).store;
      LocationRuns(s, s.cfg.geo.value, st);
      BitInjective(Challenged(s), false);
    }
  }

  /** What the access phase asks for: the list, the challenge, or one of them. */
  predicate Admitted(s: Situation, api: Api, door: Door) {
    var open := api.failure.Some? || Cleared(s, api);
    if s.cfg.accessListItems == [] then open
    else if door.satisfyAny then door.allows || (api.failure.None? && Cleared(s, api))
    else door.allows && open
  }

  /**
   Who reaches the upstream in challenge mode, the API answering as written or failing. Without an access
   list: whoever is not blocked and, if flagged, has a cookie and is let through by the API.
   */
  lemma ReachesUpstream(s: Situation, api: Api, door: Door)
    requires ChallengeEmitted(s.cfg)
    requires api.failure.Some? ==> api.failure.value in {500, 502, 503, 504}
    ensures Visit(s, api, door) == Upstream <==>
            && Decide(s) == Pass
            && (Challenged(s) ==> s.req(ChallengeCookie) != "")
            && Admitted(s, api, door)
  {
    hide Decide, Cleared, Visit;
    VisitDecides(s, api, door);
  }
}
