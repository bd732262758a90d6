/** Running the compiled program piece by piece: one lemma for each kind of piece, and the first three stages. */
module PolicySteps {
  import opened AnchoredRegex
  import opened GlobPattern
  import opened Policy
  import opened PolicyDecision
  import opened Rewrite

  function Run(s: Situation, p: Program, st: Store): Outcome {
    Exec(s.engine, s.req, p, st)
  }

  function LogOf(st: Store): Log {
    Log(Get(st, BlockReason), Get(st, ExploitRuleId), Get(st, BotCategory))
  }

  /** What every stage after the first three relies on. */
  predicate Ready(s: Situation, st: Store) {
    && Get(st, IsSearchBot) == Bit(SearchBot(s))
    && Get(st, SkipSecurity) == Bit(Exempt(s))
  }

  /** A stage that has not returned: the program goes on with `q`. */
  lemma Then(s: Situation, p: Program, q: Program, st: Store, mid: Store)
    requires Run(s, p, st) == Continue(mid)
    ensures Run(s, p + q, st) == Run(s, q, mid)
  {
    ExecThen(s.engine, s.req, p, q, st);
  }

  lemma ThenReturned(s: Situation, p: Program, q: Program, st: Store)
    requires Run(s, p, st).Returned?
    ensures Run(s, p + q, st) == Run(s, p, st)
  {
    ExecThen(s.engine, s.req, p, q, st);
  }

  lemma AtEnd(s: Situation, p: Program, st: Store)
    ensures Run(s, p + [], st) == Run(s, p, st)
  {
    assert p + [] == p;
  }

  /** The two stores agree on every variable outside `xs`. */
  predicate Frame(st: Store, st': Store, xs: set<Local>) {
    forall y: Local :: y !in xs ==> Get(st', y) == Get(st, y)
  }

  // One lemma for each kind of piece: the program goes on with `q` in a store described by what
  // the piece sets and what it leaves alone.

  lemma ThenPut(s: Situation, st: Store, x: Local, text: string, q: Program) returns (mid: Store)
    ensures Run(s, SetTo(x, text) + q, st) == Run(s, q, mid)
    ensures Get(mid, x) == text && Frame(st, mid, {x})
  {
    mid := st[x := text];
    RunSetTo(s.engine, s.req, st, x, text);
    Then(s, SetTo(x, text), q, st, mid);
  }

  lemma ThenParts(s: Situation, st: Store, x: Local, parts: seq<Part>, q: Program) returns (mid: Store)
    ensures Run(s, Concat(x, parts) + q, st) == Run(s, q, mid)
    ensures Get(mid, x) == Expand(s.req, st, parts) && Frame(st, mid, {x})
  {
    mid := st[x := Expand(s.req, st, parts)];
    ExecOne(s.engine, s.req, Do(Set(x, parts)), st);
    Then(s, Concat(x, parts), q, st, mid);
  }

  function Chosen(yes: bool, a: Assignment, st: Store): string {
    if yes then a.s else Get(st, a.x)
  }

  lemma ThenOne(s: Situation, st: Store, used: bool, t: Test, a: Assignment, q: Program, yes: bool)
    returns (mid: Store)
    requires used ==> (Holds(s.engine, s.req, st, t) <==> yes)
    ensures Run(s, (if used then When(t, [a]) else []) + q, st) == Run(s, q, mid)
    ensures Get(mid, a.x) == Chosen(used && yes, a, st) && Frame(st, mid, {a.x})
  {
    mid := if used && yes then st[a.x := a.s] else st;
    RunWhen(s.engine, s.req, st, t, [a]);
    UpdatedShort(st, [a]);
    Then(s, if used then When(t, [a]) else [], q, st, mid);
  }

  lemma ThenTwo(s: Situation, st: Store, used: bool, t: Test, a: Assignment, b: Assignment, q: Program, yes: bool)
    returns (mid: Store)
    requires a.x != b.x && (used ==> (Holds(s.engine, s.req, st, t) <==> yes))
    ensures Run(s, (if used then When(t, [a, b]) else []) + q, st) == Run(s, q, mid)
    ensures Get(mid, a.x) == Chosen(used && yes, a, st) && Get(mid, b.x) == Chosen(used && yes, b, st)
    ensures Frame(st, mid, {a.x, b.x})
  {
    mid := if used && yes then st[a.x := a.s][b.x := b.s] else st;
    RunWhen(s.engine, s.req, st, t, [a, b]);
    UpdatedShort(st, [a, b]);
    Then(s, if used then When(t, [a, b]) else [], q, st, mid);
  }

  lemma ThenThree(s: Situation, st: Store, t: Test, a: Assignment, b: Assignment, c: Assignment, q: Program, yes: bool)
    returns (mid: Store)
    requires a.x != b.x && a.x != c.x && b.x != c.x && (Holds(s.engine, s.req, st, t) <==> yes)
    ensures Run(s, When(t, [a, b, c]) + q, st) == Run(s, q, mid)
    ensures Get(mid, a.x) == Chosen(yes, a, st) && Get(mid, b.x) == Chosen(yes, b, st)
    ensures Get(mid, c.x) == Chosen(yes, c, st) && Frame(st, mid, {a.x, b.x, c.x})
  {
    mid := if yes then st[a.x := a.s][b.x := b.s][c.x := c.s] else st;
    RunWhen(s.engine, s.req, st, t, [a, b, c]);
    UpdatedShort(st, [a, b, c]);
    Then(s, When(t, [a, b, c]), q, st, mid);
  }

  lemma ThenEachOne(s: Situation, st: Store, tests: seq<Test>, a: Assignment, q: Program, yes: bool)
    returns (mid: Store)
    requires forall t <- tests :: OnRequest(t)
    requires AnyHolds(s.engine, s.req, tests) <==> yes
    ensures Run(s, WhenEach(tests, [a]) + q, st) == Run(s, q, mid)
    ensures Get(mid, a.x) == Chosen(yes, a, st) && Frame(st, mid, {a.x})
  {
    mid := if yes then st[a.x := a.s] else st;
    RunWhenEach(s.engine, s.req, st, tests, [a]);
    UpdatedShort(st, [a]);
    Then(s, WhenEach(tests, [a]), q, st, mid);
  }

  lemma ThenEachTwo(s: Situation, st: Store, tests: seq<Test>, a: Assignment, b: Assignment, q: Program, yes: bool)
    returns (mid: Store)
    requires a.x != b.x && forall t <- tests :: OnRequest(t)
    requires AnyHolds(s.engine, s.req, tests) <==> yes
    ensures Run(s, WhenEach(tests, [a, b]) + q, st) == Run(s, q, mid)
    ensures Get(mid, a.x) == Chosen(yes, a, st) && Get(mid, b.x) == Chosen(yes, b, st)
    ensures Frame(st, mid, {a.x, b.x})
  {
    mid := if yes then st[a.x := a.s][b.x := b.s] else st;
    RunWhenEach(s.engine, s.req, st, tests, [a, b]);
    UpdatedShort(st, [a, b]);
    Then(s, WhenEach(tests, [a, b]), q, st, mid);
  }

  /** `if (...) { set ...; return code; }`: either the program ends here or it goes on unchanged. */
  lemma ThenReturn(s: Situation, st: Store, t: Test, sets: seq<Assignment>, code: int, q: Program, yes: bool)
    requires Holds(s.engine, s.req, st, t) <==> yes
    ensures Run(s, ReturnWhen(t, sets, code) + q, st)
            == if yes then Returned(code, Updated(st, sets)) else Run(s, q, st)
  {
    RunReturnWhen(s.engine, s.req, st, t, sets, code);
    if yes {
      ThenReturned(s, ReturnWhen(t, sets, code), q, st);
    } else {
      Then(s, ReturnWhen(t, sets, code), q, st, st);
    }
  }

  // ---- the first three stages ----

  lemma {:induction false} AddressTestsHold(s: Situation, ips: seq<string>)
    ensures AnyHolds(s.engine, s.req, AddressTests(s.parse, ips)) <==> AddressAllowed(s, ips)
  {
    if ips != [] {
      AddressTestsHold(s, ips[1..]);
      var t := AddressTest(s.parse, ips[0]);
      assert HoldsOn(s.engine, s.req, t) <==> AddressIs(s, ips[0]);
      assert AddressTests(s.parse, ips) == [t] + AddressTests(s.parse, ips[1..]);
      AnyHoldsCons(s, t, AddressTests(s.parse, ips[1..]));
      assert ips == [ips[0]] + ips[1..];
    }
  }

  lemma AnyHoldsCons(s: Situation, t: Test, tests: seq<Test>)
    ensures AnyHolds(s.engine, s.req, [t] + tests)
            <==> HoldsOn(s.engine, s.req, t) || AnyHolds(s.engine, s.req, tests)
  {
    assert ([t] + tests)[0] == t;
  }

  lemma PreludeRuns(s: Situation, q: Program) returns (st: Store)
    ensures Run(s, EmitInit() + (EmitSearchBot(s.cfg) + (EmitSkip() + q)), map[]) == Run(s, q, st)
    ensures Fresh(s, st)
  {
    hide Exec, Run, RegexOf, Matches, MatchesNoCase, SetTo, When, WhenEach, Updated;
    var rest := EmitSearchBot(s.cfg) + (EmitSkip() + q);
    var p4 := SetTo(IsSearchBot, "0") + rest;
    var p3 := SetTo(GeoBlocked, "0") + p4;
    var p2 := SetTo(BotCategory, "-") + p3;
    assert EmitInit() + rest == SetTo(BlockReason, "-") + p2;
    var a := ThenPut(s, map[], BlockReason, "-", p2);
    var b := ThenPut(s, a, BotCategory, "-", p3);
    var c := ThenPut(s, b, GeoBlocked, "0", p4);
    var d := ThenPut(s, c, IsSearchBot, "0", rest);
    var f := ThenOne(s, d, s.cfg.searchEnginesList != "", AgentTest(s.cfg.searchEnginesList), To(IsSearchBot, "1"),
                     EmitSkip() + q, SearchBot(s));
    var tests := [Like(URI, ACME_PATH), Like(URI, CHALLENGE_PATH)];
    var each := WhenEach(tests, [To(SkipSecurity, "1")]);
    assert EmitSkip() + q == SetTo(SkipSecurity, "0") + (each + q);
    var g := ThenPut(s, f, SkipSecurity, "0", each + q);
    SkipTests(s, tests);
    st := ThenEachOne(s, g, tests, To(SkipSecurity, "1"), q, Exempt(s));
    assert Get(map[], ExploitRuleId) == "";
  }

  lemma SkipTests(s: Situation, tests: seq<Test>)
    requires tests == [Like(URI, ACME_PATH), Like(URI, CHALLENGE_PATH)]
    ensures AnyHolds(s.engine, s.req, tests) <==> Exempt(s)
  {
    hide Matches;
    assert tests[0] in tests && tests[1] in tests;
    assert HoldsOn(s.engine, s.req, tests[0]) <==> Matches(s.engine.exact, ACME_PATH, s.req(RequestUri));
    assert HoldsOn(s.engine, s.req, tests[1]) <==> Matches(s.engine.exact, CHALLENGE_PATH, s.req(RequestUri));
  }

  lemma SearchBotHolds(s: Situation, st: Store)
    requires Ready(s, st)
    ensures Holds(s.engine, s.req, st, SEARCH_BOT) <==> SearchBot(s)
  {
    BitInjective(SearchBot(s), true);
  }

  predicate Fresh(s: Situation, st: Store) {
    Ready(s, st) && LogOf(st) == Log("-", "", "-") && Get(st, GeoBlocked) == "0"
  }

  /** A last `if ($x = "text") { ...; return code; }`. */
  lemma EndReturn(s: Situation, st: Store, x: Local, text: string, sets: seq<Assignment>, code: int)
    ensures Run(s, ReturnWhen(Equals(Own(x), text), sets, code), st)
            == if Get(st, x) == text then Returned(code, Updated(st, sets)) else Continue(st)
    ensures Updated(st, []) == st
  {
    RunReturnWhen(s.engine, s.req, st, Equals(Own(x), text), sets, code);
  }

  lemma RunNothing(s: Situation, st: Store)
    ensures Run(s, [], st) == Continue(st)
  {}

  /** Between the later stages: flags in place, and a log that no stage has claimed. */
  predicate Clear(s: Situation, st: Store, reason: string) {
    Ready(s, st) && Get(st, GeoBlocked) == Bit(Challenged(s)) && LogOf(st) == Log(reason, "", "-")
  }

  /** A stage agrees with its verdict: it returns with the verdict's code and log, or passes on. */
  predicate Agrees(s: Situation, o: Outcome, v: Verdict, reason: string) {
    match v
    case Block(code, log) => o.Returned? && o.code == code && LogOf(o.store) == log
    case Pass => o.Continue? && Clear(s, o.store, reason)
  }

  lemma ClearFacts(s: Situation, st: Store, reason: string)
    requires Clear(s, st, reason)
    ensures Ready(s, st) && LogOf(st) == Log(reason, "", "-")
  {}

  lemma FirstCons(v: Verdict, vs: seq<Verdict>)
    ensures First([v] + vs) == if v.Block? then v else First(vs)
  {
    assert ([v] + vs)[1..] == vs;
  }

  lemma NoCaseHolds(s: Situation, st: Store, v: RequestVar, pattern: string)
    ensures Holds(s.engine, s.req, st, LikeNoCase(Of(v), pattern)) <==> MatchesNoCase(s.engine, pattern, s.req(v))
  {}

  lemma EqualsHolds(s: Situation, st: Store, x: Local, text: string)
    ensures Holds(s.engine, s.req, st, Equals(Own(x), text)) <==> Get(st, x) == text
  {}

  lemma RunFirst(s: Situation, p: Program, q: Program, st: Store)
    ensures var o := Run(s, p, st);
            Run(s, p + q, st) == if o.Continue? then Run(s, q, o.store) else o
  {
    ExecThen(s.engine, s.req, p, q, st);
  }

  lemma TrustedHolds(s: Situation, st: Store)
    ensures Holds(s.engine, s.req, st, TRUSTED) <==> s.req(TrustedIp) == "1"
  {}
}
