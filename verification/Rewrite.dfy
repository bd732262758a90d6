/**
 The part of nginx's configuration language that the policy compiler emits at server level: `set`,
 `if` and `return`, run from top to bottom. There is no `and`, `or` or nesting, so conditions are
 combined by concatenating flags into a string and comparing it.
 */
module Rewrite {
  import opened AnchoredRegex
  import opened NginxText

  /** Variables nginx fills in from the request. No program can set them. */
  datatype RequestVar =
    | RemoteAddr | CountryCode | QueryString | RequestUri | UserAgent | RequestMethod
    | BannedIp | BlockedCloud | TrustedIp | FilterSubUaBlocked | ChallengeCookie

  /** Variables the generated program sets. */
  datatype Local =
    | BlockReason | ExploitRuleId | BotCategory
    | GeoBlocked | IsSearchBot | SkipSecurity
    | GeoAllowedIp | GeoBlockCheck | GeoFinalBlock | GeoBlockFinal | GeoDirectBlock | GeoDirectFinal
    | ExploitQsBlock | ExploitQsRule | RfiBlock
    | PriorityAllowCloud | CloudBlockCheck
    | PriorityAllow | BlockBadBot | BadBotCheck | BlockAIBot | AIBotCheck
    | BlockSuspicious | SuspiciousCheck | BlockCustom | CustomCheck
    | FilterUaCheck
    | ChallengeCheck | ChallengeCheckFinal

  datatype Var = Of(req: RequestVar) | Own(local: Local)

  type Request = RequestVar -> string

  type Store = map<Local, string>

  datatype Part = Text(text: string) | Value(v: Var)

  datatype Test =
    | Equals(v: Var, text: string)
    | Like(v: Var, pattern: string)
    | NotLike(v: Var, pattern: string)
    | LikeNoCase(v: Var, pattern: string)

  datatype Action = Set(x: Local, parts: seq<Part>) | Return(code: int)

  datatype Instr = Do(action: Action) | If(test: Test, actions: seq<Action>)

  type Program = seq<Instr>

  datatype Outcome = Continue(store: Store) | Returned(code: int, store: Store)

  /** The regex engine: how user-written expressions match, with and without regard to case. */
  datatype Engine = Engine(exact: Regex, noCase: Regex)

  /** A variable that was never set reads as the empty string. */
  function Get(st: Store, x: Local): string {
    if x in st then st[x] else ""
  }

  function Read(req: Request, st: Store, v: Var): string {
    match v
    case Of(r) => req(r)
    case Own(x) => Get(st, x)
  }

  function Expand(req: Request, st: Store, parts: seq<Part>): string {
    if parts == [] then ""
    else
      var first := if parts[0].Text? then parts[0].text else Read(req, st, parts[0].v);
      first + Expand(req, st, parts[1..])
  }

  /** Whether an expression, as nginx reads it from the file, matches regardless of case. */
  predicate MatchesNoCase(e: Engine, pattern: string, value: string) {
    e.noCase(NginxValue(pattern), value)
  }

  predicate Holds(e: Engine, req: Request, st: Store, t: Test) {
    var value := Read(req, st, t.v);
    match t
    case Equals(_, text) => value == text
    case Like(_, pattern) => Matches(e.exact, pattern, value)
    case NotLike(_, pattern) => !Matches(e.exact, pattern, value)
    case LikeNoCase(_, pattern) => MatchesNoCase(e, pattern, value)
  }

  function Act(req: Request, st: Store, a: Action): Outcome {
    match a
    case Set(x, parts) => Continue(st[x := Expand(req, st, parts)])
    case Return(code) => Returned(code, st)
  }

  function ActAll(req: Request, st: Store, actions: seq<Action>): Outcome
    decreases actions
  {
    if actions == [] then Continue(st)
    else
      var first := Act(req, st, actions[0]);
      if first.Continue? then ActAll(req, first.store, actions[1..]) else first
  }

  function Step(e: Engine, req: Request, st: Store, i: Instr): Outcome {
    match i
    case Do(a) => Act(req, st, a)
    case If(t, actions) => if Holds(e, req, st, t) then ActAll(req, st, actions) else Continue(st)
  }

  function Exec(e: Engine, req: Request, p: Program, st: Store): Outcome {
    if p == [] then Continue(st)
    else
      var first := Step(e, req, st, p[0]);
      if first.Continue? then Exec(e, req, p[1..], first.store) else first
  }

  // ---- running programs piece by piece ----

  function Bind(e: Engine, req: Request, o: Outcome, q: Program): Outcome {
    if o.Continue? then Exec(e, req, q, o.store) else o
  }

  /** A program runs its first part, and the rest only if that did not return. */
  lemma {:induction false} ExecThen(e: Engine, req: Request, p: Program, q: Program, st: Store)
    ensures Exec(e, req, p + q, st) == Bind(e, req, Exec(e, req, p, st), q)
  {
    if p == [] {
      assert p + q == q;
    } else {
      assert (p + q)[1..] == p[1..] + q;
      var first := Step(e, req, st, p[0]);
      if first.Continue? { ExecThen(e, req, p[1..], q, first.store); }
    }
  }

  lemma ExecOne(e: Engine, req: Request, i: Instr, st: Store)
    ensures Exec(e, req, [i], st) == Step(e, req, st, i)
  {
    assert [i][1..] == [];
  }

  lemma ExpandText(req: Request, st: Store, s: string)
    ensures Expand(req, st, [Text(s)]) == s
  {
    assert [Text(s)][1..] == [];
    assert s + "" == s;
  }

  lemma ExpandOne(req: Request, st: Store, v: Var)
    ensures Expand(req, st, [Value(v)]) == Read(req, st, v)
  {
    assert [Value(v)][1..] == [];
    assert Read(req, st, v) + "" == Read(req, st, v);
  }

  lemma ExpandTwo(req: Request, st: Store, v: Var, w: Var)
    ensures Expand(req, st, [Value(v), Value(w)]) == Read(req, st, v) + Read(req, st, w)
  {
    assert [Value(v), Value(w)][1..] == [Value(w)];
    ExpandOne(req, st, w);
  }

  lemma ExpandThree(req: Request, st: Store, v: Var, w: Var, u: Var)
    ensures Expand(req, st, [Value(v), Value(w), Value(u)]) == Read(req, st, v) + Read(req, st, w) + Read(req, st, u)
  {
    assert [Value(v), Value(w), Value(u)][1..] == [Value(w), Value(u)];
    ExpandTwo(req, st, w, u);
  }

  // ---- constant assignments ----

  /** `set` to a constant. */
  function Assign(x: Local, s: string): Action {
    Set(x, [Text(s)])
  }

  datatype Assignment = To(x: Local, s: string)

  function Assigns(sets: seq<Assignment>): seq<Action> {
    if sets == [] then [] else [Assign(sets[0].x, sets[0].s)] + Assigns(sets[1..])
  }

  function Updated(st: Store, sets: seq<Assignment>): Store
    decreases sets
  {
    if sets == [] then st else Updated(st[sets[0].x := sets[0].s], sets[1..])
  }

  lemma {:induction false} ActAssigns(req: Request, st: Store, sets: seq<Assignment>, rest: seq<Action>)
    ensures ActAll(req, st, Assigns(sets) + rest) == ActAll(req, Updated(st, sets), rest)
    decreases sets
  {
    if sets == [] {
      assert Assigns(sets) + rest == rest;
    } else {
      ExpandText(req, st, sets[0].s);
      assert (Assigns(sets) + rest)[1..] == Assigns(sets[1..]) + rest;
      ActAssigns(req, st[sets[0].x := sets[0].s], sets[1..], rest);
    }
  }

  /** `if (test) { set ...; set ...; }` */
  function When(t: Test, sets: seq<Assignment>): Program {
    [If(t, Assigns(sets))]
  }

  /** `if (test) { set ...; return code; }` */
  function ReturnWhen(t: Test, sets: seq<Assignment>, code: int): Program {
    [If(t, Assigns(sets) + [Return(code)])]
  }

  function SetTo(x: Local, s: string): Program {
    [Do(Assign(x, s))]
  }

  lemma RunWhen(e: Engine, req: Request, st: Store, t: Test, sets: seq<Assignment>)
    ensures Exec(e, req, When(t, sets), st) == Continue(if Holds(e, req, st, t) then Updated(st, sets) else st)
  {
    ExecOne(e, req, When(t, sets)[0], st);
    ActAssigns(req, st, sets, []);
    assert Assigns(sets) + [] == Assigns(sets);
  }

  lemma RunReturnWhen(e: Engine, req: Request, st: Store, t: Test, sets: seq<Assignment>, code: int)
    ensures Exec(e, req, ReturnWhen(t, sets, code), st)
            == if Holds(e, req, st, t) then Returned(code, Updated(st, sets)) else Continue(st)
  {
    ExecOne(e, req, ReturnWhen(t, sets, code)[0], st);
    ActAssigns(req, st, sets, [Return(code)]);
    assert [Return(code)][1..] == [];
  }

  lemma RunSetTo(e: Engine, req: Request, st: Store, x: Local, s: string)
    ensures Exec(e, req, SetTo(x, s), st) == Continue(st[x := s])
  {
    ExecOne(e, req, SetTo(x, s)[0], st);
    ExpandText(req, st, s);
  }

  // ---- loops over lists of tests ----

  /** One `if` for each test, all with the same body. */
  function WhenEach(tests: seq<Test>, sets: seq<Assignment>): Program {
    if tests == [] then [] else When(tests[0], sets) + WhenEach(tests[1..], sets)
  }

  /** A test that only looks at the request. */
  predicate OnRequest(t: Test) {
    t.v.Of?
  }

  predicate HoldsOn(e: Engine, req: Request, t: Test) {
    Holds(e, req, map[], t)
  }

  predicate AnyHolds(e: Engine, req: Request, tests: seq<Test>) {
    exists t <- tests :: HoldsOn(e, req, t)
  }

  /** Assigning the same constants twice is assigning them once. */
  lemma UpdatedTwice(st: Store, sets: seq<Assignment>)
    requires |sets| <= 2 && (|sets| == 2 ==> sets[0].x != sets[1].x)
    ensures Updated(Updated(st, sets), sets) == Updated(st, sets)
  {
    UpdatedShort(st, sets);
    UpdatedShort(Updated(st, sets), sets);
  }

  lemma UpdatedShort(st: Store, sets: seq<Assignment>)
    ensures |sets| == 0 ==> Updated(st, sets) == st
    ensures |sets| == 1 ==> Updated(st, sets) == st[sets[0].x := sets[0].s]
    ensures |sets| == 2 ==> Updated(st, sets) == st[sets[0].x := sets[0].s][sets[1].x := sets[1].s]
    ensures |sets| == 3 ==>
              Updated(st, sets) == st[sets[0].x := sets[0].s][sets[1].x := sets[1].s][sets[2].x := sets[2].s]
  {
    if sets != [] {
      var st1 := st[sets[0].x := sets[0].s];
      if |sets| > 1 {
        var st2 := st1[sets[1].x := sets[1].s];
        assert Updated(st1, sets[1..]) == Updated(st2, sets[1..][1..]);
        if |sets| > 2 {
          assert Updated(st2, sets[1..][1..]) == Updated(st2[sets[2].x := sets[2].s], sets[1..][1..][1..]);
        }
      }
    }
  }

  /** The loop assigns exactly when one of its tests holds. */
  lemma {:induction false} RunWhenEach(e: Engine, req: Request, st: Store, tests: seq<Test>, sets: seq<Assignment>)
    requires forall t <- tests :: OnRequest(t)
    requires |sets| <= 2 && (|sets| == 2 ==> sets[0].x != sets[1].x)
    ensures Exec(e, req, WhenEach(tests, sets), st)
            == Continue(if AnyHolds(e, req, tests) then Updated(st, sets) else st)
    decreases tests
  {
    if tests != [] {
      RunWhen(e, req, st, tests[0], sets);
      ExecThen(e, req, When(tests[0], sets), WhenEach(tests[1..], sets), st);
      assert OnRequest(tests[0]);
      assert Holds(e, req, st, tests[0]) == HoldsOn(e, req, tests[0]);
      var next := if HoldsOn(e, req, tests[0]) then Updated(st, sets) else st;
      RunWhenEach(e, req, next, tests[1..], sets);
      UpdatedTwice(st, sets);
      assert AnyHolds(e, req, tests) <==> HoldsOn(e, req, tests[0]) || AnyHolds(e, req, tests[1..]) by {
        assert tests == [tests[0]] + tests[1..];
      }
    }
  }

  // ---- flags ----

  function Bit(b: bool): string {
    if b then "1" else "0"
  }

  /** A one-character flag in front of anything decodes uniquely. */
  lemma DecodeFlagFirst(flag: bool, rest: string)
    ensures Bit(flag) + rest == "01" <==> !flag && rest == "1"
  {
    var s := Bit(flag) + rest;
    assert s[1..] == rest;
    assert s == "01" ==> s[0] == '0' && s[1..] == "1";
    assert !flag && rest == "1" ==> s == "0" + "1";
  }

  /** And so does one at the end. */
  lemma DecodeFlagLast(rest: string, flag: bool)
    ensures rest + Bit(flag) == "10" <==> rest == "1" && !flag
  {
    var s := rest + Bit(flag);
    assert s[..|rest|] == rest;
    assert s == "10" ==> s[1] == '0' && s[..1] == "1";
    assert !flag && rest == "1" ==> s == "1" + "0";
  }

  /** An optional letter before a flag. */
  lemma DecodeLetterFlag(letter: bool, skip: bool)
    ensures (if letter then "Y" else "") + Bit(skip) == "Y0" <==> letter && !skip
  {
    var s := (if letter then "Y" else "") + Bit(skip);
    assert s == "Y0" ==> |s| == 2 && s[0] == 'Y' && s[1] == '0';
    assert letter && !skip ==> s == "Y" + "0";
  }

  /** An optional letter between two flags. */
  lemma DecodeFlagLetterFlag(allowed: bool, letter: bool, skip: bool)
    ensures Bit(allowed) + (if letter then "Y" else "") + Bit(skip) == "0Y0" <==> !allowed && letter && !skip
  {
    var s := Bit(allowed) + (if letter then "Y" else "") + Bit(skip);
    assert s == "0Y0" ==> |s| == 3 && s[0] == '0' && s[1] == 'Y' && s[2] == '0';
    assert !allowed && letter && !skip ==> s == "0" + "Y" + "0";
  }

  lemma BitInjective(a: bool, b: bool)
    ensures Bit(a) == Bit(b) <==> a == b
    ensures Bit(a) == "1" <==> a
    ensures Bit(a) == "0" <==> !a
  {
    assert "1" != "0" by { assert "1"[0] != "0"[0]; }
  }
}
