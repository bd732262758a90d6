/**
 Firewall rule exclusions: the merged list that goes into a host's ModSecurity file, and the rule
 browser that shows which rules are off.
 */
module Waf {
  import opened Decimals
  import opened Dedup
  import opened GoStrings
  import opened Options

  // ---- exclusions ----

  datatype Exclusion = Exclusion(
    id: string, proxyHostId: string, ruleId: int, category: string, description: string,
    reason: string, disabledBy: string, createdAt: int)

  datatype GlobalExclusion = GlobalExclusion(
    id: string, ruleId: int, category: string, description: string,
    reason: string, disabledBy: string, createdAt: int, updatedAt: int)

  /** A global exclusion in the form of a host's own. */
  function AsHost(g: GlobalExclusion): Exclusion {
    Exclusion(g.id, "global", g.ruleId, g.category, g.description, g.reason + " (global)", g.disabledBy, g.createdAt)
  }

  predicate Excludes(hosts: seq<Exclusion>, ruleId: int) {
    exists x <- hosts :: x.ruleId == ruleId
  }

  predicate ExcludesGlobally(globals: seq<GlobalExclusion>, ruleId: int) {
    exists g <- globals :: g.ruleId == ruleId
  }

  /** The globals whose rule the host does not exclude itself. */
  function Uncovered(globals: seq<GlobalExclusion>, hosts: seq<Exclusion>): seq<Exclusion> {
    if globals == [] then []
    else
      var (init, last) := (globals[..|globals| - 1], globals[|globals| - 1]);
      Uncovered(init, hosts) + if Excludes(hosts, last.ruleId) then [] else [AsHost(last)]
  }

  function Merged(globals: seq<GlobalExclusion>, hosts: seq<Exclusion>): seq<Exclusion> {
    hosts + Uncovered(globals, hosts)
  }

  method AppendUncovered(globals: seq<GlobalExclusion>, hosts: seq<Exclusion>) returns (merged: seq<Exclusion>)
    ensures merged == Merged(globals, hosts)
  {
    var hostExclusionMap: map<int, bool> := map[];
    for i := 0 to |hosts|
      invariant forall id :: id in hostExclusionMap <==> exists j :: 0 <= j < i && hosts[j].ruleId == id
    {
      hostExclusionMap := hostExclusionMap[hosts[i].ruleId := true];
    }
    assert forall id :: id in hostExclusionMap <==> Excludes(hosts, id);
    merged := hosts;
    for i := 0 to |globals|
      invariant merged == hosts + Uncovered(globals[..i], hosts)
    {
      assert globals[..i + 1][..i] == globals[..i];
      if globals[i].ruleId !in hostExclusionMap {
        merged := merged + [AsHost(globals[i])];
      }
    }
    assert globals[..|globals|] == globals;
  }

  method MergeExclusions(globals: seq<GlobalExclusion>, hosts: seq<Exclusion>) returns (merged: seq<Exclusion>)
    ensures merged == Merged(globals, hosts)
  {
    merged := AppendUncovered(globals, hosts);
  }

  /** The restore path fetches the two lists itself; either fetch may fail, and so may there be no repository at all. */
  method GetMergedWAFExclusions(
      hasRepo: bool, hostFetch: Option<seq<Exclusion>>, globalFetch: Option<seq<GlobalExclusion>>)
    returns (merged: seq<Exclusion>)
    ensures hasRepo && hostFetch.Some? && globalFetch.Some? ==> merged == Merged(globalFetch.value, hostFetch.value)
    ensures hasRepo && hostFetch.None? && globalFetch.Some? ==> merged == Merged(globalFetch.value, [])
    ensures hasRepo && hostFetch.Some? && globalFetch.None? ==> merged == hostFetch.value
    ensures !hasRepo || (hostFetch.None? && globalFetch.None?) ==> merged == []
  {
    if !hasRepo {
      return [];
    }
    var hosts := if hostFetch.Some? then hostFetch.value else [];
    if globalFetch.None? {
      return hosts;
    }
    merged := AppendUncovered(globalFetch.value, hosts);
  }

  lemma {:induction false} UncoveredIds(globals: seq<GlobalExclusion>, hosts: seq<Exclusion>, ruleId: int)
    ensures Excludes(Uncovered(globals, hosts), ruleId) <==>
            ExcludesGlobally(globals, ruleId) && !Excludes(hosts, ruleId)
  {
    if globals != [] {
      var (init, last) := (globals[..|globals| - 1], globals[|globals| - 1]);
      UncoveredIds(init, hosts, ruleId);
      var tail := if Excludes(hosts, last.ruleId) then [] else [AsHost(last)];
      ExcludesConcat(Uncovered(init, hosts), tail, ruleId);
      assert Excludes(tail, ruleId) <==> tail != [] && last.ruleId == ruleId;
      assert globals == init + [last];
      assert ExcludesGlobally(globals, ruleId) <==> ExcludesGlobally(init, ruleId) || last.ruleId == ruleId;
    }
  }

  lemma ExcludesConcat(a: seq<Exclusion>, b: seq<Exclusion>, ruleId: int)
    ensures Excludes(a + b, ruleId) <==> Excludes(a, ruleId) || Excludes(b, ruleId)
  {
    assert forall x :: x in a + b <==> x in a || x in b;
  }

  /** The merged list excludes what either list does, and no global entry repeats a rule of the host. */
  lemma MergedExcludes(globals: seq<GlobalExclusion>, hosts: seq<Exclusion>, ruleId: int)
    ensures Excludes(Merged(globals, hosts), ruleId) <==> Excludes(hosts, ruleId) || ExcludesGlobally(globals, ruleId)
    ensures !(Excludes(hosts, ruleId) && Excludes(Merged(globals, hosts)[|hosts|..], ruleId))
  {
    UncoveredIds(globals, hosts, ruleId);
    ExcludesConcat(hosts, Uncovered(globals, hosts), ruleId);
    assert Merged(globals, hosts)[|hosts|..] == Uncovered(globals, hosts);
  }

  /** A global exclusion in the merged list: marked as global, otherwise with its own number, texts and author. */
  ghost predicate StandsFor(x: Exclusion, g: GlobalExclusion) {
    && x.id == g.id && x.proxyHostId == "global" && x.ruleId == g.ruleId
    && x.category == g.category && x.description == g.description && x.reason == g.reason + " (global)"
    && x.disabledBy == g.disabledBy && x.createdAt == g.createdAt
  }

  /** It stands for one of the globals, whose rule the host does not list. */
  ghost predicate StandsForOne(x: Exclusion, globals: seq<GlobalExclusion>, hosts: seq<Exclusion>) {
    exists g <- globals :: !Excludes(hosts, g.ruleId) && StandsFor(x, g)
  }

  lemma {:induction false} UncoveredEntries(globals: seq<GlobalExclusion>, hosts: seq<Exclusion>)
    ensures var more := Uncovered(globals, hosts);
            && (forall g <- globals :: !Excludes(hosts, g.ruleId) ==> exists x <- more :: StandsFor(x, g))
            && forall x <- more :: StandsForOne(x, globals, hosts)
  {
    if globals != [] {
      var (init, last) := (globals[..|globals| - 1], globals[|globals| - 1]);
      UncoveredEntries(init, hosts);
      assert globals == init + [last];
      assert StandsFor(AsHost(last), last);
      if !Excludes(hosts, last.ruleId) {
        assert Uncovered(globals, hosts) == Uncovered(init, hosts) + [AsHost(last)];
        assert StandsForOne(AsHost(last), globals, hosts);
      }
      forall x | x in Uncovered(init, hosts) ensures StandsForOne(x, globals, hosts) {
        assert StandsForOne(x, init, hosts);
      }
    }
  }

  /** The globals come in their order. */
  lemma {:induction false} UncoveredConcat(a: seq<GlobalExclusion>, b: seq<GlobalExclusion>, hosts: seq<Exclusion>)
    ensures Uncovered(a + b, hosts) == Uncovered(a, hosts) + Uncovered(b, hosts)
  {
    if b == [] {
      assert a + b == a;
    } else {
      var init := b[..|b| - 1];
      assert (a + b)[..|a + b| - 1] == a + init;
      UncoveredConcat(a, init, hosts);
    }
  }

  /** The merged list is the host's entries, followed by one for each global rule the host does not list. */
  lemma MergedContents(globals: seq<GlobalExclusion>, hosts: seq<Exclusion>)
    ensures var merged := Merged(globals, hosts);
            && |hosts| <= |merged| && merged[..|hosts|] == hosts
            && (forall g <- globals :: !Excludes(hosts, g.ruleId) ==> exists x <- merged :: StandsFor(x, g))
            && forall x <- merged[|hosts|..] :: StandsForOne(x, globals, hosts)
  {
    hide StandsFor, StandsForOne, Uncovered, Excludes;
    UncoveredEntries(globals, hosts);
    var more := Uncovered(globals, hosts);
    assert Merged(globals, hosts)[|hosts|..] == more;
    assert forall x <- more :: x in hosts + more;
  }

  /** Globals that are all covered add nothing, so merging the same globals again changes nothing. */
  lemma {:induction false} MergeTwice(globals: seq<GlobalExclusion>, hosts: seq<Exclusion>)
    ensures Merged(globals, Merged(globals, hosts)) == Merged(globals, hosts)
  {
    var m := Merged(globals, hosts);
    forall g | g in globals ensures Excludes(m, g.ruleId) {
      MergedExcludes(globals, hosts, g.ruleId);
    }
    AllCovered(globals, m);
    assert m + [] == m;
  }

  lemma {:induction false} AllCovered(globals: seq<GlobalExclusion>, hosts: seq<Exclusion>)
    requires forall g <- globals :: Excludes(hosts, g.ruleId)
    ensures Uncovered(globals, hosts) == []
  {
    if globals != [] {
      AllCovered(globals[..|globals| - 1], hosts);
    }
  }

  predicate DistinctRules(xs: seq<Exclusion>) {
    forall i, j :: 0 <= i < j < |xs| ==> xs[i].ruleId != xs[j].ruleId
  }

  predicate DistinctGlobalRules(gs: seq<GlobalExclusion>) {
    forall i, j :: 0 <= i < j < |gs| ==> gs[i].ruleId != gs[j].ruleId
  }

  /** Two lists without repeated rules merge into one without. */
  lemma {:induction false} MergedDistinct(globals: seq<GlobalExclusion>, hosts: seq<Exclusion>)
    requires DistinctRules(hosts) && DistinctGlobalRules(globals)
    ensures DistinctRules(Merged(globals, hosts))
  {
    if globals == [] {
      assert Merged(globals, hosts) == hosts;
    } else {
      var (init, last) := (globals[..|globals| - 1], globals[|globals| - 1]);
      MergedDistinct(init, hosts);
      var (m, tail) := (Merged(init, hosts), if Excludes(hosts, last.ruleId) then [] else [AsHost(last)]);
      assert Merged(globals, hosts) == m + tail;
      if tail != [] {
        assert !ExcludesGlobally(init, last.ruleId);
        MergedExcludes(init, hosts, last.ruleId);
        forall i | 0 <= i < |m| ensures m[i].ruleId != last.ruleId {
          assert m[i] in m;
        }
      }
    }
  }

  // ---- the host's ModSecurity file ----

  datatype HostWaf = HostWaf(mode: string, paranoiaLevel: int, anomalyThreshold: int)

  /** What the template is filled with: the engine mode, the tuning, and one SecRuleRemoveById for each exclusion. */
  datatype HostWafFile = HostWafFile(
    mode: string, paranoiaLevel: int, anomalyThreshold: int, removed: seq<int>, allowedIPs: seq<string>)

  function RuleIds(xs: seq<Exclusion>): (ids: seq<int>)
    ensures |ids| == |xs|
  {
    if xs == [] then [] else [xs[0].ruleId] + RuleIds(xs[1..])
  }

  method GenerateHostWAFConfig(host: HostWaf, exclusions: seq<Exclusion>, allowedIPs: seq<string>)
    returns (file: HostWafFile)
    ensures file.mode == if host.mode == "detection" then "DetectionOnly" else "On"
    ensures 1 <= file.paranoiaLevel <= 4 && file.anomalyThreshold >= 1
    ensures file.paranoiaLevel == host.paranoiaLevel || (file.paranoiaLevel == 1 && host.paranoiaLevel !in {1, 2, 3, 4})
    ensures file.anomalyThreshold == host.anomalyThreshold || (file.anomalyThreshold == 5 && host.anomalyThreshold < 1)
    ensures file.removed == RuleIds(exclusions) && file.allowedIPs == allowedIPs
  {
    var mode := "On";
    if host.mode == "detection" {
      mode := "DetectionOnly";
    }
    var paranoiaLevel := host.paranoiaLevel;
    if paranoiaLevel < 1 || paranoiaLevel > 4 {
      paranoiaLevel := 1;
    }
    var anomalyThreshold := host.anomalyThreshold;
    if anomalyThreshold < 1 {
      anomalyThreshold := 5;
    }
    file := HostWafFile(mode, paranoiaLevel, anomalyThreshold, RuleIds(exclusions), allowedIPs);
  }

  // ---- the rule browser ----

  datatype Rule = Rule(
    id: int, enabled: bool, globallyDisabled: bool,
    exclusion: Option<Exclusion>, globalExclusion: Option<GlobalExclusion>)

  /** The lookup tables built from the two lists; where a rule is listed twice, the later entry stays. */
  datatype Tables = Tables(
    host: map<int, bool>, hostEntries: map<int, Exclusion>,
    globals: map<int, bool>, globalEntries: map<int, GlobalExclusion>)

  ghost predicate GlobalTables(t: Tables, globals: seq<GlobalExclusion>) {
    && (forall id :: id in t.globals <==> ExcludesGlobally(globals, id))
    && t.globalEntries.Keys == t.globals.Keys
    && (forall id <- t.globalEntries :: t.globalEntries[id] in globals && t.globalEntries[id].ruleId == id)
  }

  ghost predicate HostTables(t: Tables, hosts: seq<Exclusion>) {
    && (forall id :: id in t.host <==> Excludes(hosts, id))
    && t.hostEntries.Keys == t.host.Keys
    && (forall id <- t.hostEntries :: t.hostEntries[id] in hosts && t.hostEntries[id].ruleId == id)
  }

  ghost predicate TablesFor(t: Tables, globals: seq<GlobalExclusion>, hosts: seq<Exclusion>) {
    GlobalTables(t, globals) && HostTables(t, hosts)
  }

  function WithGlobal(t: Tables, g: GlobalExclusion): Tables {
    t.(globals := t.globals[g.ruleId := true], globalEntries := t.globalEntries[g.ruleId := g])
  }

  function WithHost(t: Tables, x: Exclusion): Tables {
    t.(host := t.host[x.ruleId := true], hostEntries := t.hostEntries[x.ruleId := x])
  }

  lemma OneMoreGlobal(t: Tables, globals: seq<GlobalExclusion>, g: GlobalExclusion)
    requires GlobalTables(t, globals)
    ensures GlobalTables(WithGlobal(t, g), globals + [g])
  {
    assert forall x :: x in globals + [g] <==> x in globals || x == g;
  }

  lemma OneMoreHost(t: Tables, hosts: seq<Exclusion>, x: Exclusion)
    requires HostTables(t, hosts)
    ensures HostTables(WithHost(t, x), hosts + [x])
  {
    assert forall y :: y in hosts + [x] <==> y in hosts || y == x;
  }

  method BuildTables(globals: seq<GlobalExclusion>, hosts: seq<Exclusion>) returns (t: Tables)
    ensures TablesFor(t, globals, hosts)
  {
    t := Tables(map[], map[], map[], map[]);
    for i := 0 to |globals|
      invariant HostTables(t, []) && GlobalTables(t, globals[..i])
    {
      OneMoreGlobal(t, globals[..i], globals[i]);
      assert globals[..i + 1] == globals[..i] + [globals[i]];
      t := WithGlobal(t, globals[i]);
    }
    assert globals[..|globals|] == globals;
    for i := 0 to |hosts|
      invariant GlobalTables(t, globals) && HostTables(t, hosts[..i])
    {
      OneMoreHost(t, hosts[..i], hosts[i]);
      assert hosts[..i + 1] == hosts[..i] + [hosts[i]];
      t := WithHost(t, hosts[i]);
    }
    assert hosts[..|hosts|] == hosts;
  }

  /** The white space of the regular expression class `\s`. */
  predicate IsColonOrSpace(c: char) {
    c == ':' || c == ' ' || c == '\t' || c == '\n' || c == '\r' || c == FF
  }

  function SkipSeparators(s: string): string {
    if s != "" && IsColonOrSpace(s[0]) then SkipSeparators(s[1..]) else s
  }

  function SkipQuote(s: string): string {
    if s != "" && (s[0] == '\'' || s[0] == '"') then s[1..] else s
  }

  function SixDigits(s: string): Option<int> {
    if |s| >= 6 && AllDigits(s[..6]) then Some(ReadDecimal(s[..6])) else None
  }

  /** The rule number if `id`, in any case, starts here: optional separators, an optional quote, six digits. */
  function IdHere(s: string): Option<int> {
    if |s| >= 2 && s[0] in "iI" && s[1] in "dD" then SixDigits(SkipQuote(SkipSeparators(s[2..]))) else None
  }

  /** The leftmost rule number of a line. */
  function FindId(line: string): Option<int>
    decreases |line|
  {
    if line == "" then None
    else if IdHere(line).Some? then IdHere(line)
    else FindId(line[1..])
  }

  /** A rule number always fits: converting it cannot fail. */
  lemma {:induction false} FoundIdFits(line: string)
    ensures FindId(line).Some? ==> 0 <= FindId(line).value < 1_000_000
    decreases |line|
  {
    if line != "" {
      FoundIdFits(line[1..]);
      SixDigitsFit(SkipQuote(SkipSeparators(if |line| >= 2 then line[2..] else "")));
    }
  }

  lemma SixDigitsFit(s: string)
    ensures SixDigits(s).Some? ==> 0 <= SixDigits(s).value < 1_000_000
  {
    if |s| >= 6 && AllDigits(s[..6]) {
      DigitsFit(s[..6], 6, 1_000_000);
    }
  }

  lemma {:induction false} DigitsFit(s: string, n: nat, bound: nat)
    requires AllDigits(s) && |s| == n && n <= 6
    requires bound == [1, 10, 100, 1000, 10_000, 100_000, 1_000_000][n]
    ensures ReadDecimal(s) < bound
  {
    if n > 0 {
      DigitsFit(s[..n - 1], n - 1, bound / 10);
      assert IsDigit(s[n - 1]);
    }
  }

  /** No number can be read before place `k`. */
  predicate NoIdBefore(line: string, k: nat)
    requires k <= |line|
  {
    k == 0 || (IdHere(line) == None && NoIdBefore(line[1..], k - 1))
  }

  lemma {:induction false} NoIdBeforeMeans(line: string, k: nat)
    requires k <= |line|
    ensures NoIdBefore(line, k) <==> forall j :: 0 <= j < k ==> IdHere(line[j..]) == None
  {
    hide IdHere;
    if k > 0 {
      NoIdBeforeMeans(line[1..], k - 1);
      assert line[0..] == line;
      forall j | 0 <= j < k - 1 ensures line[1..][j..] == line[j + 1..] {}
      if forall j :: 0 <= j < k ==> IdHere(line[j..]) == None {
        forall j | 0 <= j < k - 1 ensures IdHere(line[1..][j..]) == None {
          assert IdHere(line[j + 1..]) == None;
        }
      } else {
        var j :| 0 <= j < k && IdHere(line[j..]) != None;
        assert j > 0 ==> line[1..][j - 1..] == line[j..];
      }
    }
  }

  /** The place found by the search, if there is one. */
  lemma {:induction false} FoundIdHasPlace(line: string, n: int) returns (k: nat)
    requires FindId(line) == Some(n)
    ensures k < |line| && IdHere(line[k..]) == Some(n) && NoIdBefore(line, k)
    decreases |line|
  {
    hide IdHere;
    if IdHere(line).Some? {
      k := 0;
      assert line[0..] == line;
    } else {
      k := FoundIdHasPlace(line[1..], n);
      assert line[1..][k..] == line[k + 1..];
      k := k + 1;
    }
  }

  /** A place with nothing readable before it is the one the search finds. */
  lemma {:induction false} FirstPlaceIsFound(line: string, k: nat)
    requires k < |line| && IdHere(line[k..]).Some? && NoIdBefore(line, k)
    ensures FindId(line) == IdHere(line[k..])
    decreases |line|
  {
    hide IdHere;
    if k == 0 {
      assert line[0..] == line;
    } else {
      assert line[1..][k - 1..] == line[k..];
      FirstPlaceIsFound(line[1..], k - 1);
    }
  }

  /** The number found is that of the first place in the line where one can be read. */
  lemma FoundIdIsLeftmost(line: string, n: int)
    ensures FindId(line) == Some(n) <==>
            exists k :: 0 <= k < |line| && IdHere(line[k..]) == Some(n) && NoIdBefore(line, k)
  {
    hide FindId, IdHere, NoIdBefore;
    if FindId(line) == Some(n) {
      var k := FoundIdHasPlace(line, n);
    }
    if k :| 0 <= k < |line| && IdHere(line[k..]) == Some(n) && NoIdBefore(line, k) {
      FirstPlaceIsFound(line, k);
    }
  }

  /** `id:` and six digits are found, quoted or not, wherever they stand, if no number can be read before. */
  lemma IdIsFound(before: string, quote: string, digits: string, after: string)
    requires quote in {"", "'", "\""} && |digits| == 6 && AllDigits(digits)
    requires NoIdBefore(before + ("id:" + quote + digits + after), |before|)
    ensures FindId(before + ("id:" + quote + digits + after)) == Some(ReadDecimal(digits))
  {
    var text := "id:" + quote + digits + after;
    assert (before + text)[|before|..] == text;
    IdReads(quote, digits, after);
    FoundIdIsLeftmost(before + text, ReadDecimal(digits));
  }

  /** A word such as `Action` before it does not matter: only `id` itself could be mistaken. */
  lemma QuotedActionId(digits: string, after: string)
    requires |digits| == 6 && AllDigits(digits)
    ensures FindId("SecAction \"" + ("id:" + digits + after)) == Some(ReadDecimal(digits))
  {
    var (before, text) := ("SecAction \"", "id:" + digits + after);
    assert "id:" + "" + digits + after == text;
    forall j | 0 <= j < |before| ensures IdHere((before + text)[j..]) == None {
      var rest := (before + text)[j..];
      assert rest[0] == before[j] && (j + 1 < |before| ==> rest[1] == before[j + 1]);
      assert before[j] in "iI" ==> j == 6 && before[7] == 'o';
    }
    NoIdBeforeMeans(before + text, |before|);
    IdIsFound(before, "", digits, after);
  }

  lemma SeparatorsStop(s: string)
    requires s != "" && !IsColonOrSpace(s[0])
    ensures SkipSeparators(":" + s) == s
  {
    assert (":" + s)[1..] == s;
    assert SkipSeparators(s) == s;
  }

  lemma QuoteSkipped(quote: string, s: string)
    requires quote in {"", "'", "\""} && s != "" && IsDigit(s[0])
    ensures quote + s != "" && !IsColonOrSpace((quote + s)[0]) && SkipQuote(quote + s) == s
  {
    if quote == "" {
      assert quote + s == s;
    } else {
      assert (quote + s)[1..] == s;
    }
  }

  lemma IdReads(quote: string, digits: string, after: string)
    requires quote in {"", "'", "\""}
    requires |digits| == 6 && AllDigits(digits)
    ensures IdHere("id:" + quote + digits + after) == Some(ReadDecimal(digits))
  {
    hide SkipSeparators, SkipQuote, ReadDecimal;
    var (text, s) := ("id:" + quote + digits + after, digits + after);
    assert IsDigit(digits[0]);
    QuoteSkipped(quote, s);
    SeparatorsStop(quote + s);
    assert text == "id" + (":" + (quote + s));
    assert text[2..] == ":" + (quote + s);
    assert s[..6] == digits;
  }

  /** The rule number a line declares; comments and blank lines declare none. */
  function RuleOn(line: string): Option<int> {
    var trimmed := TrimSpace(line);
    if HasPrefix(trimmed, "#") || trimmed == "" then None else FindId(line)
  }

  function Declared(lines: seq<string>): seq<int> {
    if lines == [] then []
    else
      var last := RuleOn(lines[|lines| - 1]);
      Declared(lines[..|lines| - 1]) + if last.Some? then [last.value] else []
  }

  /** Continued lines are joined before the file is cut into lines. */
  function LogicalLines(content: string): seq<string> {
    Split(ReplaceAll(ReplaceAll(content, "\\\n", " "), "\\\r\n", " "), '\n')
  }

  function Entry<V>(m: map<int, V>, id: int): Option<V> {
    if id in m then Some(m[id]) else None
  }

  function Shown(t: Tables, id: int): Rule {
    Rule(id, !(id in t.host || id in t.globals), id in t.globals, Entry(t.hostEntries, id), Entry(t.globalEntries, id))
  }

  function ShownAll(t: Tables, ids: seq<int>): (rules: seq<Rule>)
    ensures |rules| == |ids|
    ensures forall k :: 0 <= k < |ids| ==> rules[k] == Shown(t, ids[k])
  {
    seq(|ids|, k requires 0 <= k < |ids| => Shown(t, ids[k]))
  }

  method ParseRulesFromFile(content: string, t: Tables) returns (rules: seq<Rule>)
    ensures rules == ShownAll(t, FirstOccurrences(Declared(LogicalLines(content))))
  {
    hide RuleOn, FirstOccurrences, LogicalLines, Shown;
    rules := [];
    var seen: map<int, bool> := map[];
    var lines := LogicalLines(content);
    NothingDeclared();
    assert lines[..0] == [];
    for i := 0 to |lines|
      invariant forall id :: id in seen <==> id in Declared(lines[..i])
      invariant rules == ShownAll(t, FirstOccurrences(Declared(lines[..i])))
    {
      ghost var before := Declared(lines[..i]);
      assert lines[..i + 1][..i] == lines[..i];
      var id := RuleOn(lines[i]);
      if id.None? {
        assert Declared(lines[..i + 1]) == before;
        continue;
      }
      assert Declared(lines[..i + 1]) == before + [id.value];
      FirstOccurrencesSnoc(before, id.value);
      if id.value in seen {
        assert FirstOccurrences(before) + [] == FirstOccurrences(before);
        continue;
      }
      seen := seen[id.value := true];
      rules := rules + [Shown(t, id.value)];
      assert rules == ShownAll(t, FirstOccurrences(before) + [id.value]);
    }
    assert lines[..|lines|] == lines;
  }

  lemma NothingDeclared()
    ensures FirstOccurrences(Declared([])) == []
  {}

  function RulesOf(content: string, t: Tables): seq<Rule> {
    ShownAll(t, FirstOccurrences(Declared(LogicalLines(content))))
  }

  /** Every rule a file declares is shown, and only once. */
  lemma EachRuleOnce(content: string, t: Tables)
    ensures var rules := RulesOf(content, t);
            && (forall id :: id in Declared(LogicalLines(content)) <==> exists r <- rules :: r.id == id)
            && forall i, j :: 0 <= i < j < |rules| ==> rules[i].id != rules[j].id
  {
    hide FirstOccurrences, Declared, LogicalLines;
    var ids := Declared(LogicalLines(content));
    var rules := RulesOf(content, t);
    NothingLost(ids);
    NothingTwice(ids);
    var kept := FirstOccurrences(ids);
    forall id ensures id in ids <==> exists r <- rules :: r.id == id {
      if id in ids {
        var k :| 0 <= k < |kept| && kept[k] == id;
        assert rules[k] in rules;
      }
    }
  }

  /**
   The browser tells the truth: a rule is shown as disabled exactly when the file generated for the
   host removes it, and the entries shown with it are the ones that did it.
   */
  lemma ShownDisabledIffRemoved(t: Tables, globals: seq<GlobalExclusion>, hosts: seq<Exclusion>, id: int)
    requires TablesFor(t, globals, hosts)
    ensures var r := Shown(t, id);
            && (!r.enabled <==> id in RuleIds(Merged(globals, hosts)))
            && (r.globallyDisabled <==> ExcludesGlobally(globals, id))
            && match r.exclusion {
                 case Some(x) => x in hosts && x.ruleId == id
                 case None => !Excludes(hosts, id)
               }
            && match r.globalExclusion {
                 case Some(g) => g in globals && g.ruleId == id
                 case None => !ExcludesGlobally(globals, id)
               }
  {
    MergedExcludes(globals, hosts, id);
    RuleIdsOf(Merged(globals, hosts), id);
  }

  lemma {:induction false} RuleIdsOf(xs: seq<Exclusion>, id: int)
    ensures id in RuleIds(xs) <==> Excludes(xs, id)
  {
    if xs != [] {
      RuleIdsOf(xs[1..], id);
      assert xs == [xs[0]] + xs[1..];
      ExcludesConcat([xs[0]], xs[1..], id);
    }
  }
}
