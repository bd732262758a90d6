/** The text of a host's ModSecurity file, and what ModSecurity reads in it: which rules are removed. */
module WafFile {
  import opened Decimals
  import opened GoStrings
  import opened IncludeFiles
  import opened Waf

  function IntText(n: int): string {
    if n < 0 then "-" + Decimal(-n) else Decimal(n)
  }

  const REMOVE := Form("SecRuleRemoveById ", "")

  /** One exclusion: two comments and the directive. */
  function ExclusionLines(x: Exclusion): seq<string> {
    [
      "",
      "# Rule " + (IntText(x.ruleId) + ": " + x.description + " (" + x.category + ")"),
      "# Reason: " + x.reason,
      Line(REMOVE, IntText(x.ruleId))
    ]
  }

  function AllExclusionLines(xs: seq<Exclusion>): seq<string> {
    if xs == [] then [] else ExclusionLines(xs[0]) + AllExclusionLines(xs[1..])
  }

  const ACTION := "SecAction " + "\"id:900"
  const PARANOIA := ACTION + "000,phase:1,pass," + "t:none,nolog,setvar:" + "tx.blocking_paranoia" + "_level="
  const INBOUND := ACTION + "110,phase:1,pass," + "t:none,nolog,setvar:" + "tx.inbound_anomaly_" + "score_threshold="
  const OUTBOUND := ",setvar:tx.outbound" + "_anomaly_score_" + "threshold="

  function TuningLines(file: HostWafFile): seq<string> {
    var threshold := IntText(file.anomalyThreshold);
    [
      PARANOIA + IntText(file.paranoiaLevel) + "\"",
      INBOUND + threshold + OUTBOUND + threshold + "\""
    ]
  }

  const ALLOW := "SecRule REMOTE_ADDR" + " \"@ipMatch "
  const ALLOW_END := "\" \"id:900900,phase:" + "1,pass,nolog,ctl:rule" + "Engine=Off\""

  function AllowLines(ips: seq<string>): seq<string> {
    if ips == [] then [] else [ALLOW + Join(ips, ",") + ALLOW_END]
  }

  /** The comments at the top and over each section, whose wording is left open. */
  datatype Notes = Notes(top: seq<string>, allow: seq<string>, exclusions: seq<string>, engine: seq<string>)

  predicate AreComments(n: Notes) {
    Comments(n.top) && Comments(n.allow) && Comments(n.exclusions) && Comments(n.engine)
  }

  function FileLines(n: Notes, file: HostWafFile, xs: seq<Exclusion>): seq<string> {
    n.top + TuningLines(file)
    + (n.allow + AllowLines(file.allowedIPs))
    + (n.exclusions + AllExclusionLines(xs))
    + (n.engine + ["SecRuleEngine " + file.mode])
  }

  // ---- reading back ----

  /** The texts an administrator may enter, on one line each. */
  predicate SingleLine(x: Exclusion) {
    OneLine(x.description) && OneLine(x.category) && OneLine(x.reason)
  }

  lemma OneLineConcat(a: string, b: string)
    ensures OneLine(a + b) <==> OneLine(a) && OneLine(b)
  {
    assert forall c :: c in a + b <==> c in a || c in b;
  }

  lemma DecimalOneLine(n: nat)
    ensures OneLine(Decimal(n))
  {
    DecimalReadsBack(n);
    forall k | 0 <= k < |Decimal(n)| ensures Decimal(n)[k] != '\n' {
      assert IsDigit(Decimal(n)[k]);
    }
  }

  lemma IntTextOneLine(n: int)
    ensures OneLine(IntText(n))
  {
    DecimalOneLine(if n < 0 then -n else n);
    OneLineConcat("-", Decimal(if n < 0 then -n else n));
  }

  /** Different rules have different numbers. */
  lemma IntTextInjective(m: int, n: int)
    ensures IntText(m) == IntText(n) <==> m == n
  {
    var (p, q) := (if m < 0 then -m else m, if n < 0 then -n else n);
    DecimalReadsBack(p);
    DecimalReadsBack(q);
    if IntText(m) == IntText(n) {
      assert IsDigit(Decimal(p)[0]) && IsDigit(Decimal(q)[0]);
      assert m < 0 ==> IntText(m)[0] == '-' && IntText(m)[1..] == Decimal(p);
      assert n < 0 ==> IntText(n)[0] == '-' && IntText(n)[1..] == Decimal(q);
    }
  }

  function IdTexts(xs: seq<Exclusion>): (ts: seq<string>)
    ensures |ts| == |xs|
  {
    if xs == [] then [] else [IntText(xs[0].ruleId)] + IdTexts(xs[1..])
  }

  /** What a text with line breaks adds from its second line on. */
  function StrayAs(f: Form, text: string): seq<string> {
    ReadLines(f, Split(text, '\n')[1..])
  }

  function Stray(text: string): seq<string> {
    StrayAs(REMOVE, text)
  }

  /** What the two comments of an exclusion add. */
  function StrayOf(x: Exclusion): seq<string> {
    Stray(ExclusionLines(x)[1]) + Stray(ExclusionLines(x)[2])
  }

  /** The first line of a text begins as the text does, up to its first line break. */
  lemma {:induction false} FirstPiece(text: string, k: nat)
    requires k < |text| && OneLine(text[..k + 1])
    ensures k < |Split(text, '\n')[0]| && Split(text, '\n')[0][k] == text[k] && OneLine(Split(text, '\n')[0])
  {
    SplitHasNoSeparator(text, '\n');
    assert text[0] == text[..k + 1][0];
    if k > 0 {
      assert text[1..][..k] == text[..k + 1][1..];
      FirstPiece(text[1..], k - 1);
    }
  }

  /** A text that does not begin as the form does can only add from its second line on. */
  lemma OnlyStrayAs(f: Form, text: string, k: nat)
    requires k < |text| && k < |f.before| && text[k] != f.before[k] && OneLine(text[..k + 1])
    ensures ReadLines(f, Split(text, '\n')) == StrayAs(f, text)
  {
    hide Split, ReadLine, OneLine;
    var pieces := Split(text, '\n');
    FirstPiece(text, k);
    DiffersIsForeign(f, pieces[0], k);
    ReadForeign(f, [pieces[0]]);
    assert pieces == [pieces[0]] + pieces[1..];
    ReadLinesConcat(f, [pieces[0]], pieces[1..]);
    assert [] + StrayAs(f, text) == StrayAs(f, text);
  }

  lemma OnlyStray(text: string, k: nat)
    requires k < |text| && k < |REMOVE.before| && text[k] != REMOVE.before[k] && OneLine(text[..k + 1])
    ensures ReadLines(REMOVE, Split(text, '\n')) == Stray(text)
  {
    OnlyStrayAs(REMOVE, text, k);
  }

  lemma OneLineHasNoStray(text: string)
    requires OneLine(text)
    ensures Stray(text) == []
  {
    hide ReadLine, Split;
    SplitWithout(text, '\n');
    assert [text][1..] == [];
  }

  lemma CommentsAdd(x: Exclusion)
    ensures var ls := ExclusionLines(x);
            && ReadLines(REMOVE, Split(ls[0], '\n')) == []
            && ReadLines(REMOVE, Split(ls[1], '\n')) == Stray(ls[1])
            && ReadLines(REMOVE, Split(ls[2], '\n')) == Stray(ls[2])
  {
    hide IntText, Stray, ReadLine, Split;
    var ls := ExclusionLines(x);
    SplitWithout("", '\n');
    EmptyIsForeign(REMOVE);
    ReadForeign(REMOVE, [""]);
    assert ls[1][0] == "# Rule "[0] && ls[2][0] == "# Reason: "[0];
    assert ls[1][..1] == "#" && ls[2][..1] == "#";
    OnlyStray(ls[1], 0);
    OnlyStray(ls[2], 0);
  }

  lemma DirectiveAdds(id: string)
    requires OneLine(id)
    ensures ReadLines(REMOVE, Split(Line(REMOVE, id), '\n')) == [id]
  {
    hide Split, ReadLine;
    OneLineConcat(REMOVE.before, id);
    OneLineConcat(REMOVE.before + id, "");
    SplitWithout(Line(REMOVE, id), '\n');
    ReadListing(REMOVE, [id]);
    assert Listing(REMOVE, [id]) == [Line(REMOVE, id)] by { assert [id][1..] == []; }
  }

  lemma ReadFour(f: Form, a: string, b: string, c: string, d: string)
    ensures ReadTexts(f, [a, b, c, d]) ==
            ReadLines(f, Split(a, '\n')) + (ReadLines(f, Split(b, '\n'))
            + (ReadLines(f, Split(c, '\n')) + ReadLines(f, Split(d, '\n'))))
  {
    hide Split, ReadLines;
    var ls := [a, b, c, d];
    assert ls[1..] == [b, c, d] && [b, c, d][1..] == [c, d] && [c, d][1..] == [d] && [d][1..] == [];
    assert ReadTexts(f, [d]) == ReadLines(f, Split(d, '\n')) + ReadTexts(f, []);
    assert ReadTexts(f, [c, d]) == ReadLines(f, Split(c, '\n')) + ReadTexts(f, [d]);
    assert ReadTexts(f, [b, c, d]) == ReadLines(f, Split(b, '\n')) + ReadTexts(f, [c, d]);
  }

  lemma ReadExclusion(x: Exclusion)
    ensures ReadTexts(REMOVE, ExclusionLines(x)) == StrayOf(x) + [IntText(x.ruleId)]
  {
    hide IntText, Stray, Split, ReadLines, ReadTexts, Line;
    var (ls, id) := (ExclusionLines(x), IntText(x.ruleId));
    CommentsAdd(x);
    IntTextOneLine(x.ruleId);
    DirectiveAdds(id);
    ReadFour(REMOVE, ls[0], ls[1], ls[2], ls[3]);
    assert ls == [ls[0], ls[1], ls[2], ls[3]];
    var (s, t) := (Stray(ls[1]), Stray(ls[2]));
    assert [] + (s + (t + [id])) == s + t + [id];
  }

  /** What ModSecurity finds in the exclusion section: for each entry, what its comments add, and its own number. */
  function Removed(xs: seq<Exclusion>): seq<string> {
    if xs == [] then [] else StrayOf(xs[0]) + [IntText(xs[0].ruleId)] + Removed(xs[1..])
  }

  lemma {:induction false} ReadExclusions(xs: seq<Exclusion>)
    ensures ReadTexts(REMOVE, AllExclusionLines(xs)) == Removed(xs)
  {
    hide ExclusionLines, StrayOf, IntText, ReadTexts;
    if xs == [] {
      ReadNoTexts();
    } else {
      ReadExclusion(xs[0]);
      ReadExclusions(xs[1..]);
      ReadTextsConcat(REMOVE, ExclusionLines(xs[0]), AllExclusionLines(xs[1..]));
    }
  }

  lemma ReadNoTexts()
    ensures ReadTexts(REMOVE, []) == []
  {
  }

  lemma ActionOneLine()
    ensures OneLine(ACTION) && ACTION[3] == 'A'
  {
    OneLineConcat("SecAction ", "\"id:900");
    assert ACTION[3] == "SecAction "[3];
  }

  lemma ParanoiaOneLine()
    ensures OneLine(PARANOIA) && PARANOIA[3] == 'A' && |PARANOIA| > 3
  {
    ActionOneLine();
    var (a, b, c, d) := ("000,phase:1,pass,", "t:none,nolog,setvar:", "tx.blocking_paranoia", "_level=");
    assert OneLine(a) && OneLine(b) && OneLine(c) && OneLine(d);
    OneLineConcat(ACTION, a);
    OneLineConcat(ACTION + a, b);
    OneLineConcat(ACTION + a + b, c);
    OneLineConcat(ACTION + a + b + c, d);
    assert PARANOIA[3] == ACTION[3];
  }

  lemma ThresholdOneLine()
    ensures OneLine(INBOUND) && OneLine(OUTBOUND) && INBOUND[3] == 'A' && |INBOUND| > 3
  {
    ActionOneLine();
    var (a, b, c, d) := ("110,phase:1,pass,", "t:none,nolog,setvar:", "tx.inbound_anomaly_", "score_threshold=");
    assert OneLine(a) && OneLine(b) && OneLine(c) && OneLine(d);
    OneLineConcat(ACTION, a);
    OneLineConcat(ACTION + a, b);
    OneLineConcat(ACTION + a + b, c);
    OneLineConcat(ACTION + a + b + c, d);
    assert INBOUND[3] == ACTION[3];
    var (f, g, h) := (",setvar:tx.outbound", "_anomaly_score_", "threshold=");
    assert OneLine(f) && OneLine(g) && OneLine(h);
    OneLineConcat(f, g);
    OneLineConcat(f + g, h);
  }

  lemma TuningIsForeign(file: HostWafFile)
    ensures forall l <- TuningLines(file) :: Foreign(REMOVE, l)
  {
    var (level, t) := (IntText(file.paranoiaLevel), IntText(file.anomalyThreshold));
    IntTextOneLine(file.paranoiaLevel);
    IntTextOneLine(file.anomalyThreshold);
    ParanoiaOneLine();
    ThresholdOneLine();
    hide IntText, PARANOIA, INBOUND, OUTBOUND, ReadLine;
    OneLineConcat(PARANOIA, level);
    OneLineConcat(PARANOIA + level, "\"");
    assert (PARANOIA + level + "\"")[3] == PARANOIA[3];
    DiffersIsForeign(REMOVE, PARANOIA + level + "\"", 3);
    OneLineConcat(INBOUND, t);
    OneLineConcat(INBOUND + t, OUTBOUND);
    OneLineConcat(INBOUND + t + OUTBOUND, t);
    OneLineConcat(INBOUND + t + OUTBOUND + t, "\"");
    var second := INBOUND + t + OUTBOUND + t + "\"";
    assert second[3] == INBOUND[3];
    DiffersIsForeign(REMOVE, second, 3);
  }

  lemma AllowTextsOneLine()
    ensures OneLine(ALLOW) && OneLine(ALLOW_END) && |ALLOW| > 7 && ALLOW[7] == ' '
  {
    var (a, b) := ("SecRule REMOTE_ADDR", " \"@ipMatch ");
    assert OneLine(a) && OneLine(b) && a[7] == ' ';
    OneLineConcat(a, b);
    var (c, d, f) := ("\" \"id:900900,phase:", "1,pass,nolog,ctl:rule", "Engine=Off\"");
    assert OneLine(c) && OneLine(d) && OneLine(f);
    OneLineConcat(c, d);
    OneLineConcat(c + d, f);
  }

  /** What the line for the allowed addresses adds. */
  function StrayAllow(ips: seq<string>): seq<string> {
    if ips == [] then [] else Stray(AllowLines(ips)[0])
  }

  lemma ReadAllow(ips: seq<string>)
    ensures ReadTexts(REMOVE, AllowLines(ips)) == StrayAllow(ips)
  {
    AllowTextsOneLine();
    hide ALLOW, ALLOW_END, Join, Split, Stray, ReadLines;
    if ips != [] {
      var text := AllowLines(ips)[0];
      assert text[..8] == ALLOW[..8] && text[7] == ALLOW[7];
      OneLineConcat(ALLOW[..8], ALLOW[8..]);
      assert ALLOW == ALLOW[..8] + ALLOW[8..];
      OnlyStray(text, 7);
      assert AllowLines(ips) == [text] && [text][1..] == [];
      assert Stray(text) + [] == Stray(text);
    }
  }

  lemma EngineIsForeign(mode: string)
    requires OneLine(mode)
    ensures Foreign(REMOVE, "SecRuleEngine " + mode)
  {
    hide ReadLine;
    OneLineConcat("SecRuleEngine ", mode);
    assert ("SecRuleEngine " + mode)[7] == 'E' && REMOVE.before[7] == 'R';
    DiffersIsForeign(REMOVE, "SecRuleEngine " + mode, 7);
  }

  /** Read line by line, the generated file removes this and nothing else, whatever was entered. */
  lemma FileReads(n: Notes, file: HostWafFile, xs: seq<Exclusion>)
    requires AreComments(n) && OneLine(file.mode)
    ensures ReadFile(REMOVE, Lines(FileLines(n, file, xs))) == StrayAllow(file.allowedIPs) + Removed(xs)
  {
    hide Lines, ReadFile, ReadTexts, Foreign, TuningLines, AllowLines, AllExclusionLines, Comments, StrayAllow, Removed;
    var (tuning, allow, body) := (TuningLines(file), AllowLines(file.allowedIPs), AllExclusionLines(xs));
    var engine := ["SecRuleEngine " + file.mode];
    CommentsAreForeign(REMOVE, n.top);
    CommentsAreForeign(REMOVE, n.allow);
    CommentsAreForeign(REMOVE, n.exclusions);
    CommentsAreForeign(REMOVE, n.engine);
    TuningIsForeign(file);
    EngineIsForeign(file.mode);
    ReadAllow(file.allowedIPs);
    ReadExclusions(xs);
    ReadSections(n.top + tuning + n.allow, allow, n.exclusions, body, n.engine + engine);
    assert FileLines(n, file, xs) == n.top + tuning + n.allow + (allow + (n.exclusions + (body + (n.engine + engine))));
    ReadFileIsReadTexts(REMOVE, FileLines(n, file, xs));
  }

  /** Two sections that may be read, between lines that are not. */
  lemma ReadSections(a: seq<string>, b: seq<string>, c: seq<string>, d: seq<string>, z: seq<string>)
    requires forall l <- a + c + z :: Foreign(REMOVE, l)
    ensures ReadTexts(REMOVE, a + (b + (c + (d + z)))) == ReadTexts(REMOVE, b) + ReadTexts(REMOVE, d)
  {
    hide ReadTexts, Foreign;
    ReadTextsConcat(REMOVE, a, b + (c + (d + z)));
    ReadTextsConcat(REMOVE, b, c + (d + z));
    ReadTextsConcat(REMOVE, c, d + z);
    ReadTextsConcat(REMOVE, d, z);
    ReadForeignTexts(REMOVE, a);
    ReadForeignTexts(REMOVE, c);
    ReadForeignTexts(REMOVE, z);
    var (rb, rd) := (ReadTexts(REMOVE, b), ReadTexts(REMOVE, d));
    assert [] + (rb + ([] + (rd + []))) == rb + rd;
  }

  lemma {:induction false} RemovedLength(xs: seq<Exclusion>)
    ensures |Removed(xs)| >= |xs|
    ensures |Removed(xs)| == |xs| <==> forall x <- xs :: StrayOf(x) == []
    ensures (forall x <- xs :: StrayOf(x) == []) ==> Removed(xs) == IdTexts(xs)
  {
    hide StrayOf, IntText;
    if xs != [] {
      RemovedLength(xs[1..]);
      assert xs == [xs[0]] + xs[1..];
    }
  }

  /** The file reads as the numbers of the list, in order, exactly if no text entered adds a directive of its own. */
  lemma ReadsAsListedIff(n: Notes, file: HostWafFile, xs: seq<Exclusion>)
    requires AreComments(n) && OneLine(file.mode)
    ensures ReadFile(REMOVE, Lines(FileLines(n, file, xs))) == IdTexts(xs) <==>
            StrayAllow(file.allowedIPs) == [] && forall x <- xs :: StrayOf(x) == []
  {
    hide ReadFile, Lines, FileLines, StrayAllow, StrayOf, Removed, IdTexts;
    FileReads(n, file, xs);
    RemovedLength(xs);
    var stray := StrayAllow(file.allowedIPs);
    assert stray == [] ==> stray + Removed(xs) == Removed(xs);
  }

  lemma SingleLineHasNoStray(x: Exclusion)
    requires SingleLine(x)
    ensures StrayOf(x) == []
  {
    hide IntText, Stray, OneLine;
    var id := IntText(x.ruleId);
    IntTextOneLine(x.ruleId);
    CommentOneLine(id, x.description, x.category, x.reason);
    OneLineHasNoStray(ExclusionLines(x)[1]);
    OneLineHasNoStray(ExclusionLines(x)[2]);
  }

  lemma CommentOneLine(id: string, description: string, category: string, reason: string)
    requires OneLine(id) && OneLine(description) && OneLine(category) && OneLine(reason)
    ensures OneLine("# Rule " + (id + ": " + description + " (" + category + ")")) && OneLine("# Reason: " + reason)
  {
    OneLineConcat("# Rule ", id + ": " + description + " (" + category + ")");
    OneLineConcat(id + ": " + description + " (" + category, ")");
    OneLineConcat(id + ": " + description + " (", category);
    OneLineConcat(id + ": " + description, " (");
    OneLineConcat(id + ": ", description);
    OneLineConcat(id, ": ");
    OneLineConcat("# Reason: ", reason);
  }

  lemma {:induction false} JoinOneLine(parts: seq<string>)
    requires forall p <- parts :: OneLine(p)
    ensures OneLine(Join(parts, ","))
  {
    hide OneLine;
    if |parts| > 1 {
      JoinOneLine(parts[1..]);
      OneLineConcat(parts[0] + ",", Join(parts[1..], ","));
      OneLineConcat(parts[0], ",");
      assert OneLine(parts[0]);
      CommaOneLine();
    } else if |parts| == 1 {
      assert OneLine(parts[0]);
    } else {
      CommaOneLine();
    }
  }

  lemma CommaOneLine()
    ensures OneLine(",") && OneLine("")
  {
  }

  lemma AllowHasNoStray(ips: seq<string>)
    requires forall ip <- ips :: OneLine(ip)
    ensures StrayAllow(ips) == []
  {
    AllowTextsOneLine();
    hide ALLOW, ALLOW_END, Join, Stray, OneLine;
    var ipList := Join(ips, ",");
    JoinOneLine(ips);
    OneLineConcat(ALLOW, ipList);
    OneLineConcat(ALLOW + ipList, ALLOW_END);
    OneLineHasNoStray(ALLOW + ipList + ALLOW_END);
  }

  /** In particular it does if every text entered is on one line. */
  lemma RemovedReadBack(n: Notes, file: HostWafFile, xs: seq<Exclusion>)
    requires AreComments(n) && OneLine(file.mode)
    requires (forall x <- xs :: SingleLine(x)) && forall ip <- file.allowedIPs :: OneLine(ip)
    ensures ReadFile(REMOVE, Lines(FileLines(n, file, xs))) == IdTexts(xs)
  {
    hide ReadFile, Lines, FileLines, StrayAllow, StrayOf, SingleLine, IdTexts, Comments;
    ReadsAsListedIff(n, file, xs);
    AllowHasNoStray(file.allowedIPs);
    forall x | x in xs ensures StrayOf(x) == [] {
      SingleLineHasNoStray(x);
    }
  }

  lemma {:induction false} IdTextsOf(xs: seq<Exclusion>, id: int)
    ensures IntText(id) in IdTexts(xs) <==> id in RuleIds(xs)
  {
    hide IntText;
    if xs != [] {
      IdTextsOf(xs[1..], id);
      IntTextInjective(id, xs[0].ruleId);
    }
  }

  predicate StrayIn(xs: seq<Exclusion>, ips: seq<string>, id: int) {
    IntText(id) in StrayAllow(ips) || exists x <- xs :: IntText(id) in StrayOf(x)
  }

  lemma {:induction false} RemovedContains(xs: seq<Exclusion>, id: int)
    ensures IntText(id) in Removed(xs) <==>
            id in RuleIds(xs) || exists x <- xs :: IntText(id) in StrayOf(x)
  {
    hide StrayOf, IntText;
    if xs != [] {
      RemovedContains(xs[1..], id);
      IntTextInjective(id, xs[0].ruleId);
      assert xs == [xs[0]] + xs[1..];
      var (first, rest) := (StrayOf(xs[0]) + [IntText(xs[0].ruleId)], Removed(xs[1..]));
      assert IntText(id) in first + rest <==> IntText(id) in first || IntText(id) in rest;
    }
  }

  /**
   A rule is removed by the file generated for a host exactly if the host or the global list excludes it,
   or a text entered with an exclusion or an address holds the directive on a line of its own.
   */
  lemma RemovedIff(n: Notes, file: HostWafFile, globals: seq<GlobalExclusion>, hosts: seq<Exclusion>, id: int)
    requires AreComments(n) && OneLine(file.mode)
    ensures IntText(id) in ReadFile(REMOVE, Lines(FileLines(n, file, Merged(globals, hosts)))) <==>
            || Excludes(hosts, id) || ExcludesGlobally(globals, id)
            || StrayIn(Merged(globals, hosts), file.allowedIPs, id)
  {
    hide Lines, ReadFile, FileLines, IntText, Merged, StrayAllow, StrayOf, Removed;
    var xs := Merged(globals, hosts);
    FileReads(n, file, xs);
    RemovedContains(xs, id);
    RuleIdsOf(xs, id);
    MergedExcludes(globals, hosts, id);
  }

  /** With every text on one line, exactly if one of the lists excludes it. */
  lemma RemovedIffExcluded(n: Notes, file: HostWafFile, globals: seq<GlobalExclusion>, hosts: seq<Exclusion>, id: int)
    requires AreComments(n) && OneLine(file.mode) && forall ip <- file.allowedIPs :: OneLine(ip)
    requires forall x <- Merged(globals, hosts) :: SingleLine(x)
    ensures IntText(id) in ReadFile(REMOVE, Lines(FileLines(n, file, Merged(globals, hosts)))) <==>
            Excludes(hosts, id) || ExcludesGlobally(globals, id)
  {
    hide Lines, ReadFile, FileLines, IntText, Merged, StrayAllow, StrayOf, SingleLine, Comments;
    RemovedIff(n, file, globals, hosts, id);
    AllowHasNoStray(file.allowedIPs);
    forall x | x in Merged(globals, hosts) ensures StrayOf(x) == [] {
      SingleLineHasNoStray(x);
    }
  }

  /**
   The rule browser against the file: a rule shown as disabled is removed, and one shown as enabled is
   removed exactly if some text entered holds its directive on a line of its own.
   */
  lemma ShownAgainstFile(t: Tables, n: Notes, file: HostWafFile, globals: seq<GlobalExclusion>,
                         hosts: seq<Exclusion>, id: int)
    requires TablesFor(t, globals, hosts) && AreComments(n) && OneLine(file.mode)
    ensures var removed := IntText(id) in ReadFile(REMOVE, Lines(FileLines(n, file, Merged(globals, hosts))));
            && (!Shown(t, id).enabled ==> removed)
            && (Shown(t, id).enabled ==> (removed <==> StrayIn(Merged(globals, hosts), file.allowedIPs, id)))
  {
    hide Lines, ReadFile, FileLines, IntText, Merged, StrayIn;
    RemovedIff(n, file, globals, hosts, id);
  }

  /** A reason with the directive on its second line adds the rule named there. */
  lemma SecondLineOfReason(x: Exclusion, first: string, id: string)
    requires OneLine(x.description) && OneLine(x.category) && OneLine(first) && OneLine(id)
    requires x.reason == first + "\n" + Line(REMOVE, id)
    ensures StrayOf(x) == [id]
  {
    hide OneLine, Line, Stray, StrayOf, IntText;
    IntTextOneLine(x.ruleId);
    OneLineConcat("# Reason: ", first);
    NothingIsOneLine();
    CommentOneLine(IntText(x.ruleId), x.description, x.category, "");
    OneLineHasNoStray(ExclusionLines(x)[1]);
    StrayOfReason(x);
    ReasonOnTwoLines(x, first, Line(REMOVE, id));
    SecondLineIsStray("# Reason: " + first, id);
  }

  lemma NothingIsOneLine()
    ensures OneLine("") && OneLine("# Reason: ") && OneLine("x") && OneLine("942100")
  {
  }

  lemma ReasonOnTwoLines(x: Exclusion, first: string, second: string)
    requires x.reason == first + "\n" + second
    ensures ExclusionLines(x)[2] == "# Reason: " + first + "\n" + second
  {
    hide IntText, Line;
    assert "# Reason: " + (first + "\n" + second) == "# Reason: " + first + "\n" + second;
  }

  /** An exclusion of one rule whose reason has a second line: another rule is removed as well. */
  lemma StrayExample()
    ensures var x := Exclusion("1", "h", 911100, "", "", "x" + "\n" + "SecRuleRemoveById 942100", "", 0);
            Removed([x]) == ["942100", IntText(911100)] && !Excludes([x], 942100)
  {
    var x := Exclusion("1", "h", 911100, "", "", "x" + "\n" + "SecRuleRemoveById 942100", "", 0);
    hide IntText, StrayOf, OneLine;
    NothingIsOneLine();
    hide Line, Removed, REMOVE;
    DirectiveText();
    SecondLineOfReason(x, "x", "942100");
    RemovedOne(x);
  }

  lemma DirectiveText()
    ensures "SecRuleRemoveById 942100" == Line(REMOVE, "942100")
  {
  }

  lemma RemovedOne(x: Exclusion)
    ensures Removed([x]) == StrayOf(x) + [IntText(x.ruleId)]
  {
    hide StrayOf, IntText;
    assert Removed([x][1..]) == [];
  }

  lemma StrayOfReason(x: Exclusion)
    requires Stray(ExclusionLines(x)[1]) == []
    ensures StrayOf(x) == Stray(ExclusionLines(x)[2])
  {
    hide Stray;
  }

  lemma SecondLineIsStray(first: string, id: string)
    requires OneLine(first) && OneLine(id)
    ensures Stray(first + "\n" + Line(REMOVE, id)) == [id]
  {
    hide Split, ReadLine;
    SplitAcross(first, Line(REMOVE, id));
    SplitWithout(first, '\n');
    DirectiveAdds(id);
    assert ([first] + Split(Line(REMOVE, id), '\n'))[1..] == Split(Line(REMOVE, id), '\n');
  }
}
