/**
 What else ModSecurity reads in a host's file: the paranoia level, the thresholds, the addresses that are let
 past and the engine mode. As with removed rules, a text with line breaks can add lines of its own.
 */
module WafSettings {
  import opened GoStrings
  import opened IncludeFiles
  import opened Waf
  import opened WafFile

  const LEVEL := Form(PARANOIA, "\"")
  const LIMITS := Form(INBOUND, "\"")
  const ADDRESSES := Form(ALLOW, ALLOW_END)
  const MODE := Form("SecRuleEngine ", "")

  /** What the comments of the exclusions add to a setting. */
  function Added(f: Form, xs: seq<Exclusion>): seq<string> {
    if xs == [] then []
    else StrayAs(f, ExclusionLines(xs[0])[1]) + StrayAs(f, ExclusionLines(xs[0])[2]) + Added(f, xs[1..])
  }

  /** What the line of allowed addresses adds to another setting. */
  function AddedByAddresses(f: Form, ips: seq<string>): seq<string> {
    if ips == [] then [] else StrayAs(f, AllowLines(ips)[0])
  }

  /** The directives as the template has them. */
  lemma SettingsText()
    ensures ACTION == "SecAction " + "\"id:900"
    ensures PARANOIA == ACTION + "000,phase:1,pass," + "t:none,nolog,setvar:" + "tx.blocking_paranoia" + "_level="
    ensures INBOUND ==
            ACTION + "110,phase:1,pass," + "t:none,nolog,setvar:" + "tx.inbound_anomaly_" + "score_threshold="
    ensures OUTBOUND == ",setvar:tx.outbound" + "_anomaly_score_" + "threshold="
    ensures ALLOW == "SecRule REMOTE_ADDR" + " \"@ipMatch "
    ensures ALLOW_END == "\" \"id:900900,phase:" + "1,pass,nolog,ctl:rule" + "Engine=Off\""
  {
  }

  // ---- section by section ----

  lemma SectionsRead(f: Form, n: Notes, file: HostWafFile, xs: seq<Exclusion>)
    requires AreComments(n) && f.before != "" && f.before[0] != '#'
    ensures ReadFile(f, Lines(FileLines(n, file, xs))) ==
            ReadTexts(f, TuningLines(file)) + ReadTexts(f, AllowLines(file.allowedIPs))
            + ReadTexts(f, AllExclusionLines(xs)) + ReadTexts(f, ["SecRuleEngine " + file.mode])
  {
    hide Lines, ReadFile, ReadTexts, Foreign, TuningLines, AllowLines, AllExclusionLines, Comments;
    var (a, b, c) := (TuningLines(file), AllowLines(file.allowedIPs), AllExclusionLines(xs));
    var d := ["SecRuleEngine " + file.mode];
    ReadFileIsReadTexts(f, FileLines(n, file, xs));
    Under(f, n.top, a);
    Under(f, n.allow, b);
    Under(f, n.exclusions, c);
    Under(f, n.engine, d);
    ReadTextsConcat(f, n.top + a + (n.allow + b) + (n.exclusions + c), n.engine + d);
    ReadTextsConcat(f, n.top + a + (n.allow + b), n.exclusions + c);
    ReadTextsConcat(f, n.top + a, n.allow + b);
  }

  lemma Under(f: Form, comments: seq<string>, ls: seq<string>)
    requires Comments(comments) && f.before != "" && f.before[0] != '#'
    ensures ReadTexts(f, comments + ls) == ReadTexts(f, ls)
  {
    hide ReadTexts, Foreign, Comments;
    CommentsAreForeign(f, comments);
    ReadForeignTexts(f, comments);
    ReadTextsConcat(f, comments, ls);
    assert [] + ReadTexts(f, ls) == ReadTexts(f, ls);
  }

  lemma ReadOne(f: Form, text: string)
    ensures ReadTexts(f, [text]) == ReadLines(f, Split(text, '\n'))
  {
    hide Split, ReadLines;
    assert [text][1..] == [];
    assert ReadTexts(f, [text]) == ReadLines(f, Split(text, '\n')) + ReadTexts(f, []);
  }

  /** A line of the form, if nothing breaks it. */
  lemma ReadOwn(f: Form, x: string)
    requires OneLine(f.before) && OneLine(x) && OneLine(f.after)
    ensures ReadTexts(f, [f.before + x + f.after]) == [x]
  {
    hide ReadTexts, OneLine;
    assert Listing(f, [x]) == [Line(f, x)] by { assert [x][1..] == []; }
    var xs := [x];
    assert forall y <- xs :: OneLine(y);
    ReadListingTexts(f, xs);
  }

  lemma ReadOther(f: Form, text: string, k: nat)
    requires k < |text| && k < |f.before| && text[k] != f.before[k] && OneLine(text)
    ensures ReadTexts(f, [text]) == []
  {
    hide ReadTexts, ReadLine, OneLine, Split;
    DiffersIsForeign(f, text, k);
    var texts := [text];
    assert forall l <- texts :: Foreign(f, l);
    ReadForeignTexts(f, texts);
  }

  lemma {:induction false} ReadExclusionsAs(f: Form, xs: seq<Exclusion>)
    requires |f.before| > 7 && f.before[0] != '#' && (f.before[3] == 'A' || f.before[7] != 'R')
    ensures ReadTexts(f, AllExclusionLines(xs)) == Added(f, xs)
  {
    hide ExclusionLines, ReadTexts, StrayAs;
    if xs == [] {
      NoTexts(f);
    } else {
      ReadExclusionAs(f, xs[0]);
      ReadExclusionsAs(f, xs[1..]);
      ReadTextsConcat(f, ExclusionLines(xs[0]), AllExclusionLines(xs[1..]));
    }
  }

  lemma NoTexts(f: Form)
    ensures ReadTexts(f, []) == []
  {
  }

  lemma ReadExclusionAs(f: Form, x: Exclusion)
    requires |f.before| > 7 && f.before[0] != '#' && (f.before[3] == 'A' || f.before[7] != 'R')
    ensures var ls := ExclusionLines(x); ReadTexts(f, ls) == StrayAs(f, ls[1]) + StrayAs(f, ls[2])
  {
    hide IntText, Split, ReadLines, ReadTexts, StrayAs, OneLine;
    var ls := ExclusionLines(x);
    var id := IntText(x.ruleId);
    IntTextOneLine(x.ruleId);
    RemovalIsOther(f, id);
    BlankReads(f);
    assert ls[1][0] == "# Rule "[0] && ls[2][0] == "# Reason: "[0];
    assert ls[1][..1] == "#" && ls[2][..1] == "#";
    SharpIsOneLine();
    OnlyStrayAs(f, ls[1], 0);
    OnlyStrayAs(f, ls[2], 0);
    ReadOne(f, ls[3]);
    ReadFour(f, ls[0], ls[1], ls[2], ls[3]);
    assert ls == [ls[0], ls[1], ls[2], ls[3]];
    var (s, t) := (StrayAs(f, ls[1]), StrayAs(f, ls[2]));
    assert [] + (s + (t + [])) == s + t;
  }

  lemma SharpIsOneLine()
    ensures OneLine("#")
  {
  }

  lemma BlankReads(f: Form)
    requires f.before != ""
    ensures ReadLines(f, Split("", '\n')) == []
  {
    hide ReadLine;
    SplitWithout("", '\n');
    EmptyIsForeign(f);
    ReadForeign(f, [""]);
  }

  lemma RemoveText()
    ensures |REMOVE.before| > 7 && REMOVE.before[3] == 'R' && REMOVE.before[7] == 'R'
    ensures OneLine(REMOVE.before) && OneLine(REMOVE.after)
  {
  }

  lemma RemovalIsOther(f: Form, id: string)
    requires OneLine(id) && |f.before| > 7 && (f.before[3] == 'A' || f.before[7] != 'R')
    ensures ReadTexts(f, [Line(REMOVE, id)]) == []
  {
    RemoveText();
    hide ReadTexts, REMOVE, OneLine;
    OneLineConcat(REMOVE.before, id);
    OneLineConcat(REMOVE.before + id, REMOVE.after);
    var l := Line(REMOVE, id);
    assert l[3] == REMOVE.before[3] && l[7] == REMOVE.before[7];
    ReadOther(f, l, if f.before[3] == 'A' then 3 else 7);
  }

  // ---- the texts of the file ----

  /** The number in the directive of the tuning lines tells them apart. */
  lemma ActionNumbers()
    ensures |PARANOIA| > 17 && PARANOIA[0] == 'S' && PARANOIA[3] == 'A' && PARANOIA[17] == '0'
    ensures |INBOUND| > 17 && INBOUND[0] == 'S' && INBOUND[3] == 'A' && INBOUND[17] == '1'
  {
    ParanoiaOneLine();
    ThresholdOneLine();
    assert |ACTION| == 17 && ACTION[0] == 'S';
    assert PARANOIA[0] == ACTION[0] && INBOUND[0] == ACTION[0];
    assert PARANOIA[17] == "000,phase:1,pass,"[0];
    assert INBOUND[17] == "110,phase:1,pass,"[0];
  }

  lemma TuningRead(f: Form, file: HostWafFile)
    ensures var (level, t) := (IntText(file.paranoiaLevel), IntText(file.anomalyThreshold));
            ReadTexts(f, TuningLines(file)) ==
            ReadTexts(f, [PARANOIA + level + "\""]) + ReadTexts(f, [INBOUND + t + OUTBOUND + t + "\""])
  {
    hide IntText, ReadTexts, PARANOIA, INBOUND, OUTBOUND;
    var ls := TuningLines(file);
    assert ls == [ls[0]] + [ls[1]];
    ReadTextsConcat(f, [ls[0]], [ls[1]]);
  }

  lemma TuningOneLine(file: HostWafFile)
    ensures forall l <- TuningLines(file) :: OneLine(l)
    ensures OneLine(IntText(file.paranoiaLevel))
    ensures var t := IntText(file.anomalyThreshold); OneLine(t + OUTBOUND + t)
  {
    var (level, t) := (IntText(file.paranoiaLevel), IntText(file.anomalyThreshold));
    IntTextOneLine(file.paranoiaLevel);
    IntTextOneLine(file.anomalyThreshold);
    ParanoiaOneLine();
    ThresholdOneLine();
    QuoteIsOneLine();
    hide IntText, PARANOIA, INBOUND, OUTBOUND, OneLine;
    OneLineConcat(PARANOIA, level);
    OneLineConcat(PARANOIA + level, "\"");
    OneLineConcat(t, OUTBOUND);
    OneLineConcat(t + OUTBOUND, t);
    OneLineConcat(INBOUND, t + OUTBOUND + t);
    OneLineConcat(INBOUND + (t + OUTBOUND + t), "\"");
    assert INBOUND + t + OUTBOUND + t + "\"" == INBOUND + (t + OUTBOUND + t) + "\"";
  }

  lemma QuoteIsOneLine()
    ensures OneLine("\"")
  {
  }

  lemma AllowReadAs(f: Form, ips: seq<string>)
    requires |f.before| > 7 && (f.before[3] == 'A' || f.before[7] != ' ')
    ensures ReadTexts(f, AllowLines(ips)) == AddedByAddresses(f, ips)
  {
    AllowTextsOneLine();
    AllowFourth();
    hide ALLOW, ALLOW_END, Join, Split, StrayAs, ReadLines;
    if ips != [] {
      var text := AllowLines(ips)[0];
      assert text[3] == ALLOW[3] && text[7] == ALLOW[7] && text[..8] == ALLOW[..8] && text[..4] == ALLOW[..4];
      OneLineConcat(ALLOW[..8], ALLOW[8..]);
      OneLineConcat(ALLOW[..4], ALLOW[4..]);
      assert ALLOW == ALLOW[..8] + ALLOW[8..] && ALLOW == ALLOW[..4] + ALLOW[4..];
      OnlyStrayAs(f, text, if f.before[3] == 'A' then 3 else 7);
      ReadOne(f, text);
      assert AllowLines(ips) == [text];
    } else {
      NoTexts(f);
    }
  }

  lemma AllowFourth()
    ensures |ALLOW| > 7 && ALLOW[0] == 'S' && ALLOW[3] == 'R'
  {
    assert ALLOW[0] == "SecRule REMOTE_ADDR"[0] && ALLOW[3] == "SecRule REMOTE_ADDR"[3];
  }

  lemma EngineReadAs(f: Form, mode: string)
    requires |f.before| > 7 && (f.before[3] == 'A' || f.before[7] != 'E') && OneLine(mode)
    ensures ReadTexts(f, ["SecRuleEngine " + mode]) == []
  {
    hide ReadTexts;
    OneLineConcat("SecRuleEngine ", mode);
    var l := "SecRuleEngine " + mode;
    assert l[3] == "SecRuleEngine "[3] == 'R' && l[7] == "SecRuleEngine "[7] == 'E';
    ReadOther(f, l, if f.before[3] == 'A' then 3 else 7);
  }

  // ---- the settings ----

  /** The level is read first; only a line break in an address or a text can add another. */
  lemma LevelReads(n: Notes, file: HostWafFile, xs: seq<Exclusion>)
    requires AreComments(n) && OneLine(file.mode)
    ensures ReadFile(LEVEL, Lines(FileLines(n, file, xs))) ==
            [IntText(file.paranoiaLevel)] + AddedByAddresses(LEVEL, file.allowedIPs) + Added(LEVEL, xs)
  {
    ActionNumbers();
    ParanoiaOneLine();
    QuoteIsOneLine();
    TuningOneLine(file);
    var t := IntText(file.anomalyThreshold);
    hide ReadFile, Lines, FileLines, ReadTexts, IntText, PARANOIA, INBOUND, OUTBOUND, OneLine, Added, AddedByAddresses;
    SectionsRead(LEVEL, n, file, xs);
    TuningRead(LEVEL, file);
    ReadOwn(LEVEL, IntText(file.paranoiaLevel));
    var second := INBOUND + t + OUTBOUND + t + "\"";
    assert second == TuningLines(file)[1] && second[17] == INBOUND[17];
    ReadOther(LEVEL, second, 17);
    AllowReadAs(LEVEL, file.allowedIPs);
    ReadExclusionsAs(LEVEL, xs);
    EngineReadAs(LEVEL, file.mode);
  }

  /** Both thresholds are the one that was asked for. */
  lemma LimitsRead(n: Notes, file: HostWafFile, xs: seq<Exclusion>)
    requires AreComments(n) && OneLine(file.mode)
    ensures var t := IntText(file.anomalyThreshold);
            ReadFile(LIMITS, Lines(FileLines(n, file, xs))) ==
            [t + OUTBOUND + t] + AddedByAddresses(LIMITS, file.allowedIPs) + Added(LIMITS, xs)
  {
    ActionNumbers();
    ThresholdOneLine();
    QuoteIsOneLine();
    TuningOneLine(file);
    var (level, t) := (IntText(file.paranoiaLevel), IntText(file.anomalyThreshold));
    hide ReadFile, Lines, FileLines, ReadTexts, IntText, PARANOIA, INBOUND, OUTBOUND, OneLine, Added, AddedByAddresses;
    SectionsRead(LIMITS, n, file, xs);
    TuningRead(LIMITS, file);
    var first := PARANOIA + level + "\"";
    assert first == TuningLines(file)[0] && first[17] == PARANOIA[17];
    ReadOther(LIMITS, first, 17);
    assert INBOUND + t + OUTBOUND + t + "\"" == INBOUND + (t + OUTBOUND + t) + "\"";
    ReadOwn(LIMITS, t + OUTBOUND + t);
    AllowReadAs(LIMITS, file.allowedIPs);
    ReadExclusionsAs(LIMITS, xs);
    EngineReadAs(LIMITS, file.mode);
  }

  /** The engine mode comes last. */
  lemma ModeReads(n: Notes, file: HostWafFile, xs: seq<Exclusion>)
    requires AreComments(n) && OneLine(file.mode)
    ensures ReadFile(MODE, Lines(FileLines(n, file, xs))) ==
            AddedByAddresses(MODE, file.allowedIPs) + Added(MODE, xs) + [file.mode]
  {
    ActionNumbers();
    TuningOneLine(file);
    ModeText();
    var (level, t) := (IntText(file.paranoiaLevel), IntText(file.anomalyThreshold));
    hide ReadFile, Lines, FileLines, ReadTexts, IntText, PARANOIA, INBOUND, OUTBOUND, OneLine, Added, AddedByAddresses;
    hide MODE;
    SectionsRead(MODE, n, file, xs);
    TuningRead(MODE, file);
    var (first, second) := (PARANOIA + level + "\"", INBOUND + t + OUTBOUND + t + "\"");
    assert first == TuningLines(file)[0] && first[3] == PARANOIA[3];
    assert second == TuningLines(file)[1] && second[3] == INBOUND[3];
    ReadOther(MODE, first, 3);
    ReadOther(MODE, second, 3);
    AllowReadAs(MODE, file.allowedIPs);
    ReadExclusionsAs(MODE, xs);
    assert "SecRuleEngine " + file.mode == MODE.before + file.mode + MODE.after;
    ReadOwn(MODE, file.mode);
  }

  lemma ModeText()
    ensures MODE.before == "SecRuleEngine " && MODE.after == "" && |MODE.before| > 7
    ensures MODE.before[0] != '#' && MODE.before[3] == 'R' && MODE.before[7] == 'E'
    ensures OneLine(MODE.before) && OneLine(MODE.after)
  {
  }

  /** The addresses are read as listed, separated by commas, exactly if none has a line break. */
  lemma AddressesRead(n: Notes, file: HostWafFile, xs: seq<Exclusion>)
    requires AreComments(n) && OneLine(file.mode)
    ensures var here := ReadTexts(ADDRESSES, AllowLines(file.allowedIPs));
            && ReadFile(ADDRESSES, Lines(FileLines(n, file, xs))) == here + Added(ADDRESSES, xs)
            && (file.allowedIPs == [] ==> here == [])
            && (file.allowedIPs != [] ==>
                  (here == [Join(file.allowedIPs, ",")] <==> forall ip <- file.allowedIPs :: OneLine(ip)))
  {
    ActionNumbers();
    TuningOneLine(file);
    AllowTextsOneLine();
    AllowFourth();
    var (level, t) := (IntText(file.paranoiaLevel), IntText(file.anomalyThreshold));
    hide ReadFile, Lines, FileLines, ReadTexts, IntText, PARANOIA, INBOUND, OUTBOUND, OneLine, Added, Join;
    hide ALLOW, ALLOW_END;
    SectionsRead(ADDRESSES, n, file, xs);
    TuningRead(ADDRESSES, file);
    var (first, second) := (PARANOIA + level + "\"", INBOUND + t + OUTBOUND + t + "\"");
    assert first == TuningLines(file)[0] && first[3] == PARANOIA[3];
    assert second == TuningLines(file)[1] && second[3] == INBOUND[3];
    ReadOther(ADDRESSES, first, 3);
    ReadOther(ADDRESSES, second, 3);
    ReadExclusionsAs(ADDRESSES, xs);
    EngineReadAs(ADDRESSES, file.mode);
    NoTexts(ADDRESSES);
    if file.allowedIPs != [] {
      AddressLineReads(file.allowedIPs);
    }
  }

  lemma AddressLineReads(ips: seq<string>)
    requires ips != []
    ensures ReadTexts(ADDRESSES, AllowLines(ips)) == [Join(ips, ",")] <==> forall ip <- ips :: OneLine(ip)
  {
    AllowTextsOneLine();
    hide ALLOW, ALLOW_END, Join, OneLine, ReadTexts, ReadLines, Split;
    var text := AllowLines(ips)[0];
    assert AllowLines(ips) == [text];
    ReadOne(ADDRESSES, text);
    JoinOneLineIff(ips);
    if OneLine(Join(ips, ",")) {
      ReadOwn(ADDRESSES, Join(ips, ","));
    } else {
      ReadIsOneLine(ADDRESSES, text);
      assert Join(ips, ",") in [Join(ips, ",")];
    }
  }

  lemma {:induction false} JoinOneLineIff(parts: seq<string>)
    ensures OneLine(Join(parts, ",")) <==> forall p <- parts :: OneLine(p)
  {
    hide OneLine;
    if |parts| == 1 {
      assert parts == [parts[0]];
    } else if |parts| > 1 {
      JoinOneLineIff(parts[1..]);
      OneLineConcat(parts[0] + ",", Join(parts[1..], ","));
      OneLineConcat(parts[0], ",");
      CommaOneLine();
      assert parts == [parts[0]] + parts[1..];
    } else {
      CommaOneLine();
    }
  }
}
