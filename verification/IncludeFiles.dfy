/**
 The generated files that list addresses or agents, one to a line: banned addresses, a host's cloud
 ranges, and the two files of the filter subscriptions. What is listed can be read back.
 */
module IncludeFiles {
  import opened GoStrings
  import opened Options

  predicate OneLine(s: string) {
    '\n' !in s
  }

  /** Each line followed by a newline. */
  function Lines(ls: seq<string>): string {
    if ls == [] then "" else ls[0] + "\n" + Lines(ls[1..])
  }

  /** How a value is written on its line. */
  datatype Form = Form(before: string, after: string)

  function Line(f: Form, x: string): string {
    f.before + x + f.after
  }

  function Listing(f: Form, xs: seq<string>): (ls: seq<string>)
    ensures |ls| == |xs|
  {
    if xs == [] then [] else [Line(f, xs[0])] + Listing(f, xs[1..])
  }

  const DENY := Form("deny ", ";")
  const CLOUD := Form("    ", " 1;")
  const FILTER_IP := Form("    ", " 2;")
  const FILTER_UA := Form("    \"~*", "\" 1;")

  /** The opening comments, whose wording the model leaves open. */
  predicate Comments(head: seq<string>) {
    forall l <- head :: OneLine(l) && (l != "" ==> l[0] == '#')
  }

  const NO_BANNED := "# No banned IPs"

  function BannedLines(head: seq<string>, ips: seq<string>): seq<string> {
    head + if ips == [] then [NO_BANNED] else Listing(DENY, ips)
  }

  const MAP_OPENING := "map $http_user_agent" + " $filter_sub_ua_" + "blocked {"
  const MAP_DEFAULT := "    default 0;"

  function FilterUaLines(head: seq<string>, uas: seq<string>): seq<string> {
    head + [MAP_OPENING, MAP_DEFAULT] + Listing(FILTER_UA, uas) + ["}"]
  }

  /** The lines as nginx gets them: a banned address, a cloud range, a filtered address and a filtered agent. */
  lemma EntryLines(xs: seq<string>, k: nat)
    requires k < |xs|
    ensures Listing(DENY, xs)[k] == "deny " + xs[k] + ";"
    ensures Listing(CLOUD, xs)[k] == "    " + xs[k] + " 1;"
    ensures Listing(FILTER_IP, xs)[k] == "    " + xs[k] + " 2;"
    ensures Listing(FILTER_UA, xs)[k] == "    \"~*" + xs[k] + "\" 1;"
  {
    ListingAt(DENY, xs, k);
    ListingAt(CLOUD, xs, k);
    ListingAt(FILTER_IP, xs, k);
    ListingAt(FILTER_UA, xs, k);
  }

  lemma {:induction false} ListingAt(f: Form, xs: seq<string>, k: nat)
    requires k < |xs|
    ensures Listing(f, xs)[k] == f.before + xs[k] + f.after
  {
    if k > 0 {
      ListingAt(f, xs[1..], k - 1);
    }
  }

  /** The map of agents: which variable it sets from which, and to what unless an agent is listed. */
  lemma MapLines(head: seq<string>, uas: seq<string>)
    ensures FilterUaLines(head, uas) ==
            head + ["map $http_user_agent $filter_sub_ua_blocked {", "    default 0;"] + Listing(FILTER_UA, uas) + ["}"]
  {
    hide Listing;
    assert MAP_OPENING == "map $http_user_agent $filter_sub_ua_blocked {";
  }

  // ---- writing ----

  lemma {:induction false} LinesConcat(a: seq<string>, b: seq<string>)
    ensures Lines(a + b) == Lines(a) + Lines(b)
  {
    if a == [] {
      assert a + b == b;
    } else {
      assert (a + b)[1..] == a[1..] + b;
      LinesConcat(a[1..], b);
    }
  }

  lemma OneMoreLine(l: string)
    ensures Lines([l]) == l + "\n"
  {
    assert [l][1..] == [];
    assert l + "\n" + "" == l + "\n";
  }

  lemma {:induction false} ListingSnoc(f: Form, xs: seq<string>, x: string)
    ensures Listing(f, xs + [x]) == Listing(f, xs) + [Line(f, x)]
  {
    if xs == [] {
      assert xs + [x] == [x] && [x][1..] == [];
    } else {
      assert (xs + [x])[1..] == xs[1..] + [x];
      ListingSnoc(f, xs[1..], x);
    }
  }

  /** The loop all four files are built with. */
  method WriteList(head: seq<string>, f: Form, xs: seq<string>) returns (text: string)
    ensures text == Lines(head + Listing(f, xs))
  {
    text := Lines(head);
    assert head + Listing(f, xs[..0]) == head;
    for i := 0 to |xs|
      invariant text == Lines(head + Listing(f, xs[..i]))
    {
      assert xs[..i + 1] == xs[..i] + [xs[i]];
      ListingSnoc(f, xs[..i], xs[i]);
      assert head + Listing(f, xs[..i + 1]) == head + Listing(f, xs[..i]) + [Line(f, xs[i])];
      LinesConcat(head + Listing(f, xs[..i]), [Line(f, xs[i])]);
      OneMoreLine(Line(f, xs[i]));
      text := text + (Line(f, xs[i]) + "\n");
    }
    assert xs[..|xs|] == xs;
  }

  method BannedIPs(head: seq<string>, ips: seq<string>) returns (text: string)
    ensures text == Lines(BannedLines(head, ips))
  {
    if |ips| == 0 {
      text := Lines(head + [NO_BANNED]);
    } else {
      text := WriteList(head, DENY, ips);
    }
  }

  /** No ranges, no file. */
  method CloudIPsInclude(head: seq<string>, ranges: seq<string>) returns (text: Option<string>)
    ensures text == if ranges == [] then None else Some(Lines(head + Listing(CLOUD, ranges)))
  {
    if |ranges| == 0 {
      return None;
    }
    var t := WriteList(head, CLOUD, ranges);
    text := Some(t);
  }

  method FilterSubscriptionIPs(head: seq<string>, ips: seq<string>) returns (text: string)
    ensures text == Lines(head + Listing(FILTER_IP, ips))
  {
    text := WriteList(head, FILTER_IP, ips);
  }

  method FilterSubscriptionUAs(head: seq<string>, uas: seq<string>) returns (text: string)
    ensures text == Lines(FilterUaLines(head, uas))
  {
    hide Lines, Listing;
    ghost var start := head + [MAP_OPENING, MAP_DEFAULT];
    text := WriteList(head + [MAP_OPENING, MAP_DEFAULT], FILTER_UA, uas);
    LinesConcat(start + Listing(FILTER_UA, uas), ["}"]);
    OneMoreLine("}");
    text := text + "}\n";
  }

  // ---- reading back ----

  function ReadLine(f: Form, l: string): Option<string> {
    var (b, a) := (|f.before|, |f.after|);
    if |l| >= b + a && l[..b] == f.before && l[|l| - a..] == f.after then Some(l[b..|l| - a]) else None
  }

  function ReadLines(f: Form, ls: seq<string>): seq<string> {
    if ls == [] then []
    else
      var x := ReadLine(f, ls[0]);
      (if x.Some? then [x.value] else []) + ReadLines(f, ls[1..])
  }

  /** The values listed in a file. */
  function ReadFile(f: Form, text: string): seq<string> {
    ReadLines(f, Split(text, '\n'))
  }

  /** The lines a reader sees: a text with line breaks of its own counts as several. */
  function Pieces(ls: seq<string>): seq<string> {
    if ls == [] then [] else Split(ls[0], '\n') + Pieces(ls[1..])
  }

  lemma {:induction false} SplitAcross(a: string, b: string)
    ensures Split(a + "\n" + b, '\n') == Split(a, '\n') + Split(b, '\n')
  {
    var s := a + "\n" + b;
    if a == "" {
      assert s == ['\n'] + b && s[1..] == b;
    } else {
      assert s[1..] == a[1..] + "\n" + b;
      SplitAcross(a[1..], b);
    }
  }

  lemma {:induction false} SplitLines(ls: seq<string>)
    ensures Split(Lines(ls), '\n') == Pieces(ls) + [""]
  {
    if ls != [] {
      hide Split;
      SplitLines(ls[1..]);
      SplitAcross(ls[0], Lines(ls[1..]));
    }
  }

  lemma {:induction false} ReadLinesConcat(f: Form, a: seq<string>, b: seq<string>)
    ensures ReadLines(f, a + b) == ReadLines(f, a) + ReadLines(f, b)
  {
    if a == [] {
      assert a + b == b;
    } else {
      assert (a + b)[1..] == a[1..] + b;
      ReadLinesConcat(f, a[1..], b);
    }
  }

  lemma ReadLineOfLine(f: Form, x: string)
    ensures ReadLine(f, Line(f, x)) == Some(x)
  {
    var l := Line(f, x);
    assert l[..|f.before|] == f.before && l[|l| - |f.after|..] == f.after;
    assert l[|f.before|..|l| - |f.after|] == x;
  }

  lemma {:induction false} ReadListing(f: Form, xs: seq<string>)
    ensures ReadLines(f, Listing(f, xs)) == xs
  {
    if xs != [] {
      ReadListing(f, xs[1..]);
      ReadLineOfLine(f, xs[0]);
      var ls := Listing(f, xs);
      assert ls[1..] == Listing(f, xs[1..]);
    }
  }

  predicate Foreign(f: Form, l: string) {
    OneLine(l) && ReadLine(f, l) == None
  }

  lemma {:induction false} ReadForeign(f: Form, ls: seq<string>)
    requires forall l <- ls :: Foreign(f, l)
    ensures ReadLines(f, ls) == []
  {
    if ls != [] {
      ReadForeign(f, ls[1..]);
      assert Foreign(f, ls[0]);
    }
  }

  /** What is read in a list of texts, each of which may have line breaks. */
  function ReadTexts(f: Form, ls: seq<string>): seq<string> {
    if ls == [] then [] else ReadLines(f, Split(ls[0], '\n')) + ReadTexts(f, ls[1..])
  }

  lemma {:induction false} ReadPieces(f: Form, ls: seq<string>)
    ensures ReadLines(f, Pieces(ls)) == ReadTexts(f, ls)
  {
    hide Split, ReadLine;
    if ls != [] {
      ReadPieces(f, ls[1..]);
      ReadLinesConcat(f, Split(ls[0], '\n'), Pieces(ls[1..]));
    }
  }

  /** Reading a file is reading its texts one after the other, whatever they contain. */
  lemma ReadFileIsReadTexts(f: Form, ls: seq<string>)
    requires f.before != ""
    ensures ReadFile(f, Lines(ls)) == ReadTexts(f, ls)
  {
    hide Split, Lines, ReadLine, Pieces, ReadTexts;
    SplitLines(ls);
    ReadLinesConcat(f, Pieces(ls), [""]);
    ReadPieces(f, ls);
    EmptyIsForeign(f);
    ReadForeign(f, [""]);
    assert ReadTexts(f, ls) + [] == ReadTexts(f, ls);
  }

  lemma {:induction false} ReadTextsConcat(f: Form, a: seq<string>, b: seq<string>)
    ensures ReadTexts(f, a + b) == ReadTexts(f, a) + ReadTexts(f, b)
  {
    hide Split, ReadLine, ReadLines;
    if a == [] {
      assert a + b == b;
    } else {
      assert (a + b)[1..] == a[1..] + b;
      ReadTextsConcat(f, a[1..], b);
    }
  }

  lemma {:induction false} ReadForeignTexts(f: Form, ls: seq<string>)
    requires forall l <- ls :: Foreign(f, l)
    ensures ReadTexts(f, ls) == []
  {
    hide Split, ReadLine;
    if ls != [] {
      assert Foreign(f, ls[0]);
      ReadForeignTexts(f, ls[1..]);
      SplitWithout(ls[0], '\n');
      ReadForeign(f, [ls[0]]);
    }
  }

  lemma {:induction false} ReadListingTexts(f: Form, xs: seq<string>)
    requires OneLine(f.before) && OneLine(f.after) && forall x <- xs :: OneLine(x)
    ensures ReadTexts(f, Listing(f, xs)) == xs
  {
    hide Split, ReadLine;
    if xs != [] {
      ReadListingTexts(f, xs[1..]);
      assert OneLine(xs[0]) && OneLine(Line(f, xs[0]));
      SplitWithout(Line(f, xs[0]), '\n');
      ReadListing(f, [xs[0]]);
      assert Listing(f, [xs[0]]) == [Line(f, xs[0])] by { assert [xs[0]][1..] == []; }
      assert Listing(f, xs)[1..] == Listing(f, xs[1..]);
    }
  }

  /** A file of entries between lines of another form gives exactly its entries. */
  lemma ReadFileOfLines(f: Form, head: seq<string>, xs: seq<string>, tail: seq<string>)
    requires OneLine(f.before) && OneLine(f.after) && f.before != "" && forall x <- xs :: OneLine(x)
    requires forall l <- head + tail :: Foreign(f, l)
    ensures ReadFile(f, Lines(head + Listing(f, xs) + tail)) == xs
  {
    hide ReadFile, Lines, ReadTexts, Foreign;
    ReadFileIsReadTexts(f, head + Listing(f, xs) + tail);
    ReadTextsConcat(f, head + Listing(f, xs), tail);
    ReadTextsConcat(f, head, Listing(f, xs));
    ReadListingTexts(f, xs);
    ReadForeignTexts(f, head);
    ReadForeignTexts(f, tail);
    assert [] + xs + [] == xs;
  }

  lemma EmptyIsForeign(f: Form)
    requires f.before != ""
    ensures Foreign(f, "")
  {
  }

  /** A line that differs from the form's beginning in one character. */
  lemma DiffersIsForeign(f: Form, l: string, k: nat)
    requires k < |f.before| && k < |l| && l[k] != f.before[k] && OneLine(l)
    ensures Foreign(f, l)
  {
    if |l| >= |f.before| {
      assert l[..|f.before|][k] == l[k];
    }
  }

  lemma CommentsAreForeign(f: Form, head: seq<string>)
    requires Comments(head) && f.before != "" && f.before[0] != '#'
    ensures forall l <- head :: Foreign(f, l)
  {
    hide ReadLine;
    forall l | l in head ensures Foreign(f, l) {
      if l == "" {
        EmptyIsForeign(f);
      } else {
        DiffersIsForeign(f, l, 0);
      }
    }
  }

  lemma {:induction false} ReadLinesOneLine(f: Form, ls: seq<string>)
    requires forall l <- ls :: OneLine(l)
    ensures forall x <- ReadLines(f, ls) :: OneLine(x)
  {
    if ls != [] {
      ReadLinesOneLine(f, ls[1..]);
      assert OneLine(ls[0]);
    }
  }

  /** What is read from a file never has a line break. */
  lemma ReadIsOneLine(f: Form, text: string)
    ensures forall x <- ReadFile(f, text) :: OneLine(x)
  {
    hide Split, ReadLine;
    SplitHasNoSeparator(text, '\n');
    ReadLinesOneLine(f, Split(text, '\n'));
  }

  /**
   Everything banned is in the file and nothing else, exactly if no entry has a line break; the placeholder
   line bans no one.
   */
  lemma BannedReadsBack(head: seq<string>, ips: seq<string>)
    requires Comments(head)
    ensures ReadFile(DENY, Lines(BannedLines(head, ips))) == ips <==> forall x <- ips :: OneLine(x)
  {
    hide Lines, ReadFile, Foreign;
    var none := if ips == [] then [NO_BANNED] else [];
    CommentsAreForeign(DENY, head);
    CommentsAreForeign(DENY, [NO_BANNED]);
    assert BannedLines(head, ips) == head + Listing(DENY, ips) + none;
    ReadIsOneLine(DENY, Lines(BannedLines(head, ips)));
    if forall x <- ips :: OneLine(x) {
      ReadFileOfLines(DENY, head, ips, none);
    }
  }

  lemma CloudReadsBack(head: seq<string>, ranges: seq<string>)
    requires Comments(head)
    ensures ReadFile(CLOUD, Lines(head + Listing(CLOUD, ranges))) == ranges <==> forall x <- ranges :: OneLine(x)
  {
    hide Lines, ReadFile, Foreign;
    CommentsAreForeign(CLOUD, head);
    assert head + Listing(CLOUD, ranges) == head + Listing(CLOUD, ranges) + [];
    ReadIsOneLine(CLOUD, Lines(head + Listing(CLOUD, ranges)));
    if forall x <- ranges :: OneLine(x) {
      ReadFileOfLines(CLOUD, head, ranges, []);
    }
  }

  lemma FilterIpsReadBack(head: seq<string>, ips: seq<string>)
    requires Comments(head)
    ensures ReadFile(FILTER_IP, Lines(head + Listing(FILTER_IP, ips))) == ips <==> forall x <- ips :: OneLine(x)
  {
    hide Lines, ReadFile, Foreign;
    CommentsAreForeign(FILTER_IP, head);
    assert head + Listing(FILTER_IP, ips) == head + Listing(FILTER_IP, ips) + [];
    ReadIsOneLine(FILTER_IP, Lines(head + Listing(FILTER_IP, ips)));
    if forall x <- ips :: OneLine(x) {
      ReadFileOfLines(FILTER_IP, head, ips, []);
    }
  }

  lemma MapLinesAreForeign()
    ensures Foreign(FILTER_UA, MAP_OPENING) && Foreign(FILTER_UA, MAP_DEFAULT) && Foreign(FILTER_UA, "}")
  {
    hide ReadLine;
    var (a, b, c) := ("map $http_user_agent", " $filter_sub_ua_", "blocked {");
    assert a[0] == 'm' && OneLine(a) && OneLine(b) && OneLine(c);
    assert MAP_OPENING[0] == a[0] && OneLine(MAP_OPENING);
    DiffersIsForeign(FILTER_UA, MAP_OPENING, 0);
    DiffersIsForeign(FILTER_UA, MAP_DEFAULT, 4);
    DiffersIsForeign(FILTER_UA, "}", 0);
  }

  lemma FilterUasReadBack(head: seq<string>, uas: seq<string>)
    requires Comments(head)
    ensures ReadFile(FILTER_UA, Lines(FilterUaLines(head, uas))) == uas <==> forall x <- uas :: OneLine(x)
  {
    hide Lines, ReadFile, Foreign;
    CommentsAreForeign(FILTER_UA, head);
    MapLinesAreForeign();
    ReadIsOneLine(FILTER_UA, Lines(FilterUaLines(head, uas)));
    if forall x <- uas :: OneLine(x) {
      ReadFileOfLines(FILTER_UA, head + [MAP_OPENING, MAP_DEFAULT], uas, ["}"]);
    }
  }
}
