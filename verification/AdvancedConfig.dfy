/**
 `splitAdvancedConfigByContext`: a host's custom nginx text is divided into the lines that belong in
 the server block and those that belong in its location block.
 */
module AdvancedConfig {
  import opened GoStrings
  import opened Options

  const CERTIFICATES: set<string> := {
    "ssl_stapling", "ssl_stapling_verify", "ssl_trusted_certificate", "ssl_certificate", "ssl_certificate_key"
  }

  const PROTOCOLS: set<string> := {
    "ssl_protocols", "ssl_ciphers", "ssl_prefer_server_ciphers", "ssl_dhparam", "ssl_ecdh_curve"
  }

  const SESSIONS: set<string> := {
    "ssl_session_cache", "ssl_session_timeout", "ssl_session_tickets", "ssl_session_ticket_key",
    "ssl_early_data", "ssl_conf_command"
  }

  const CLIENTS: set<string> := {
    "ssl_client_certificate", "ssl_verify_client", "ssl_verify_depth", "ssl_password_file", "ssl_crl"
  }

  const OTHERS: set<string> := {
    "ssl_ocsp", "ssl_ocsp_cache", "ssl_ocsp_responder", "ssl_reject_handshake", "listen", "server_name", "http2"
  }

  const SERVER_ONLY: set<string> := CERTIFICATES + PROTOCOLS + SESSIONS + CLIENTS + OTHERS

  /** `\s` of Go's regular expressions, which leaves the vertical tab out. */
  predicate IsRegexSpace(c: char) {
    IsSpace(c) && c != VT
  }

  predicate IsNameChar(c: char) {
    'a' <= c <= 'z' || c == '_'
  }

  /** The longest run of name characters at the front, if white space follows it. */
  function NameThenSpace(s: string): Option<string> {
    if s == "" then None
    else if IsRegexSpace(s[0]) then Some("")
    else if !IsNameChar(s[0]) then None
    else
      var rest := NameThenSpace(s[1..]);
      if rest.Some? then Some([s[0]] + rest.value) else None
  }

  /** What `^\s*([a-z_]+)\s+` captures. */
  function Directive(line: string): Option<string> {
    if line == "" then None
    else if IsRegexSpace(line[0]) then Directive(line[1..])
    else if IsNameChar(line[0]) then NameThenSpace(line)
    else None
  }

  predicate IsServerDirective(line: string) {
    Directive(line).Some? && Directive(line).value in SERVER_ONLY
  }

  /** `^\s*\S+.*\{\s*$` on a trimmed line: it ends with a brace that is not all of it. */
  predicate StartsBlock(trimmed: string) {
    |trimmed| >= 2 && trimmed[|trimmed| - 1] == '{'
  }

  function Count(s: string, c: char): nat {
    if s == "" then 0 else (if s[0] == c then 1 else 0) + Count(s[1..], c)
  }

  /** The block depth after a line met at depth `depth`. */
  function Next(line: string, depth: int): int {
    var trimmed := TrimSpace(line);
    if depth > 0 then depth + Count(trimmed, '{') - Count(trimmed, '}')
    else if StartsBlock(trimmed) then 1
    else depth
  }

  /** A line goes to the server block when it is outside every block and a server-only directive. */
  predicate ToServer(line: string, depth: int) {
    depth <= 0 && !StartsBlock(TrimSpace(line)) && IsServerDirective(line)
  }

  function Sides(lines: seq<string>, depth: int): seq<bool> {
    if lines == [] then [] else [ToServer(lines[0], depth)] + Sides(lines[1..], Next(lines[0], depth))
  }

  function ServerLines(lines: seq<string>, depth: int): seq<string> {
    if lines == [] then []
    else
      var rest := ServerLines(lines[1..], Next(lines[0], depth));
      if ToServer(lines[0], depth) then [lines[0]] + rest else rest
  }

  function LocationLines(lines: seq<string>, depth: int): seq<string> {
    if lines == [] then []
    else
      var rest := LocationLines(lines[1..], Next(lines[0], depth));
      if ToServer(lines[0], depth) then rest else [lines[0]] + rest
  }

  function ServerPart(text: string): string {
    TrimSpace(Join(ServerLines(Split(text, '\n'), 0), "\n"))
  }

  function LocationPart(text: string): string {
    TrimSpace(Join(LocationLines(Split(text, '\n'), 0), "\n"))
  }

  method SplitByContext(text: string) returns (serverPart: string, locationPart: string)
    ensures serverPart == ServerPart(text)
    ensures locationPart == LocationPart(text)
  {
    hide TrimSpace, Count, Directive, Join, Split, ServerLines, LocationLines, SERVER_ONLY;
    var lines := Split(text, '\n');
    assert lines[0..] == lines;
    var serverLines: seq<string>, locationLines: seq<string> := [], [];
    var inBlock := 0;
    for i := 0 to |lines|
      invariant serverLines + ServerLines(lines[i..], inBlock) == ServerLines(lines, 0)
      invariant locationLines + LocationLines(lines[i..], inBlock) == LocationLines(lines, 0)
    {
      var line := lines[i];
      var trimmed := TrimSpace(line);
      MeetLine(lines, i, inBlock);
      if inBlock > 0 {
        locationLines := locationLines + [line];
        inBlock := inBlock + Count(trimmed, '{') - Count(trimmed, '}');
      } else if StartsBlock(trimmed) {
        locationLines := locationLines + [line];
        inBlock := 1;
      } else {
        var name := Directive(line);
        if name.Some? && name.value in SERVER_ONLY {
          serverLines := serverLines + [line];
        } else {
          locationLines := locationLines + [line];
        }
      }
    }
    NoLinesLeft(lines, inBlock);
    assert serverLines + [] == serverLines && locationLines + [] == locationLines;
    serverPart := TrimSpace(Join(serverLines, "\n"));
    locationPart := TrimSpace(Join(locationLines, "\n"));
  }

  /** One step down the list. */
  lemma MeetLine(lines: seq<string>, i: nat, depth: int)
    requires i < |lines|
    ensures var here, rest := ToServer(lines[i], depth), lines[i + 1..];
            var next := Next(lines[i], depth);
            && ServerLines(lines[i..], depth) == (if here then [lines[i]] else []) + ServerLines(rest, next)
            && LocationLines(lines[i..], depth) == (if here then [] else [lines[i]]) + LocationLines(rest, next)
  {
    hide ToServer, Next;
    assert lines[i..][1..] == lines[i + 1..];
  }

  lemma NoLinesLeft(lines: seq<string>, depth: int)
    ensures ServerLines(lines[|lines|..], depth) == [] && LocationLines(lines[|lines|..], depth) == []
  {}

  // ---- the split is an order-preserving partition ----

  /** Puts two lists back together, taking each next line from the side named for it. */
  function Interleave(sides: seq<bool>, server: seq<string>, location: seq<string>): Option<seq<string>> {
    if sides == [] then
      if server == [] && location == [] then Some([]) else None
    else if sides[0] then
      if server == [] then None else Before(server[0], Interleave(sides[1..], server[1..], location))
    else
      if location == [] then None else Before(location[0], Interleave(sides[1..], server, location[1..]))
  }

  function Before(line: string, rest: Option<seq<string>>): Option<seq<string>> {
    if rest.Some? then Some([line] + rest.value) else None
  }

  /** No line is lost, repeated or moved past another of its own side. */
  lemma {:induction false} SplitIsPartition(lines: seq<string>, depth: int)
    ensures Interleave(Sides(lines, depth), ServerLines(lines, depth), LocationLines(lines, depth)) == Some(lines)
  {
    hide ToServer, Next;
    if lines != [] {
      SplitIsPartition(lines[1..], Next(lines[0], depth));
      assert [lines[0]] + lines[1..] == lines;
      assert Sides(lines, depth)[1..] == Sides(lines[1..], Next(lines[0], depth));
    }
  }

  function DepthAfter(lines: seq<string>, depth: int): int {
    if lines == [] then depth else DepthAfter(lines[1..], Next(lines[0], depth))
  }

  /** Which side a line lands on is decided by the lines before it and by itself. */
  lemma {:induction false} SideOfLine(lines: seq<string>, depth: int, k: nat)
    requires k < |lines|
    ensures |Sides(lines, depth)| == |lines|
    ensures Sides(lines, depth)[k] <==> ToServer(lines[k], DepthAfter(lines[..k], depth))
  {
    hide ToServer, Next;
    if k == 0 {
      if |lines| > 1 { SideOfLine(lines[1..], Next(lines[0], depth), 0); }
    } else {
      assert lines[..k][1..] == lines[1..][..k - 1];
      SideOfLine(lines[1..], Next(lines[0], depth), k - 1);
    }
  }

  // ---- which lines are server-only ----

  predicate IsName(s: string) {
    s != "" && forall c <- s :: IsNameChar(c)
  }

  predicate RegexSpaces(s: string) {
    forall c <- s :: IsRegexSpace(c)
  }

  lemma {:induction false} NameOf(name: string, c: char, rest: string)
    requires (forall d <- name :: IsNameChar(d)) && IsRegexSpace(c)
    ensures NameThenSpace(name + [c] + rest) == Some(name)
  {
    var s := name + [c] + rest;
    if name == "" {
      assert s[0] == c;
    } else {
      assert s[0] == name[0] && s[1..] == name[1..] + [c] + rest;
      assert IsNameChar(name[0]);
      assert [name[0]] + name[1..] == name;
      NameOf(name[1..], c, rest);
    }
  }

  lemma {:induction false} NameHasShape(s: string) returns (c: char, rest: string)
    requires NameThenSpace(s).Some?
    ensures var name := NameThenSpace(s).value;
            s == name + [c] + rest && (forall d <- name :: IsNameChar(d)) && IsRegexSpace(c)
  {
    if IsRegexSpace(s[0]) {
      c, rest := s[0], s[1..];
      assert s == "" + [c] + rest;
    } else {
      c, rest := NameHasShape(s[1..]);
      var tail := NameThenSpace(s[1..]).value;
      assert s == [s[0]] + s[1..] && [s[0]] + (tail + [c] + rest) == [s[0]] + tail + [c] + rest;
    }
  }

  lemma {:induction false} DirectiveOf(front: string, name: string, c: char, rest: string)
    requires RegexSpaces(front) && IsName(name) && IsRegexSpace(c)
    ensures Directive(front + (name + [c] + rest)) == Some(name)
  {
    var (line, tail) := (front + (name + [c] + rest), name + [c] + rest);
    if front == "" {
      assert line == tail && tail[0] == name[0];
      NameOf(name, c, rest);
    } else {
      assert line[0] == front[0] && line[1..] == front[1..] + tail;
      DirectiveOf(front[1..], name, c, rest);
    }
  }

  lemma {:induction false} DirectiveHasShape(line: string) returns (front: string, c: char, rest: string)
    requires Directive(line).Some?
    ensures var name := Directive(line).value;
            line == front + (name + [c] + rest) && RegexSpaces(front) && IsName(name) && IsRegexSpace(c)
  {
    if IsRegexSpace(line[0]) {
      front, c, rest := DirectiveHasShape(line[1..]);
      var tail := Directive(line).value + [c] + rest;
      assert line == [line[0]] + line[1..] && [line[0]] + (front + tail) == [line[0]] + front + tail;
      front := [line[0]] + front;
    } else {
      front := "";
      c, rest := NameHasShape(line);
      assert line == front + (Directive(line).value + [c] + rest);
      assert line[0] == (Directive(line).value + [c])[0];
    }
  }

  lemma CertificateNames(name: string)
    requires name in CERTIFICATES
    ensures IsName(name) && name[0] == 's'
  {
  }

  lemma ProtocolNames(name: string)
    requires name in PROTOCOLS
    ensures IsName(name) && name[0] == 's'
  {
  }

  lemma SessionNames(name: string)
    requires name in SESSIONS
    ensures IsName(name) && name[0] == 's'
  {
  }

  lemma ClientNames(name: string)
    requires name in CLIENTS
    ensures IsName(name) && name[0] == 's'
  {
  }

  lemma OtherNames(name: string)
    requires name in OTHERS
    ensures IsName(name) <==> name != "http2"
  {
    if name == "http2" {
      assert !IsNameChar(name[4]);
    }
  }

  /** The pattern captures no digits, so of the names in the table one can never be captured. */
  lemma NamesOfTheTable(name: string)
    requires name in SERVER_ONLY
    ensures IsName(name) <==> name != "http2"
  {
    hide IsName;
    hide CERTIFICATES, PROTOCOLS, SESSIONS, CLIENTS, OTHERS;
    if name in CERTIFICATES {
      CertificateNames(name);
    } else if name in PROTOCOLS {
      ProtocolNames(name);
    } else if name in SESSIONS {
      SessionNames(name);
    } else if name in CLIENTS {
      ClientNames(name);
    } else {
      OtherNames(name);
    }
    assert "http2"[0] == 'h';
  }

  lemma Http2IsNeverCaptured(line: string)
    ensures Directive(line) != Some("http2")
  {
    if Directive(line) == Some("http2") {
      var front, c, rest := DirectiveHasShape(line);
      NamesOfTheTable("http2");
    }
  }

  /** A line that starts, after white space, with this name and white space. */
  ghost predicate StartsWithName(line: string, name: string) {
    exists front, c, rest :: line == front + (name + [c] + rest) && RegexSpaces(front) && IsRegexSpace(c)
  }

  /**
   A line is a server-only directive exactly if, after white space, it starts with a name of the table
   and white space, and the name is not `http2`.
   */
  lemma ServerDirectiveIff(line: string)
    ensures IsServerDirective(line) <==>
            exists name <- SERVER_ONLY :: name != "http2" && StartsWithName(line, name)
  {
    hide SERVER_ONLY, Directive, IsName;
    if IsServerDirective(line) {
      var front, c, rest := DirectiveHasShape(line);
      NamesOfTheTable(Directive(line).value);
      assert StartsWithName(line, Directive(line).value);
    }
    if name :| name in SERVER_ONLY && name != "http2" && StartsWithName(line, name) {
      var front, c, rest :| line == front + (name + [c] + rest) && RegexSpaces(front) && IsRegexSpace(c);
      NamesOfTheTable(name);
      DirectiveOf(front, name, c, rest);
    }
  }
}
