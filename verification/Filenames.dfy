/**
 Config file names. A host's config is stored under a name made from its first domain, so two hosts
 overwrite each other's config exactly when their names agree.
 */
module Filenames {
  import opened GoStrings

  predicate IsAlnum(c: char) {
    'a' <= c <= 'z' || 'A' <= c <= 'Z' || '0' <= c <= '9'
  }

  function SafeChar(c: char): char {
    if IsAlnum(c) || c == '-' then c else '_'
  }

  /** Every character outside [a-zA-Z0-9-] becomes an underscore. */
  function SafeChars(s: string): (t: string)
    ensures |t| == |s|
    ensures forall k :: 0 <= k < |s| ==> t[k] == SafeChar(s[k])
  {
    seq(|s|, k requires 0 <= k < |s| => SafeChar(s[k]))
  }

  /** Runs of underscores become one. */
  function Collapse(s: string): string {
    if s == "" then ""
    else if |s| >= 2 && s[0] == '_' && s[1] == '_' then Collapse(s[1..])
    else [s[0]] + Collapse(s[1..])
  }

  function TrimFront(s: string): string {
    if s != "" && s[0] == '_' then TrimFront(s[1..]) else s
  }

  function TrimBack(s: string): string {
    if s != "" && s[|s| - 1] == '_' then TrimBack(s[..|s| - 1]) else s
  }

  function SanitizeFilename(domain: string): string {
    var safe := SafeChars(domain);
    var single := Collapse(safe);
    var trimmed := TrimBack(TrimFront(single));
    ToLower(trimmed)
  }

  datatype Host = Host(id: string, domainNames: seq<string>)

  function ConfigName(prefix: string, host: Host): string {
    if host.domainNames == [] then prefix + host.id + ".conf"
    else
      var safeName := SanitizeFilename(host.domainNames[0]);
      if safeName == "" then prefix + host.id + ".conf" else prefix + safeName + ".conf"
  }

  function GetConfigFilename(host: Host): string {
    ConfigName("proxy_host_", host)
  }

  function GetRedirectConfigFilename(host: Host): string {
    ConfigName("redirect_host_", host)
  }

  // ---- sanitizeFilename is a projection onto the clean names ----

  predicate NoDoubled(s: string) {
    forall k :: 0 <= k < |s| - 1 ==> !(s[k] == '_' && s[k + 1] == '_')
  }

  /** Lower case, no underscore at an end and none doubled. */
  predicate IsClean(s: string) {
    && (forall k :: 0 <= k < |s| ==> s[k] == '_' || s[k] == '-' || 'a' <= s[k] <= 'z' || '0' <= s[k] <= '9')
    && NoDoubled(s)
    && (s == "" || (s[0] != '_' && s[|s| - 1] != '_'))
  }

  predicate IsSafe(s: string) {
    forall k :: 0 <= k < |s| ==> SafeChar(s[k]) == s[k]
  }

  lemma {:induction false} CollapseShape(s: string)
    requires IsSafe(s)
    ensures IsSafe(Collapse(s)) && NoDoubled(Collapse(s))
    ensures s != "" ==> Collapse(s) != "" && Collapse(s)[0] == s[0]
  {
    if s != "" {
      CollapseShape(s[1..]);
      if !(|s| >= 2 && s[0] == '_' && s[1] == '_') {
        var rest := Collapse(s[1..]);
        assert forall k :: 1 <= k < 1 + |rest| ==> ([s[0]] + rest)[k] == rest[k - 1];
      }
    }
  }

  lemma {:induction false} TrimFrontShape(s: string)
    requires IsSafe(s) && NoDoubled(s)
    ensures var t := TrimFront(s); IsSafe(t) && NoDoubled(t) && (t == "" || t[0] != '_')
  {
    if s != "" && s[0] == '_' {
      assert forall k :: 0 <= k < |s| - 1 ==> s[1..][k] == s[k + 1];
      TrimFrontShape(s[1..]);
    }
  }

  lemma {:induction false} TrimBackShape(s: string)
    requires IsSafe(s) && NoDoubled(s)
    ensures var t := TrimBack(s); IsSafe(t) && NoDoubled(t) && (t == "" || t[|t| - 1] != '_')
    ensures var t := TrimBack(s); t == "" || t[0] == s[0]
  {
    if s != "" && s[|s| - 1] == '_' {
      TrimBackShape(s[..|s| - 1]);
    }
  }

  lemma SanitizedIsClean(domain: string)
    ensures IsClean(SanitizeFilename(domain))
  {
    var safe := SafeChars(domain);
    assert IsSafe(safe);
    CollapseShape(safe);
    TrimFrontShape(Collapse(safe));
    TrimBackShape(TrimFront(Collapse(safe)));
  }

  lemma {:induction false} CollapseNothing(s: string)
    requires NoDoubled(s)
    ensures Collapse(s) == s
  {
    if s != "" {
      assert forall k :: 0 <= k < |s| - 1 ==> s[1..][k] == s[k + 1];
      CollapseNothing(s[1..]);
    }
  }

  /** Exactly the clean names are left as they are. */
  lemma SanitizeFixesCleanNames(s: string)
    ensures SanitizeFilename(s) == s <==> IsClean(s)
  {
    SanitizedIsClean(s);
    if IsClean(s) {
      assert SafeChars(s) == s;
      CollapseNothing(s);
      assert ToLower(s) == s;
    }
  }

  lemma SanitizeIdempotent(s: string)
    ensures SanitizeFilename(SanitizeFilename(s)) == SanitizeFilename(s)
  {
    SanitizedIsClean(s);
    SanitizeFixesCleanNames(SanitizeFilename(s));
  }

  // ---- file names of accepted domains ----

  const MAX_DOMAIN_LENGTH := 253

  predicate OnlyLabelChars(s: string) {
    forall k :: 0 <= k < |s| ==> IsAlnum(s[k]) || s[k] == '-'
  }

  /** One label of a domain name, as the domain regex has it. */
  predicate IsLabel(s: string) {
    && 1 <= |s| <= 63
    && IsAlnum(s[0]) && IsAlnum(s[|s| - 1])
    && OnlyLabelChars(s)
  }

  predicate MatchesDomainRegex(s: string) {
    var labels := Split(s, '.');
    forall k :: 0 <= k < |labels| ==> IsLabel(labels[k])
  }

  /** The domain without the `*.` of a wildcard. */
  function BaseDomain(domain: string): string {
    if HasPrefix(domain, "*.") then domain[2..] else domain
  }

  predicate ValidateDomainName(domain: string) {
    0 < |domain| <= MAX_DOMAIN_LENGTH && MatchesDomainRegex(BaseDomain(domain))
  }

  predicate NonEmptyFrom(parts: seq<string>, n: nat) {
    forall k :: n <= k < |parts| ==> parts[k] != ""
  }

  predicate AllLabelChars(parts: seq<string>) {
    forall k :: 0 <= k < |parts| ==> OnlyLabelChars(parts[k])
  }

  lemma {:induction false} LaterLabelsNonEmpty(s: string)
    requires NonEmptyFrom(Split(s, '.'), 1)
    ensures forall k :: 0 <= k < |s| - 1 ==> !(s[k] == '.' && s[k + 1] == '.')
    ensures s != "" ==> s[|s| - 1] != '.'
  {
    if s != "" {
      var rest, parts := Split(s[1..], '.'), Split(s, '.');
      if s[0] == '.' {
        assert parts[1] == rest[0];
        assert forall k :: 0 <= k < |rest| ==> rest[k] == parts[k + 1];
      } else {
        assert forall k :: 1 <= k < |rest| ==> rest[k] == parts[k];
      }
      LaterLabelsNonEmpty(s[1..]);
      assert forall k :: 1 <= k < |s| ==> s[k] == s[1..][k - 1];
    }
  }

  lemma {:induction false} LabelCharacters(s: string)
    requires AllLabelChars(Split(s, '.'))
    ensures forall k :: 0 <= k < |s| ==> IsAlnum(s[k]) || s[k] == '-' || s[k] == '.'
  {
    if s != "" {
      var rest, parts := Split(s[1..], '.'), Split(s, '.');
      forall k | 0 <= k < |rest| ensures OnlyLabelChars(rest[k]) {
        if s[0] == '.' {
          assert parts[k + 1] == rest[k];
        } else if k == 0 {
          assert OnlyLabelChars(parts[0]);
          assert forall i :: 0 <= i < |rest[0]| ==> rest[0][i] == parts[0][i + 1];
        } else {
          assert parts[k] == rest[k];
        }
      }
      LabelCharacters(s[1..]);
      assert OnlyLabelChars(parts[0]);
      assert s[0] != '.' ==> parts[0][0] == s[0];
    }
  }

  /** Dots stand alone, between letters, digits and hyphens. */
  predicate IsDotted(s: string) {
    && (forall k :: 0 <= k < |s| ==> IsAlnum(s[k]) || s[k] == '-' || s[k] == '.')
    && (forall k :: 0 <= k < |s| - 1 ==> !(s[k] == '.' && s[k + 1] == '.'))
    && s != "" && s[0] != '.' && s[|s| - 1] != '.'
  }

  lemma DomainIsDotted(s: string)
    requires MatchesDomainRegex(s)
    ensures IsDotted(s)
  {
    var parts := Split(s, '.');
    assert IsLabel(parts[0]);
    forall k | 0 <= k < |parts| ensures OnlyLabelChars(parts[k]) && parts[k] != "" { assert IsLabel(parts[k]); }
    LabelCharacters(s);
    LaterLabelsNonEmpty(s);
  }

  /** A domain's file name is the lower-case domain with its dots turned into underscores. */
  lemma SanitizedDomain(s: string)
    requires IsDotted(s)
    ensures SanitizeFilename(s) == ToLower(SafeChars(s)) != ""
  {
    var safe := SafeChars(s);
    CollapseNothing(safe);
    assert TrimFront(safe) == safe && TrimBack(safe) == safe;
  }

  lemma CollapseTwo(x: string)
    requires x != "" && x[0] == '_'
    ensures Collapse("_" + x) == Collapse(x)
  {
    assert ("_" + x)[1..] == x;
  }

  lemma OneUnderscore(x: string)
    requires NoDoubled(x) && x != "" && x[0] != '_'
    ensures NoDoubled("_" + x)
  {
    var one := "_" + x;
    forall k | 0 <= k < |one| - 1 ensures !(one[k] == '_' && one[k + 1] == '_') {
      assert k > 0 ==> one[k] == x[k - 1] && one[k + 1] == x[k];
    }
  }

  lemma SafeDomain(base: string)
    requires IsDotted(base)
    ensures NoDoubled(SafeChars(base)) && SafeChars(base) != "" && SafeChars(base)[0] != '_'
    ensures SafeChars("*." + base) == "_" + ("_" + SafeChars(base))
  {
  }

  lemma WildcardCollapses(base: string)
    requires IsDotted(base)
    ensures Collapse(SafeChars("*." + base)) == "_" + SafeChars(base)
  {
    hide SafeChars, Collapse, NoDoubled, IsDotted;
    var safe := SafeChars(base);
    SafeDomain(base);
    OneUnderscore(safe);
    CollapseTwo("_" + safe);
    CollapseNothing("_" + safe);
  }

  /** The `*.` of a wildcard leaves no trace in the name. */
  lemma WildcardForgotten(base: string)
    requires IsDotted(base)
    ensures SanitizeFilename("*." + base) == SanitizeFilename(base)
  {
    hide SafeChars, Collapse, TrimBack, NoDoubled, IsDotted;
    var safe := SafeChars(base);
    SafeDomain(base);
    CollapseNothing(safe);
    WildcardCollapses(base);
    assert ("_" + safe)[1..] == safe;
    assert TrimFront("_" + safe) == TrimFront(safe);
  }

  lemma SanitizedAccepted(domain: string)
    requires ValidateDomainName(domain)
    ensures SanitizeFilename(domain) == ToLower(SafeChars(BaseDomain(domain))) != ""
  {
    var base := BaseDomain(domain);
    DomainIsDotted(base);
    SanitizedDomain(base);
    if HasPrefix(domain, "*.") {
      assert domain == "*." + base;
      WildcardForgotten(base);
    }
  }

  /** The file of a host: the first domain in lower case, dots as underscores and without a leading `*.`. */
  lemma AcceptedFilename(host: Host)
    requires host.domainNames != [] && ValidateDomainName(host.domainNames[0])
    ensures var (base, name) := (BaseDomain(host.domainNames[0]), SanitizeFilename(host.domainNames[0]));
            && GetConfigFilename(host) == "proxy_host_" + name + ".conf"
            && GetRedirectConfigFilename(host) == "redirect_host_" + name + ".conf"
            && |name| == |base|
            && forall k :: 0 <= k < |base| ==> name[k] == if base[k] == '.' then '_' else LowerChar(base[k])
  {
    var base := BaseDomain(host.domainNames[0]);
    SanitizedAccepted(host.domainNames[0]);
    hide SanitizeFilename, ValidateDomainName, BaseDomain, ToLower, SafeChars;
    DottedName(base);
  }

  /** Without a domain, or with one of which nothing is left, the host's identifier names the file. */
  lemma UnnamedFilename(host: Host)
    requires host.domainNames == [] || SanitizeFilename(host.domainNames[0]) == ""
    ensures GetConfigFilename(host) == "proxy_host_" + host.id + ".conf"
    ensures GetRedirectConfigFilename(host) == "redirect_host_" + host.id + ".conf"
  {
    hide SanitizeFilename;
  }

  lemma DottedName(base: string)
    requires MatchesDomainRegex(base)
    ensures var name := ToLower(SafeChars(base));
            && |name| == |base|
            && forall k :: 0 <= k < |base| ==> name[k] == if base[k] == '.' then '_' else LowerChar(base[k])
  {
    DomainIsDotted(base);
    hide MatchesDomainRegex;
  }

  lemma LowerSafeInjective(a: string, b: string)
    requires IsDotted(a) && IsDotted(b)
    ensures ToLower(SafeChars(a)) == ToLower(SafeChars(b)) <==> ToLower(a) == ToLower(b)
  {
    var x, y := ToLower(SafeChars(a)), ToLower(SafeChars(b));
    if |a| == |b| {
      forall k | 0 <= k < |a| ensures x[k] == y[k] <==> ToLower(a)[k] == ToLower(b)[k] {
        assert x[k] == LowerChar(SafeChar(a[k])) && y[k] == LowerChar(SafeChar(b[k]));
      }
    }
  }

  /**
   Hosts with accepted domains share a config file exactly when their first domains agree up to
   letter case and a leading `*.`.
   */
  lemma ConfigFilenameCollision(prefix: string, a: Host, b: Host)
    requires a.domainNames != [] && ValidateDomainName(a.domainNames[0])
    requires b.domainNames != [] && ValidateDomainName(b.domainNames[0])
    ensures ConfigName(prefix, a) == ConfigName(prefix, b)
            <==> ToLower(BaseDomain(a.domainNames[0])) == ToLower(BaseDomain(b.domainNames[0]))
  {
    var da, db := a.domainNames[0], b.domainNames[0];
    SanitizedAccepted(da);
    SanitizedAccepted(db);
    DomainIsDotted(BaseDomain(da));
    DomainIsDotted(BaseDomain(db));
    LowerSafeInjective(BaseDomain(da), BaseDomain(db));
    WrapInjective(prefix, SanitizeFilename(da), SanitizeFilename(db), ".conf");
  }

  lemma WrapInjective(prefix: string, a: string, b: string, suffix: string)
    ensures prefix + a + suffix == prefix + b + suffix <==> a == b
  {
    var x, y := prefix + a + suffix, prefix + b + suffix;
    if x == y {
      assert |a| == |b|;
      assert a == x[|prefix|..|prefix| + |a|] && b == y[|prefix|..|prefix| + |b|];
    }
  }

  /** For domains that are not wildcards the file name is injective up to letter case. */
  lemma ConfigFilenameInjective(a: Host, b: Host)
    requires a.domainNames != [] && ValidateDomainName(a.domainNames[0]) && !HasPrefix(a.domainNames[0], "*.")
    requires b.domainNames != [] && ValidateDomainName(b.domainNames[0]) && !HasPrefix(b.domainNames[0], "*.")
    requires GetConfigFilename(a) == GetConfigFilename(b)
    ensures ToLower(a.domainNames[0]) == ToLower(b.domainNames[0])
  {
    ConfigFilenameCollision("proxy_host_", a, b);
  }

  /** Redirect hosts follow the same rule, in names of their own. */
  lemma RedirectFilenameInjective(a: Host, b: Host)
    requires a.domainNames != [] && ValidateDomainName(a.domainNames[0]) && !HasPrefix(a.domainNames[0], "*.")
    requires b.domainNames != [] && ValidateDomainName(b.domainNames[0]) && !HasPrefix(b.domainNames[0], "*.")
    requires GetRedirectConfigFilename(a) == GetRedirectConfigFilename(b)
    ensures ToLower(a.domainNames[0]) == ToLower(b.domainNames[0])
  {
    ConfigFilenameCollision("redirect_host_", a, b);
  }

  /** A redirect host never takes the file of a proxy host, whatever their domains. */
  lemma RedirectsApart(a: Host, b: Host)
    ensures GetRedirectConfigFilename(a) != GetConfigFilename(b)
  {
    assert GetRedirectConfigFilename(a)[0] == 'r' && GetConfigFilename(b)[0] == 'p';
  }
}
