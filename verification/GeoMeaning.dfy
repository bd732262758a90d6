/** What the geo decision comes to in terms of country codes and address blocks. */
module GeoMeaning {
  import opened AnchoredRegex
  import opened Cidr
  import opened GoStrings
  import opened Policy
  import opened PolicyDecision
  import opened Rewrite

  /** The codes on the list; an empty list is written as the empty code. */
  function Listed(geo: Geo): (codes: seq<string>)
    ensures codes != []
  {
    if geo.countries == [] then [""] else geo.countries
  }

  predicate PlainCountries(geo: Geo) {
    forall c <- geo.countries :: AllPlain(c)
  }

  lemma {:induction false} JoinOneMore(xs: seq<string>, x: string)
    requires xs != []
    ensures Join(xs + [x], "|") == Join(xs, "|") + ("|" + x)
  {
    if |xs| == 1 {
      assert xs + [x] == [xs[0], x];
      assert (xs + [x])[1..] == [x];
    } else {
      assert (xs + [x])[1..] == xs[1..] + [x];
      JoinOneMore(xs[1..], x);
    }
  }

  lemma CountryPatternMatches(s: Situation, geo: Geo)
    requires PlainCountries(geo)
    ensures Matches(s.engine.exact, CountryPattern(geo), s.req(CountryCode)) <==>
            || s.req(CountryCode) in Listed(geo)
            || (geo.mode == "whitelist" && geo.allowPrivateIPs && s.req(CountryCode) == "--")
  {
    hide Matches;
    var private := geo.mode == "whitelist" && geo.allowPrivateIPs;
    var codes := Listed(geo) + if private then ["--"] else [];
    assert Join(Listed(geo), "|") == Join(geo.countries, "|");
    assert AllPlain("") && AllPlain("--");
    assert CountryPattern(geo) == "^(" + Join(codes, "|") + ")$" by {
      if private {
        JoinOneMore(Listed(geo), "--");
        assert "|" + "--" == "|--";
      } else {
        assert codes == Listed(geo);
        assert Join(geo.countries, "|") + "" == Join(geo.countries, "|");
      }
    }
    MatchesOneOf(s.engine.exact, codes, s.req(CountryCode));
  }

  /**
   In both modes and with either treatment of private networks: a country is blocked if it is off the
   list (whitelist) or on it (otherwise), except that allowed private networks never are.
   */
  lemma CountryBlockedMeaning(s: Situation, geo: Geo)
    requires PlainCountries(geo)
    ensures CountryBlocked(s, geo) <==>
            && (s.req(CountryCode) in Listed(geo) <==> geo.mode != "whitelist")
            && !(geo.allowPrivateIPs && s.req(CountryCode) == "--")
  {
    hide Matches, CountryPattern;
    CountryPatternMatches(s, geo);
  }

  /** An address inside an allowed block of eight bits or more is allowed, and so passes the geo stage. */
  lemma AllowedBlockIsNotBlocked(s: Situation, geo: Geo, cidr: string, base: Address, ones: nat, x: Address)
    requires s.cfg.geo.Some? && s.cfg.geo.value == geo && cidr in geo.allowedIPs && '/' in cidr
    requires 8 <= ones <= 32 && s.parse(cidr) == NetworkOf(base, ones)
    requires InBlock(x, base, ones) && s.req(RemoteAddr) == Dotted(x)
    ensures !GeoBlocks(s) && !Challenged(s)
  {
    hide Matches, PatternOf, CountryBlocked, SearchBot, Exempt, Dotted, InBlock, NetworkOf;
    PatternCoversBlock(s.engine.exact, cidr, base, ones, x);
    assert AddressIs(s, cidr);
  }
}
