/**
 `cidrToNginxPattern`: a CIDR block becomes a regular expression over the dotted text of an
 address. The expression can only look at whole octets; the results say for which prefix lengths
 that covers the block and for which it is exactly the block.
 */
module Cidr {
  import opened AnchoredRegex
  import opened Decimals
  import opened GoStrings
  import opened Options

  // ---- the conversion ----

  /** What `net.ParseCIDR` makes of a text: nothing, or the masked network's text and prefix length. */
  datatype ParsedNet = NotANetwork | Network(ip: string, ones: nat)

  function EscapeDots(s: string): string {
    ReplaceAll(s, ".", "\\.")
  }

  function PatternOf(cidr: string, parsed: ParsedNet): string {
    match parsed
    case NotANetwork => EscapeDots(TrimSpace(cidr))
    case Network(ip, ones) =>
      var parts := Split(ip, '.');
      if |parts| != 4 then EscapeDots(cidr)
      else "^" + OctetPattern(parts, KeptOctets(ones))
  }

  predicate DotsEscaped(s: string) {
    forall k :: 0 <= k < |s| && s[k] == '.' ==> k > 0 && s[k - 1] == '\\'
  }

  /** Every dot is escaped, and nothing else has changed. */
  lemma {:induction false} EscapedDots(s: string)
    requires '\\' !in s
    ensures DotsEscaped(EscapeDots(s)) && ReplaceAll(EscapeDots(s), "\\.", ".") == s
  {
    if s != "" {
      var rest := EscapeDots(s[1..]);
      EscapedDots(s[1..]);
      EscapeDotsCons(s);
      assert [s[0]] + s[1..] == s;
      if s[0] == '.' {
        var t := "\\." + rest;
        assert t[..2] == "\\." && t[2..] == rest;
        assert forall k :: 2 <= k < |t| ==> t[k] == rest[k - 2];
      } else {
        var t := [s[0]] + rest;
        assert t[1..] == rest && (|t| >= 2 ==> t[..2][0] == s[0]);
        assert forall k :: 1 <= k < |t| ==> t[k] == rest[k - 1];
      }
    }
  }

  /** A text that does not parse, trimmed, and a network whose text has not four parts stand for themselves. */
  lemma SpelledOut(cidr: string, parsed: ParsedNet)
    requires parsed.NotANetwork? || |Split(parsed.ip, '.')| != 4
    ensures var (pattern, text) := (PatternOf(cidr, parsed), if parsed.NotANetwork? then TrimSpace(cidr) else cidr);
            '\\' !in text ==> DotsEscaped(pattern) && ReplaceAll(pattern, "\\.", ".") == text
  {
    hide ReplaceAll, EscapeDots, Split, TrimSpace;
    var text := if parsed.NotANetwork? then TrimSpace(cidr) else cidr;
    if '\\' !in text {
      EscapedDots(text);
    }
  }

  lemma EscapeDotsCons(s: string)
    requires s != ""
    ensures EscapeDots(s) == (if s[0] == '.' then "\\." else [s[0]]) + EscapeDots(s[1..])
  {
    assert s[..1] == [s[0]];
  }

  /** How many octets of the network the pattern spells out. */
  function KeptOctets(ones: nat): nat {
    if ones >= 24 then 3 else if ones >= 16 then 2 else 1
  }

  function OctetPattern(parts: seq<string>, n: nat): string
    requires n <= |parts|
  {
    if n == 0 then "" else parts[0] + "\\." + OctetPattern(parts[1..], n - 1)
  }

  method CidrToNginxPattern(cidr: string, parsed: ParsedNet) returns (text: string)
    ensures text == PatternOf(cidr, parsed)
  {
    if parsed.NotANetwork? {
      return EscapeDots(TrimSpace(cidr));
    }
    var ones, parts := parsed.ones, Split(parsed.ip, '.');
    if |parts| != 4 {
      return EscapeDots(cidr);
    }
    var pattern := "^";
    if ones >= 24 {
      pattern := pattern + parts[0];
      pattern := pattern + "\\.";
      pattern := pattern + parts[1];
      pattern := pattern + "\\.";
      pattern := pattern + parts[2];
      pattern := pattern + "\\.";
    } else if ones >= 16 {
      pattern := pattern + parts[0];
      pattern := pattern + "\\.";
      pattern := pattern + parts[1];
      pattern := pattern + "\\.";
    } else {
      pattern := pattern + parts[0];
      pattern := pattern + "\\.";
    }
    UnfoldOctets(parts);
    return pattern;
  }

  lemma UnfoldOctets(parts: seq<string>)
    requires |parts| == 4
    ensures OctetPattern(parts, 1) == parts[0] + "\\."
    ensures OctetPattern(parts, 2) == parts[0] + "\\." + parts[1] + "\\."
    ensures OctetPattern(parts, 3) == parts[0] + "\\." + parts[1] + "\\." + parts[2] + "\\."
  {
    var p1, p2 := parts[1..], parts[2..];
    assert p1[1..] == p2;
    assert OctetPattern(p2, 1) == parts[2] + "\\." + OctetPattern(p2[1..], 0);
    assert OctetPattern(p1, 1) == parts[1] + "\\." + OctetPattern(p1[1..], 0);
    assert OctetPattern(p1, 2) == parts[1] + "\\." + OctetPattern(p2, 1);
  }

  // ---- addresses ----

  type Octet = x: int | 0 <= x < 256

  datatype Address = V4(a: Octet, b: Octet, c: Octet, d: Octet)

  const WORLD := 0x1_0000_0000

  function Number(x: Address): (n: nat)
    ensures n < WORLD
  {
    x.a * 0x100_0000 + x.b * 0x1_0000 + x.c * 0x100 + x.d
  }

  function FromNumber(n: nat): (x: Address)
    requires n < WORLD
    ensures Number(x) == n
  {
    var high, low := n / 0x1_0000, n % 0x1_0000;
    V4(high / 0x100, high % 0x100, low / 0x100, low % 0x100)
  }

  function Pow2(n: nat): (p: nat)
    ensures p > 0
  {
    if n == 0 then 1 else 2 * Pow2(n - 1)
  }

  /** How many addresses share a prefix of `ones` bits. */
  function BlockSize(ones: nat): nat
    requires ones <= 32
  {
    Pow2(32 - ones)
  }

  predicate InBlock(x: Address, base: Address, ones: nat)
    requires ones <= 32
  {
    Number(x) / BlockSize(ones) == Number(base) / BlockSize(ones)
  }

  lemma FloorBelow(v: nat, d: nat)
    requires d > 0
    ensures 0 <= v / d * d <= v < v / d * d + d
  {
    assert v == v / d * d + v % d;
  }

  /** The block's first address: the host bits are cleared. */
  function Mask(base: Address, ones: nat): Address
    requires ones <= 32
  {
    FloorBelow(Number(base), BlockSize(ones));
    FromNumber(Number(base) / BlockSize(ones) * BlockSize(ones))
  }

  function Dotted(x: Address): string {
    Decimal(x.a) + "." + Decimal(x.b) + "." + Decimal(x.c) + "." + Decimal(x.d)
  }

  /** What ParseCIDR returns for the IPv4 block of `base`. */
  function NetworkOf(base: Address, ones: nat): ParsedNet
    requires ones <= 32
  {
    Network(Dotted(Mask(base, ones)), ones)
  }

  predicate AgreeOn(n: nat, x: Address, y: Address) {
    && (n >= 1 ==> x.a == y.a)
    && (n >= 2 ==> x.b == y.b)
    && (n >= 3 ==> x.c == y.c)
  }

  // ---- decimal texts ----

  /** Digits up to the first dot. */
  lemma {:induction false} DigitsPrefix(s: string, r: string, t: string, q: string)
    requires AllDigits(s) && AllDigits(t)
    ensures HasPrefix(s + "." + r, t + "." + q) <==> s == t && HasPrefix(r, q)
  {
    var u, v := s + "." + r, t + "." + q;
    if s != "" && t != "" {
      assert u[1..] == s[1..] + "." + r && v[1..] == t[1..] + "." + q;
      DigitsPrefix(s[1..], r, t[1..], q);
      assert HasPrefix(u, v) <==> u[0] == v[0] && HasPrefix(u[1..], v[1..]) by { PrefixStep(u, v); }
      assert s == [s[0]] + s[1..] && t == [t[0]] + t[1..];
    } else {
      PrefixStep(u, v);
      assert u[1..] == r || s != "";
      assert v[1..] == q || t != "";
    }
  }

  lemma PrefixStep(u: string, v: string)
    requires u != "" && v != ""
    ensures HasPrefix(u, v) <==> u[0] == v[0] && HasPrefix(u[1..], v[1..])
  {
    if |v| <= |u| {
      assert u[..|v|] == [u[0]] + u[1..][..|v| - 1];
      assert v == [v[0]] + v[1..];
    }
  }

  /** A number followed by a dot is recognised from its text. */
  lemma NumberPrefix(x: nat, n: nat, r: string, t: string)
    ensures HasPrefix(Decimal(x) + "." + r, Decimal(n) + "." + t) <==> x == n && HasPrefix(r, t)
  {
    DecimalReadsBack(x);
    DecimalReadsBack(n);
    DigitsPrefix(Decimal(x), r, Decimal(n), t);
  }

  lemma {:induction false} ReadDigits(s: string, rest: string)
    requires AllDigits(s) && ReadLiteral(rest).Some?
    ensures ReadLiteral(s + rest) == Some(s + ReadLiteral(rest).value)
  {
    if s == "" {
      assert s + rest == rest && s + ReadLiteral(rest).value == ReadLiteral(rest).value;
    } else {
      assert (s + rest)[1..] == s[1..] + rest;
      ReadDigits(s[1..], rest);
      assert [s[0]] + (s[1..] + ReadLiteral(rest).value) == s + ReadLiteral(rest).value;
    }
  }

  lemma ReadEscapedDot(rest: string)
    requires ReadLiteral(rest).Some?
    ensures ReadLiteral("\\." + rest) == Some("." + ReadLiteral(rest).value)
  {
    var tail := "\\." + rest;
    assert tail[2..] == rest;
  }

  lemma ReadOctet(n: nat, rest: string)
    requires ReadLiteral(rest).Some?
    ensures ReadLiteral(Decimal(n) + "\\." + rest) == Some(Decimal(n) + "." + ReadLiteral(rest).value)
  {
    DecimalReadsBack(n);
    hide Decimal, ReadLiteral;
    var tail := "\\." + rest;
    assert Decimal(n) + "\\." + rest == Decimal(n) + tail;
    ReadEscapedDot(rest);
    ReadDigits(Decimal(n), tail);
    assert Decimal(n) + ("." + ReadLiteral(rest).value) == Decimal(n) + "." + ReadLiteral(rest).value;
  }

  lemma DecimalHasNoDot(n: nat)
    ensures '.' !in Decimal(n)
  {
    DecimalReadsBack(n);
    hide Decimal;
    var s := Decimal(n);
    forall k | 0 <= k < |s| ensures s[k] != '.' {
      assert IsDigit(s[k]);
    }
  }

  lemma JoinFour(a: string, b: string, c: string, d: string)
    ensures Join([a, b, c, d], ".") == a + "." + b + "." + c + "." + d
  {
    var parts := [a, b, c, d];
    assert parts[1..] == [b, c, d] && [b, c, d][1..] == [c, d] && [c, d][1..] == [d];
    assert Join([c, d], ".") == c + "." + d;
    assert Join([b, c, d], ".") == b + "." + (c + "." + d);
    assert Join(parts, ".") == a + "." + (b + "." + (c + "." + d));
  }

  /** The text of an address splits into its four numbers. */
  lemma SplitDotted(x: Address)
    ensures Split(Dotted(x), '.') == [Decimal(x.a), Decimal(x.b), Decimal(x.c), Decimal(x.d)]
  {
    hide Split, Decimal, Join;
    var parts := [Decimal(x.a), Decimal(x.b), Decimal(x.c), Decimal(x.d)];
    DecimalHasNoDot(x.a);
    DecimalHasNoDot(x.b);
    DecimalHasNoDot(x.c);
    DecimalHasNoDot(x.d);
    JoinFour(parts[0], parts[1], parts[2], parts[3]);
    SplitJoin(parts, '.');
  }

  // ---- what the pattern matches ----

  /** The beginning of an address, as many octets as the pattern keeps. */
  function OctetPrefix(m: Address, n: nat): string
    requires 1 <= n <= 3
  {
    Decimal(m.a) + "\\." + (if n < 2 then "" else Decimal(m.b) + "\\." + (if n < 3 then "" else Decimal(m.c) + "\\."))
  }

  lemma PatternText(cidr: string, base: Address, ones: nat)
    requires ones <= 32
    ensures PatternOf(cidr, NetworkOf(base, ones)) == "^" + OctetPrefix(Mask(base, ones), KeptOctets(ones))
  {
    hide Decimal, Dotted, Split, Mask;
    var m := Mask(base, ones);
    SplitDotted(m);
    UnfoldOctets(Split(Dotted(m), '.'));
    RegroupOctets(m);
  }

  lemma RegroupOctets(m: Address)
    ensures Decimal(m.a) + "\\." == OctetPrefix(m, 1)
    ensures Decimal(m.a) + "\\." + Decimal(m.b) + "\\." == OctetPrefix(m, 2)
    ensures Decimal(m.a) + "\\." + Decimal(m.b) + "\\." + Decimal(m.c) + "\\." == OctetPrefix(m, 3)
  {
  }

  lemma PrefixMatches(re: Regex, m: Address, n: nat, x: Address)
    requires 1 <= n <= 3
    ensures Matches(re, "^" + OctetPrefix(m, n), Dotted(x)) <==> AgreeOn(n, x, m)
  {
    hide Decimal, ReadShape, ReadLiteral;
    var (pb, pc) := (Decimal(m.b) + "\\.", Decimal(m.c) + "\\.");
    var (xc, xd) := (Decimal(x.c) + "." + Decimal(x.d), Decimal(x.d));
    var xb := Decimal(x.b) + "." + xc;
    assert Dotted(x) == Decimal(x.a) + "." + xb;
    var tb := if n < 2 then "" else if n < 3 then pb else pb + pc;
    assert OctetPrefix(m, n) == Decimal(m.a) + "\\." + tb;
    EmptyLiteral();
    if n == 3 {
      assert pc + "" == pc && pb + pc == Decimal(m.b) + "\\." + pc;
      ReadOctet(m.c, "");
      ReadOctet(m.b, pc);
      NumberPrefix(x.c, m.c, xd, "");
      NumberPrefix(x.b, m.b, xc, Decimal(m.c) + "." + "");
    } else if n == 2 {
      assert pb + "" == pb;
      ReadOctet(m.b, "");
      NumberPrefix(x.b, m.b, xc, "");
    }
    ReadOctet(m.a, tb);
    NumberPrefix(x.a, m.a, xb, ReadLiteral(tb).value);
    DecimalReadsBack(m.a);
    ReadPrefix(OctetPrefix(m, n));
  }

  lemma EmptyLiteral()
    ensures ReadLiteral("") == Some("")
  {}

  /** The pattern matches exactly the addresses that agree with the network on the kept octets. */
  lemma PatternMatches(re: Regex, cidr: string, base: Address, ones: nat, x: Address)
    requires ones <= 32
    ensures Matches(re, PatternOf(cidr, NetworkOf(base, ones)), Dotted(x))
            <==> AgreeOn(KeptOctets(ones), x, Mask(base, ones))
  {
    hide Matches, PatternOf, NetworkOf, OctetPrefix, Mask, AgreeOn;
    PatternText(cidr, base, ones);
    PrefixMatches(re, Mask(base, ones), KeptOctets(ones), x);
  }

  // ---- octets and blocks ----

  lemma {:induction false} Pow2Sum(m: nat, n: nat)
    ensures Pow2(m + n) == Pow2(m) * Pow2(n)
  {
    if m > 0 {
      Pow2Sum(m - 1, n);
    }
  }

  lemma AtLeastTwo(n: nat)
    requires n > 0
    ensures Pow2(n) >= 2
  {}

  lemma OctetBlocks()
    ensures BlockSize(8) == 0x100_0000 && BlockSize(16) == 0x1_0000 && BlockSize(24) == 0x100
  {
    assert Pow2(4) == 16;
    Pow2Sum(4, 4);
    Pow2Sum(8, 8);
    Pow2Sum(16, 8);
  }

  lemma OctetQuotients(x: Address)
    ensures Number(x) / 0x100_0000 == x.a
    ensures Number(x) / 0x1_0000 == x.a * 0x100 + x.b
    ensures Number(x) / 0x100 == x.a * 0x1_0000 + x.b * 0x100 + x.c
  {}

  lemma AgreeIsSameBlock(n: nat, x: Address, y: Address)
    requires 1 <= n <= 3
    ensures AgreeOn(n, x, y) <==> InBlock(x, y, 8 * n)
  {
    hide Number, BlockSize;
    OctetBlocks();
    OctetQuotients(x);
    OctetQuotients(y);
    SameHighOctets(n, x, y);
  }

  lemma SameHighOctets(n: nat, x: Address, y: Address)
    requires 1 <= n <= 3
    ensures AgreeOn(n, x, y) <==>
            if n == 1 then x.a == y.a
            else if n == 2 then x.a * 0x100 + x.b == y.a * 0x100 + y.b
            else x.a * 0x1_0000 + x.b * 0x100 + x.c == y.a * 0x1_0000 + y.b * 0x100 + y.c
  {}

  lemma Scale(a: nat, b: nat, d: nat)
    requires a <= b
    ensures a * d <= b * d
  {}

  lemma MulLess(a: nat, b: nat, d: nat)
    requires d > 0
    ensures a * d < b * d <==> a < b
  {
    if b <= a {
      Scale(b, a, d);
    } else {
      Scale(a + 1, b, d);
      assert (a + 1) * d == a * d + d;
    }
  }

  lemma QuotientUnique(v: nat, d: nat, q: nat)
    requires d > 0 && q * d <= v < q * d + d
    ensures v / d == q
  {
    var p := v / d;
    FloorBelow(v, d);
    MulLess(p, q + 1, d);
    MulLess(q, p + 1, d);
  }

  lemma DivideTwice(v: nat, s: nat, t: nat)
    requires s > 0 && t > 0
    ensures v / s / t == v / MulPos(s, t)
  {
    var w := v / s;
    var p := w / t;
    FloorBelow(v, s);
    FloorBelow(w, t);
    Nested(v, w, p, s, t);
    QuotientUnique(v, s * t, p);
  }

  function MulPos(s: nat, t: nat): (m: nat)
    requires s > 0 && t > 0
    ensures m > 0
  {
    s * t
  }

  lemma Nested(v: nat, w: nat, p: nat, s: nat, t: nat)
    requires s > 0 && w * s <= v < w * s + s
    requires t > 0 && p * t <= w < p * t + t
    ensures s * t > 0 && p * (s * t) <= v < p * (s * t) + s * t
  {
    Scale(p * t, w, s);
    Scale(w + 1, p * t + t, s);
    assert (p * t) * s == p * (s * t) by { assert t * s == s * t; Assoc(p, t, s); }
    assert (w + 1) * s == w * s + s;
    assert (p * t + t) * s == (p * t) * s + t * s;
    assert s * t > 0;
  }

  lemma Assoc(a: nat, b: nat, c: nat)
    ensures (a * b) * c == a * (b * c)
  {}

  /** A shorter prefix makes a larger block around the same address. */
  lemma LargerBlock(x: Address, y: Address, ones: nat, fewer: nat)
    requires fewer <= ones <= 32 && InBlock(x, y, ones)
    ensures InBlock(x, y, fewer)
  {
    Pow2Sum(32 - ones, ones - fewer);
    DivideTwice(Number(x), BlockSize(ones), Pow2(ones - fewer));
    DivideTwice(Number(y), BlockSize(ones), Pow2(ones - fewer));
  }

  lemma MaskShape(base: Address, ones: nat)
    requires ones <= 32
    ensures InBlock(Mask(base, ones), base, ones)
    ensures Number(Mask(base, ones)) == Number(base) / BlockSize(ones) * BlockSize(ones)
    ensures Number(Mask(base, ones)) + BlockSize(ones) <= WORLD
  {
    hide Number, Pow2;
    var s := BlockSize(ones);
    var q := Number(base) / s;
    FloorBelow(Number(base), s);
    QuotientUnique(q * s, s, q);
    WorldInBlocks(ones);
    MulLess(q, Pow2(ones), s);
    Scale(q + 1, Pow2(ones), s);
    assert (q + 1) * s == q * s + s;
  }

  lemma WorldInBlocks(ones: nat)
    requires ones <= 32
    ensures Pow2(ones) * BlockSize(ones) == WORLD
  {
    hide Pow2;
    Pow2Sum(ones, 32 - ones);
    OctetBlocks();
    Pow2Sum(8, 24);
    assert Pow2(24) == 0x100_0000 && Pow2(8) == 0x100;
  }

  /** For prefixes of eight bits or more every member of the block is matched. */
  lemma PatternCoversBlock(re: Regex, cidr: string, base: Address, ones: nat, x: Address)
    requires 8 <= ones <= 32 && InBlock(x, base, ones)
    ensures Matches(re, PatternOf(cidr, NetworkOf(base, ones)), Dotted(x))
  {
    var n := KeptOctets(ones);
    MaskShape(base, ones);
    LargerBlock(x, Mask(base, ones), ones, 8 * n);
    AgreeIsSameBlock(n, x, Mask(base, ones));
    PatternMatches(re, cidr, base, ones, x);
  }

  ghost predicate Covers(re: Regex, cidr: string, base: Address, ones: nat)
    requires ones <= 32
  {
    forall x :: InBlock(x, base, ones) ==> Matches(re, PatternOf(cidr, NetworkOf(base, ones)), Dotted(x))
  }

  ghost predicate Exact(re: Regex, cidr: string, base: Address, ones: nat)
    requires ones <= 32
  {
    forall x :: InBlock(x, base, ones) <==> Matches(re, PatternOf(cidr, NetworkOf(base, ones)), Dotted(x))
  }

  /** Below eight bits the block spans several first octets, and one of its members is missed. */
  lemma MissedMember(re: Regex, cidr: string, base: Address, ones: nat) returns (x: Address)
    requires ones < 8
    ensures InBlock(x, base, ones)
    ensures !Matches(re, PatternOf(cidr, NetworkOf(base, ones)), Dotted(x))
  {
    hide Number, Pow2, Matches;
    var m, s := Mask(base, ones), BlockSize(ones);
    MaskShape(base, ones);
    Pow2Sum(24, 8 - ones);
    OctetBlocks();
    AtLeastTwo(8 - ones);
    Scale(2, Pow2(8 - ones), 0x100_0000);
    assert s >= 0x200_0000;
    x := FromNumber(Number(m) + 0x100_0000);
    QuotientUnique(Number(x), s, Number(base) / s);
    OctetQuotients(x);
    OctetQuotients(m);
    PatternMatches(re, cidr, base, ones, x);
  }

  /** The pattern covers every block exactly from eight bits on. */
  lemma CoversIff(re: Regex, cidr: string, base: Address, ones: nat)
    requires ones <= 32
    ensures Covers(re, cidr, base, ones) <==> ones >= 8
  {
    if ones >= 8 {
      forall x | InBlock(x, base, ones)
        ensures Matches(re, PatternOf(cidr, NetworkOf(base, ones)), Dotted(x))
      {
        PatternCoversBlock(re, cidr, base, ones, x);
      }
    } else {
      var x := MissedMember(re, cidr, base, ones);
    }
  }

  /** A number outside the s-block of v = q * s but inside its larger w-block. */
  lemma OutsideSmallBlock(q: nat, s: nat, w: nat) returns (n: nat)
    requires s > 0 && w >= 2 * s
    ensures n / w == q * s / w
    ensures n / s != q
    ensures n < q * s / w * w + w
  {
    var v, k := q * s, q * s / w;
    FloorBelow(v, w);
    if v == k * w {
      n := v + s;
      assert (q + 1) * s == q * s + s;
      QuotientUnique(n, s, q + 1);
    } else {
      n := k * w;
      FloorBelow(n, s);
      MulLess(n / s, q, s);
    }
    QuotientUnique(n, w, k);
  }

  lemma BlockDoubles(ones: nat, fewer: nat)
    requires fewer < ones <= 32
    ensures BlockSize(fewer) >= 2 * BlockSize(ones) > 0
  {
    hide Pow2;
    Pow2Sum(32 - ones, ones - fewer);
    AtLeastTwo(ones - fewer);
    Scale(2, Pow2(ones - fewer), BlockSize(ones));
  }

  /** An address outside the block that shares its whole octets. */
  lemma Neighbour(base: Address, ones: nat) returns (x: Address)
    requires 8 < ones <= 32 && ones != 16 && ones != 24
    ensures !InBlock(x, base, ones) && InBlock(x, Mask(base, ones), 8 * KeptOctets(ones))
  {
    hide Number, BlockSize, Mask;
    var n := KeptOctets(ones);
    var m, s, w := Mask(base, ones), BlockSize(ones), BlockSize(8 * n);
    MaskShape(base, ones);
    BlockDoubles(ones, 8 * n);
    var q := Number(base) / s;
    var number := OutsideSmallBlock(q, s, w);
    WithinWorld(q * s, 8 * n);
    x := FromNumber(number);
  }

  /** Between octet boundaries the pattern also matches an address next to the block. */
  lemma ExtraMatch(re: Regex, cidr: string, base: Address, ones: nat) returns (x: Address)
    requires 8 < ones <= 32 && ones != 16 && ones != 24
    ensures !InBlock(x, base, ones)
    ensures Matches(re, PatternOf(cidr, NetworkOf(base, ones)), Dotted(x))
  {
    hide Number, Pow2, Matches, Mask, PatternOf, NetworkOf, Dotted, InBlock, AgreeOn;
    x := Neighbour(base, ones);
    AgreeIsSameBlock(KeptOctets(ones), x, Mask(base, ones));
    PatternMatches(re, cidr, base, ones, x);
  }

  lemma WithinWorld(v: nat, ones: nat)
    requires ones <= 32 && v < WORLD
    ensures v / BlockSize(ones) * BlockSize(ones) + BlockSize(ones) <= WORLD
  {
    hide Pow2;
    var w := BlockSize(ones);
    var k := v / w;
    FloorBelow(v, w);
    WorldInBlocks(ones);
    MulLess(k, Pow2(ones), w);
    Scale(k + 1, Pow2(ones), w);
    assert (k + 1) * w == k * w + w;
  }

  /** The pattern is exactly the block for /8, /16 and /24, and for no other prefix length. */
  lemma ExactIff(re: Regex, cidr: string, base: Address, ones: nat)
    requires ones <= 32
    ensures Exact(re, cidr, base, ones) <==> ones == 8 || ones == 16 || ones == 24
  {
    if ones == 8 || ones == 16 || ones == 24 {
      forall x
        ensures InBlock(x, base, ones) <==> Matches(re, PatternOf(cidr, NetworkOf(base, ones)), Dotted(x))
      {
        PatternMatches(re, cidr, base, ones, x);
        AgreeIsSameBlock(KeptOctets(ones), x, Mask(base, ones));
        MaskShape(base, ones);
      }
    } else if ones < 8 {
      var x := MissedMember(re, cidr, base, ones);
    } else {
      var x := ExtraMatch(re, cidr, base, ones);
    }
  }
}
