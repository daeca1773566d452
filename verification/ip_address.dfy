/** The numeric form of a dotted IPv4 address, as the activity log stores it:
    the four dot-separated parts read as the digits of a base-256 number
    (the address format of section 3.2 of RFC 791). */
module IpAddress {
  import opened Wrappers

  /** The four leading parts of a dotted address. */
  datatype Parts = Parts(a: nat, b: nat, c: nat, d: nat)

  predicate IsOctets(p: Parts) {
    p.a < 256 && p.b < 256 && p.c < 256 && p.d < 256
  }

  /** The base-256 number whose digits are the parts, most significant first. */
  function Long(p: Parts): nat {
    ((p.a * 256 + p.b) * 256 + p.c) * 256 + p.d
  }

  /** The four octets of a 32-bit number, most significant first. */
  function Octets(n: nat): (p: Parts)
    requires n < 0x1_0000_0000
    ensures IsOctets(p)
  {
    Parts(n / 0x100_0000, n / 0x1_0000 % 256, n / 256 % 256, n % 256)
  }

  /** Four octets give a number below 2^32. */
  lemma LongOfOctetsBound(p: Parts)
    requires IsOctets(p)
    ensures Long(p) < 0x1_0000_0000
  {
  }

  /** Reading the octets back out of `Long` gives the octets put in. */
  lemma OctetsOfLong(p: Parts)
    requires IsOctets(p)
    ensures Long(p) < 0x1_0000_0000 && Octets(Long(p)) == p
  {
    LongOfOctetsBound(p);
    var ab := p.a * 256 + p.b;
    var abc := ab * 256 + p.c;
    assert Long(p) / 256 == abc && Long(p) % 256 == p.d;
    assert abc / 256 == ab && abc % 256 == p.c;
    assert ab / 256 == p.a && ab % 256 == p.b;
    assert Long(p) / 0x1_0000 == abc / 256;
    assert Long(p) / 0x100_0000 == ab / 256;
  }

  /** Every 32-bit number is the `Long` of its octets. */
  lemma LongOfOctets(n: nat)
    requires n < 0x1_0000_0000
    ensures Long(Octets(n)) == n
  {
    var q1 := n / 256;
    var q2 := q1 / 256;
    assert n / 0x1_0000 == q2;
    assert n / 0x100_0000 == q2 / 256;
  }

  /** Distinct octet quadruples give distinct numbers. */
  lemma LongInjective(p: Parts, q: Parts)
    requires IsOctets(p) && IsOctets(q)
    ensures Long(p) == Long(q) <==> p == q
  {
    OctetsOfLong(p);
    OctetsOfLong(q);
  }

  // ----- JavaScript's `String.prototype.split` on one separator character -----

  /** The pieces of `s` between occurrences of `sep`; always at least one. */
  function Split(s: string, sep: char): (pieces: seq<string>)
    ensures |pieces| >= 1
    ensures forall i :: 0 <= i < |pieces| ==> sep !in pieces[i]
    decreases |s|
  {
    if s == [] then [[]]
    else
      var rest := Split(s[1..], sep);
      if s[0] == sep then [[]] + rest
      else [[s[0]] + rest[0]] + rest[1..]
  }

  /** A string free of the separator splits into itself. */
  lemma {:induction false} SplitWithoutSeparator(s: string, sep: char)
    requires sep !in s
    ensures Split(s, sep) == [s]
    decreases |s|
  {
    if s != [] {
      SplitWithoutSeparator(s[1..], sep);
      assert [s[0]] + s[1..] == s;
    }
  }

  /** Splitting `x + [sep] + y`, where `x` is free of the separator, yields
      `x` followed by the pieces of `y`. */
  lemma {:induction false} SplitAtFirstSeparator(x: string, y: string, sep: char)
    requires sep !in x
    ensures Split(x + [sep] + y, sep) == [x] + Split(y, sep)
    decreases |x|
  {
    var s := x + [sep] + y;
    if x == [] {
      assert s[1..] == y;
    } else {
      assert s[1..] == x[1..] + [sep] + y;
      SplitAtFirstSeparator(x[1..], y, sep);
      assert [x[0]] + x[1..] == x;
    }
  }

  // ----- JavaScript's unary `+` on a string of decimal digits -----

  predicate IsDigit(c: char) {
    '0' <= c <= '9'
  }

  predicate IsDigits(s: string) {
    forall i :: 0 <= i < |s| ==> IsDigit(s[i])
  }

  /** The value of a string of decimal digits; the empty string reads as 0,
      as it does under JavaScript's `+`. */
  function DecimalValue(s: string): nat
    requires IsDigits(s)
  {
    if s == [] then 0 else DecimalValue(s[..|s| - 1]) * 10 + (s[|s| - 1] as int - '0' as int)
  }

  /** A part of the address as a number: `None` stands for `NaN`, which is
      what `+part` gives for anything other than decimal digits. */
  function Coerce(part: string): (r: Option<nat>)
    ensures r.Some? <==> IsDigits(part)
  {
    if IsDigits(part) then Some(DecimalValue(part)) else None
  }

  /** The shortest decimal digits of `n`. */
  function Decimal(n: nat): (s: string)
    ensures |s| >= 1 && IsDigits(s)
  {
    if n < 10 then [(n + '0' as int) as char]
    else Decimal(n / 10) + [(n % 10 + '0' as int) as char]
  }

  /** Reading the decimal digits of `n` gives `n` back. */
  lemma {:induction false} DecimalRoundTrip(n: nat)
    ensures DecimalValue(Decimal(n)) == n
  {
    var s := Decimal(n);
    if n >= 10 {
      DecimalRoundTrip(n / 10);
      assert s[..|s| - 1] == Decimal(n / 10);
    }
  }

  /** `ip2long`: the numeric form of `ip`. `None` stands for `NaN`: fewer than
      four parts, or a leading part that is not decimal digits. Parts after the
      fourth are ignored. */
  function Ip2Long(ip: string): (r: Option<nat>)
    ensures r.Some? <==> var pieces := Split(ip, '.');
      |pieces| >= 4 && forall i :: 0 <= i < 4 ==> IsDigits(pieces[i])
    ensures r.Some? ==> var pieces := Split(ip, '.');
      r.value == Long(Parts(DecimalValue(pieces[0]), DecimalValue(pieces[1]), DecimalValue(pieces[2]), DecimalValue(pieces[3])))
  {
    var pieces := Split(ip, '.');
    if |pieces| < 4 then None
    else
      match (Coerce(pieces[0]), Coerce(pieces[1]), Coerce(pieces[2]), Coerce(pieces[3]))
      case (Some(a), Some(b), Some(c), Some(d)) => Some(Long(Parts(a, b, c, d)))
      case _ => None
  }

  /** The dotted form of four parts: `a.b.c.d`. */
  function Dotted(p: Parts): string {
    Decimal(p.a) + "." + Decimal(p.b) + "." + Decimal(p.c) + "." + Decimal(p.d)
  }

  lemma DigitsHaveNoDot(s: string)
    requires IsDigits(s)
    ensures '.' !in s
  {
  }

  /** Splitting `x + "." + y`, where `x` is decimal digits, yields `x`
      followed by the pieces of `y`. */
  lemma SplitAfterDigits(x: string, y: string)
    requires IsDigits(x)
    ensures Split(x + "." + y, '.') == [x] + Split(y, '.')
  {
    DigitsHaveNoDot(x);
    assert x + "." + y == x + ['.'] + y;
    SplitAtFirstSeparator(x, y, '.');
  }

  /** A dotted address splits into the decimal digits of its four parts. */
  lemma SplitDotted(p: Parts)
    ensures Split(Dotted(p), '.') == [Decimal(p.a), Decimal(p.b), Decimal(p.c), Decimal(p.d)]
  {
    var da, db, dc, dd := Decimal(p.a), Decimal(p.b), Decimal(p.c), Decimal(p.d);
    DigitsHaveNoDot(dd);
    SplitWithoutSeparator(dd, '.');
    var cd := dc + "." + dd;
    var bcd := db + "." + cd;
    SplitAfterDigits(dc, dd);
    SplitAfterDigits(db, cd);
    SplitAfterDigits(da, bcd);
    assert Dotted(p) == da + "." + bcd;
  }

  /** `ip2long` of a dotted address is the base-256 number of its parts. */
  lemma Ip2LongOfDotted(p: Parts)
    ensures Ip2Long(Dotted(p)) == Some(Long(p))
  {
    SplitDotted(p);
    DecimalRoundTrip(p.a);
    DecimalRoundTrip(p.b);
    DecimalRoundTrip(p.c);
    DecimalRoundTrip(p.d);
  }

  /** For addresses written as four octets, `ip2long` lies in [0, 2^32) and
      tells different addresses apart. */
  lemma Ip2LongOctets(p: Parts, q: Parts)
    requires IsOctets(p) && IsOctets(q)
    ensures Ip2Long(Dotted(p)).Some? && Ip2Long(Dotted(p)).value < 0x1_0000_0000
    ensures Ip2Long(Dotted(p)) == Ip2Long(Dotted(q)) <==> p == q
  {
    Ip2LongOfDotted(p);
    Ip2LongOfDotted(q);
    LongOfOctetsBound(p);
    LongInjective(p, q);
  }
}
