/** Release versions: the accepted syntax, parsing, and precedence of stable versions. */
module Versions {
  import opened Types

  predicate IsDigit(ch: char) { '0' <= ch <= '9' }

  predicate IsIdentifierChar(ch: char) { IsDigit(ch) || 'A' <= ch <= 'Z' || 'a' <= ch <= 'z' || ch == '-' }

  predicate AllDigits(s: string) { forall ch :: ch in s ==> IsDigit(ch) }

  /** A decimal numeral without leading zeros. */
  predicate IsNumeral(s: string) {
    s != "" && AllDigits(s) && (s[0] == '0' ==> s == "0")
  }

  function DigitChar(d: nat): char
    requires d < 10
  {
    ('0' as int + d) as char
  }

  function DigitValue(ch: char): (d: nat)
    requires IsDigit(ch)
    ensures d < 10
  {
    ch as int - '0' as int
  }

  function Decimal(n: nat): (s: string)
    ensures s != "" && AllDigits(s)
  {
    if n < 10 then [DigitChar(n)] else Decimal(n / 10) + [DigitChar(n % 10)]
  }

  function Value(s: string): (n: nat)
    requires AllDigits(s)
  {
    if s == "" then 0 else 10 * Value(s[..|s| - 1]) + DigitValue(s[|s| - 1])
  }

  lemma {:induction false} DecimalValue(n: nat)
    ensures IsNumeral(Decimal(n)) && Value(Decimal(n)) == n && (n > 0 ==> Decimal(n)[0] != '0')
  {
    if n < 10 {
      assert Decimal(n)[..0] == "";
    } else {
      DecimalValue(n / 10);
      assert Decimal(n)[..|Decimal(n)| - 1] == Decimal(n / 10);
    }
  }

  lemma {:induction false} ValueDecimal(s: string)
    requires IsNumeral(s)
    ensures Decimal(Value(s)) == s
  {
    if |s| == 1 {
      assert s[..0] == "" && s == [s[0]];
    } else {
      var front := s[..|s| - 1];
      assert IsNumeral(front) by { assert front[0] == s[0]; }
      ValueDecimal(front);
      LeadingDigit(front);
      assert s == front + [s[|s| - 1]];
    }
  }

  lemma {:induction false} LeadingDigit(s: string)
    requires AllDigits(s) && s != "" && s[0] != '0'
    ensures Value(s) > 0
  {
    if |s| > 1 {
      LeadingDigit(s[..|s| - 1]);
    } else {
      assert s[..0] == "";
    }
  }

  // ---------------------------------------------------------------- parsing

  datatype Stable = Stable(major: nat, minor: nat, patch: nat)

  /** A version: its numbers and, for a prerelease, the text after the first hyphen. */
  datatype Parts = Parts(numbers: Stable, pre: Option<string>)

  const MAX_LENGTH := 100

  /** The text up to the first dot, and the rest after it. */
  function Head(s: string): (h: string)
    ensures |h| <= |s| && h == s[..|h|] && '.' !in h && (|h| < |s| ==> s[|h|] == '.')
  {
    if s == "" || s[0] == '.' then "" else [s[0]] + Head(s[1..])
  }

  predicate IdentifierOK(s: string) {
    && s != "" && (forall ch :: ch in s ==> IsIdentifierChar(ch))
    && !(AllDigits(s) && |s| > 1 && s[0] == '0')
  }

  /** Dot-separated identifiers, none of them numeric with a leading zero. */
  predicate PreOK(s: string)
    decreases |s|
  {
    var h := Head(s);
    IdentifierOK(h) && (|h| < |s| ==> PreOK(s[|h| + 1..]))
  }

  /** The length of the leading run of digits. */
  function Run(s: string): (n: nat)
    ensures n <= |s| && AllDigits(s[..n]) && (n < |s| ==> !IsDigit(s[n]))
  {
    if s == "" || !IsDigit(s[0]) then 0
    else
      var n := Run(s[1..]);
      assert s[..n + 1] == [s[0]] + s[1..][..n];
      n + 1
  }

  /** A numeral, then the rest. */
  function Numeral(s: string): Option<(nat, string)> {
    var n := Run(s);
    if IsNumeral(s[..n]) then Some((Value(s[..n]), s[n..])) else None
  }

  /** A numeral and a dot, then the rest. */
  function Dotted(s: string): Option<(nat, string)> {
    var r := Numeral(s);
    if r.Some? && r.value.1 != "" && r.value.1[0] == '.' then Some((r.value.0, r.value.1[1..])) else None
  }

  function VersionParts(value: string): Option<Parts> {
    var a := Dotted(value);
    if a.None? then None
    else
      var b := Dotted(a.value.1);
      if b.None? then None
      else
        var c := Numeral(b.value.1);
        if c.None? then None
        else
          var rest, numbers := c.value.1, Stable(a.value.0, b.value.0, c.value.0);
          if |value| > MAX_LENGTH then None
          else if rest == "" then Some(Parts(numbers, None))
          else if rest[0] == '-' && PreOK(rest[1..]) then Some(Parts(numbers, Some(rest[1..])))
          else None
  }

  // ---------------------------------------------------------------- rendering

  function Render(p: Parts): string {
    Decimal(p.numbers.major) + "." + Decimal(p.numbers.minor) + "." + Decimal(p.numbers.patch)
    + match p.pre case None => "" case Some(pre) => "-" + pre
  }

  lemma {:induction false} RunOf(digits: string, rest: string)
    requires AllDigits(digits) && (rest == "" || !IsDigit(rest[0]))
    ensures Run(digits + rest) == |digits|
  {
    if digits != "" {
      assert (digits + rest)[1..] == digits[1..] + rest;
      RunOf(digits[1..], rest);
    } else {
      assert digits + rest == rest;
    }
  }

  lemma NumeralOf(n: nat, rest: string)
    requires rest == "" || !IsDigit(rest[0])
    ensures Numeral(Decimal(n) + rest) == Some((n, rest))
  {
    DecimalValue(n);
    RunOf(Decimal(n), rest);
    assert (Decimal(n) + rest)[..|Decimal(n)|] == Decimal(n) && (Decimal(n) + rest)[|Decimal(n)|..] == rest;
  }

  lemma NumeralBack(s: string)
    requires Numeral(s).Some?
    ensures s == Decimal(Numeral(s).value.0) + Numeral(s).value.1
  {
    ValueDecimal(s[..Run(s)]);
  }

  /** Parsing inverts rendering, and accepts nothing but rendered versions. */
  lemma ParsesExactly(value: string, p: Parts)
    ensures VersionParts(value) == Some(p) <==>
              value == Render(p) && |value| <= MAX_LENGTH && (p.pre.Some? ==> PreOK(p.pre.value))
  {
    if value == Render(p) && |value| <= MAX_LENGTH && (p.pre.Some? ==> PreOK(p.pre.value)) {
      RenderedParses(p);
    }
    if VersionParts(value) == Some(p) {
      ParsedRenders(value);
    }
  }

  lemma RenderedParses(p: Parts)
    requires |Render(p)| <= MAX_LENGTH && (p.pre.Some? ==> PreOK(p.pre.value))
    ensures VersionParts(Render(p)) == Some(p)
  {
    hide Decimal, Numeral;
    var rest := match p.pre case None => "" case Some(pre) => "-" + pre;
    var third := Decimal(p.numbers.patch) + rest;
    var second := Decimal(p.numbers.minor) + ("." + third);
    var value := Decimal(p.numbers.major) + ("." + second);
    assert Render(p) == value;
    NumeralOf(p.numbers.major, "." + second);
    NumeralOf(p.numbers.minor, "." + third);
    NumeralOf(p.numbers.patch, rest);
    assert ("." + second)[1..] == second && ("." + third)[1..] == third;
    assert p.pre.Some? ==> rest[1..] == p.pre.value;
  }

  lemma ParsedRenders(value: string)
    requires VersionParts(value).Some?
    ensures var p := VersionParts(value).value;
            value == Render(p) && |value| <= MAX_LENGTH && (p.pre.Some? ==> PreOK(p.pre.value))
  {
    hide Decimal, Numeral;
    var a := Dotted(value);
    var b := Dotted(a.value.1);
    var c := Numeral(b.value.1);
    NumeralBack(value);
    NumeralBack(a.value.1);
    NumeralBack(b.value.1);
    assert value == Decimal(a.value.0) + ("." + a.value.1);
    assert a.value.1 == Decimal(b.value.0) + ("." + b.value.1);
    var rest := c.value.1;
    assert rest != "" && rest[0] == '-' ==> rest == "-" + rest[1..];
  }

  /** Equal parts come from equal strings, so a stable version number names at most one version. */
  lemma PartsInjective(v: string, w: string)
    requires VersionParts(v).Some? && VersionParts(v) == VersionParts(w)
    ensures v == w
  {
    ParsesExactly(v, VersionParts(v).value);
    ParsesExactly(w, VersionParts(v).value);
  }

  /** Precedence of version numbers. */
  predicate Precedes(a: Stable, b: Stable) {
    a.major < b.major || (a.major == b.major && (a.minor < b.minor || (a.minor == b.minor && a.patch < b.patch)))
  }
}
