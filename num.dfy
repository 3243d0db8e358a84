/**
  * JavaScript numbers as exact values: a finite real, NaN or a signed
  * infinity, with the IEEE rules for the special values (rounding and the
  * sign of zero are not modelled), plus the parsers the app calls on record
  * text: `parseFloat` and `parseInt`.
  */
module JsNum {
  import opened Js

  datatype Num = Fin(r: real) | NaN | Inf(neg: bool)

  /** The value is a whole number that `String` prints without exponent. */
  predicate IsPlainInt(r: real) {
    r == r.Floor as real && -1000000000000000000000.0 < r < 1000000000000000000000.0
  }

  /**
    * `String(n)`. Whole numbers print as decimal integers; the text of any
    * other finite number is the parameter `show`.
    */
  function Show(n: Num, show: real -> string): (s: string)
    ensures n.Fin? && IsPlainInt(n.r) ==> s == IntToString(n.r.Floor)
  {
    match n
    case NaN => "NaN"
    case Inf(neg) => if neg then "-Infinity" else "Infinity"
    case Fin(r) => if IsPlainInt(r) then IntToString(r.Floor) else show(r)
  }

  /** `n || 0`: NaN and zero are falsy. */
  function OrZero(n: Num): (r: Num)
    ensures r != NaN && r != Fin(0.0) ==> r == n
    ensures r.Fin? || r.Inf?
  {
    if n == NaN || n == Fin(0.0) then Fin(0.0) else n
  }

  function Neg(a: Num): Num {
    match a
    case NaN => NaN
    case Inf(n) => Inf(!n)
    case Fin(r) => Fin(-r)
  }

  function Add(a: Num, b: Num): Num {
    if a == NaN || b == NaN then NaN
    else if a.Inf? && b.Inf? then (if a.neg == b.neg then a else NaN)
    else if a.Inf? then a
    else if b.Inf? then b
    else Fin(a.r + b.r)
  }

  lemma AddCommutes(a: Num, b: Num)
    ensures Add(a, b) == Add(b, a)
  {
  }

  lemma AddAssociates(a: Num, b: Num, c: Num)
    ensures Add(Add(a, b), c) == Add(a, Add(b, c))
  {
  }

  function Sub(a: Num, b: Num): Num {
    Add(a, Neg(b))
  }

  function Mul(a: Num, b: Num): Num {
    if a == NaN || b == NaN then NaN
    else if a.Inf? && b.Inf? then Inf(a.neg != b.neg)
    else if a.Inf? then (if b.r == 0.0 then NaN else Inf(a.neg != (b.r < 0.0)))
    else if b.Inf? then (if a.r == 0.0 then NaN else Inf(b.neg != (a.r < 0.0)))
    else Fin(a.r * b.r)
  }

  function Div(a: Num, b: Num): Num {
    if a == NaN || b == NaN then NaN
    else if a.Inf? && b.Inf? then NaN
    else if a.Inf? then Inf(a.neg != (b.r < 0.0))
    else if b.Inf? then Fin(0.0)
    else if b.r == 0.0 then (if a.r == 0.0 then NaN else Inf(a.r < 0.0))
    else Fin(a.r / b.r)
  }

  /** `Math.floor(a)`. */
  function Floor(a: Num): (r: Num)
    ensures a.Fin? ==> r.Fin? && r.r <= a.r < r.r + 1.0 && r.r == r.r.Floor as real
    ensures !a.Fin? ==> r == a
  {
    if a.Fin? then Fin(a.r.Floor as real) else a
  }

  /** The integer part of `x`, rounding toward zero. */
  function Trunc(x: real): int {
    if x >= 0.0 then x.Floor else -((-x).Floor)
  }

  /**
    * `a % b`: the remainder of the division truncated toward zero, so it
    * takes the sign of `a` (unlike Dafny's `%`).
    */
  function Rem(a: Num, b: Num): Num {
    if a == NaN || b == NaN || a.Inf? || b == Fin(0.0) then NaN
    else if b.Inf? then a
    else Fin(a.r - b.r * Trunc(a.r / b.r) as real)
  }

  /** For whole numbers `t` and `d > 0`, `Math.floor(t / d)` is integer division. */
  lemma FloorOfQuotient(t: int, d: int)
    requires d > 0
    ensures ((t as real) / (d as real)).Floor == t / d
  {
    var q, r := t / d, t % d;
    assert t == q * d + r;
    assert (t as real) == (q as real) * (d as real) + (r as real);
    assert (t as real) / (d as real) == (q as real) + (r as real) / (d as real);
    assert 0.0 <= (r as real) / (d as real) < 1.0;
  }

  /** On non-negative whole numbers `%` agrees with the mathematical remainder. */
  lemma RemNatural(a: nat, b: nat)
    requires b > 0
    ensures Rem(Fin(a as real), Fin(b as real)) == Fin((a % b) as real)
  {
    FloorOfQuotient(a, b);
    assert (a as real) / (b as real) >= 0.0;
    assert a == (a / b) * b + a % b;
  }

  /** `%` keeps the sign of the dividend: `-7 % 60` is `-7`. */
  lemma RemNegativeDividend()
    ensures Rem(Fin(-7.0), Fin(60.0)) == Fin(-7.0)
  {
    assert -(-7.0 / 60.0) == 7.0 / 60.0;
    assert (7.0 / 60.0).Floor == 0 by { FloorOfQuotient(7, 60); }
  }

  /** `a > 0`. */
  predicate Positive(a: Num) {
    (a.Fin? && a.r > 0.0) || a == Inf(false)
  }

  /** `Math.min(a, b)`. */
  function Min(a: Num, b: Num): Num {
    if a == NaN || b == NaN then NaN
    else if Less(b, a) then b else a
  }

  /** `Math.max(a, b)`. */
  function Max(a: Num, b: Num): Num {
    if a == NaN || b == NaN then NaN
    else if Less(a, b) then b else a
  }

  /** `a < b` for numbers that are not NaN. */
  predicate Less(a: Num, b: Num) {
    match (a, b)
    case (Fin(x), Fin(y)) => x < y
    case (Inf(n), Fin(_)) => n
    case (Fin(_), Inf(m)) => !m
    case (Inf(n), Inf(m)) => n && !m
    case _ => false
  }

  /** `Math.max(0, x)` is never negative. */
  lemma MaxZeroNotNegative(x: Num)
    ensures Max(Fin(0.0), x) == NaN || !Less(Max(Fin(0.0), x), Fin(0.0))
  {
  }

  // ---------------------------------------------------------------------
  // parseFloat

  function Pow10(k: nat): (p: nat)
    ensures p >= 1
  {
    if k == 0 then 1 else 10 * Pow10(k - 1)
  }

  /** The longest prefix of `s` made of digits. */
  function LeadingDigits(s: string): (d: string)
    ensures IsDigits(d) && StartsWith(s, d)
    ensures |d| < |s| ==> !IsDigit(s[|d|])
  {
    if s != [] && IsDigit(s[0]) then [s[0]] + LeadingDigits(s[1..]) else []
  }

  lemma {:induction false} LeadingDigitsOfDigits(s: string)
    requires IsDigits(s)
    ensures LeadingDigits(s) == s
  {
    if s != [] {
      LeadingDigitsOfDigits(s[1..]);
    }
  }

  /**
    * `parseFloat(s)`: after leading white space, an optional sign, then
    * `Infinity` or the longest prefix `digits[.digits]` / `.digits`;
    * NaN when there is none. Exponents are not read.
    */
  function ParseFloat(s: string): Num {
    var t := TrimStart(s);
    if t != [] && t[0] == '-' then Neg(ParseUnsigned(t[1..]))
    else if t != [] && t[0] == '+' then ParseUnsigned(t[1..])
    else ParseUnsigned(t)
  }

  /** The unsigned part of a `parseFloat` literal. */
  function ParseUnsigned(u: string): (n: Num)
    ensures n != Inf(true) && (n.Fin? ==> n.r >= 0.0)
  {
    if StartsWith(u, "Infinity") then Inf(false)
    else
      var ip := LeadingDigits(u);
      ParseDecimal(ip, u[|ip|..])
  }

  /** Integer digits `ip` followed by the text `after`, which may hold `.digits`. */
  function ParseDecimal(ip: string, after: string): (n: Num)
    requires IsDigits(ip)
    ensures n != Inf(true) && n != Inf(false) && (n.Fin? ==> n.r >= 0.0)
  {
    var fp := if after != [] && after[0] == '.' then LeadingDigits(after[1..]) else "";
    if ip == "" && fp == "" then NaN
    else Fin(DigitsValue(ip) as real + DigitsValue(fp) as real / Pow10(|fp|) as real)
  }

  /** `parseFloat` reads a plain digit string as its decimal value. */
  lemma ParseFloatDigits(s: string)
    requires s != [] && IsDigits(s)
    ensures ParseFloat(s) == Fin(DigitsValue(s) as real)
  {
    assert IsDigit(s[0]);
    TrimStartOfDigits(s);
    ParseUnsignedDigits(s);
  }

  lemma ParseUnsignedDigits(s: string)
    requires s != [] && IsDigits(s)
    ensures ParseUnsigned(s) == Fin(DigitsValue(s) as real)
  {
    assert !StartsWith(s, "Infinity") by { if |s| >= 8 { assert s[..8][0] == s[0]; } }
    LeadingDigitsOfDigits(s);
    assert s[|s|..] == [];
    ParseDecimalWhole(s);
  }

  /** Digits with nothing after them read as their value. */
  lemma ParseDecimalWhole(ip: string)
    requires ip != [] && IsDigits(ip)
    ensures ParseDecimal(ip, []) == Fin(DigitsValue(ip) as real)
  {
    var zero := DigitsValue("") as real / Pow10(0) as real;
    assert DigitsValue("") == 0;
    assert zero == 0.0;
  }

  /** `parseFloat(n.toString()) == n` for naturals. */
  lemma ParseFloatNat(n: nat)
    ensures ParseFloat(NatToString(n)) == Fin(n as real)
  {
    ParseFloatDigits(NatToString(n));
    NatToStringRoundTrip(n);
  }

  // ---------------------------------------------------------------------
  // Number(s)

  /**
    * `Number(s)` on a string: white space around the text is ignored, an
    * empty text is 0, otherwise the whole text must be a signed decimal
    * literal or `Infinity`, else NaN. Exponents and `0x` literals are not read.
    */
  function ToNumber(s: string): Num {
    var t := Trim(s);
    if t == "" then Fin(0.0)
    else if t[0] == '-' then Neg(UnsignedLiteral(t[1..]))
    else if t[0] == '+' then UnsignedLiteral(t[1..])
    else UnsignedLiteral(t)
  }

  /** A whole unsigned literal `digits`, `digits.digits`, `digits.` or `.digits`. */
  function UnsignedLiteral(u: string): (n: Num)
    ensures n != Inf(true) && (n.Fin? ==> n.r >= 0.0)
  {
    if u == "Infinity" then Inf(false)
    else
      var ip := LeadingDigits(u);
      var rest := u[|ip|..];
      if rest == "" then (if ip == "" then NaN else Fin(DigitsValue(ip) as real))
      else if rest[0] != '.' then NaN
      else
        var fp := LeadingDigits(rest[1..]);
        if |ip| + 1 + |fp| != |u| || (ip == "" && fp == "") then NaN
        else Fin(DigitsValue(ip) as real + DigitsValue(fp) as real / Pow10(|fp|) as real)
  }

  /** `Number` reads a digit string as its decimal value and "" as 0. */
  lemma ToNumberDigits(s: string)
    requires IsDigits(s)
    ensures ToNumber(s) == Fin(DigitsValue(s) as real)
  {
    if s != [] {
      assert IsDigit(s[0]) && IsDigit(s[|s| - 1]);
      assert TrimStart(s) == s;
      assert TrimEnd(s) == s;
      UnsignedDigits(s);
    }
  }

  lemma UnsignedDigits(s: string)
    requires s != [] && IsDigits(s)
    ensures UnsignedLiteral(s) == Fin(DigitsValue(s) as real)
  {
    assert s != "Infinity" by { assert IsDigit(s[0]); }
    LeadingDigitsOfDigits(s);
    assert s[|s|..] == [];
  }

  /** `Number` rejects text with anything after the digits: `Number("1a")` is NaN. */
  lemma ToNumberRejectsTrailing()
    ensures ToNumber("1a") == NaN
  {
    assert TrimStart("1a") == "1a";
    assert TrimEnd("1a") == "1a";
    assert LeadingDigits("1a") == "1" by {
      assert LeadingDigits("a") == [];
      assert "1a"[1..] == "a";
    }
    assert "1a"[1..] == "a";
  }

  // ---------------------------------------------------------------------
  // parseInt (no radix argument)

  predicate IsHexDigit(c: char) {
    IsDigit(c) || 'a' <= c <= 'f' || 'A' <= c <= 'F'
  }

  function HexValue(c: char): nat
    requires IsHexDigit(c)
  {
    if IsDigit(c) then DigitValue(c)
    else if 'a' <= c <= 'f' then (c as int - 'a' as int + 10) as nat
    else (c as int - 'A' as int + 10) as nat
  }

  function LeadingHex(s: string): (d: string)
    ensures |d| <= |s| && d == s[..|d|]
    ensures forall i :: 0 <= i < |d| ==> IsHexDigit(d[i])
  {
    if s != [] && IsHexDigit(s[0]) then [s[0]] + LeadingHex(s[1..]) else []
  }

  function HexDigitsValue(s: string): nat
    requires forall i :: 0 <= i < |s| ==> IsHexDigit(s[i])
  {
    if s == [] then 0 else HexDigitsValue(s[..|s| - 1]) * 16 + HexValue(s[|s| - 1])
  }

  /**
    * `parseInt(s)`: after leading white space, an optional sign, a `0x`
    * prefix selects hexadecimal; otherwise the longest decimal digit prefix.
    * None stands for NaN.
    */
  function ParseInt(s: string): Option<int> {
    var t := TrimStart(s);
    var neg := t != [] && t[0] == '-';
    var u := if t != [] && (t[0] == '-' || t[0] == '+') then t[1..] else t;
    if StartsWith(u, "0x") || StartsWith(u, "0X") then
      var h := LeadingHex(u[2..]);
      if h == "" then None
      else
        var v: int := HexDigitsValue(h);
        Some(if neg then -v else v)
    else
      var d := LeadingDigits(u);
      if d == "" then None
      else
        var v: int := DigitsValue(d);
        Some(if neg then -v else v)
  }

  /** `parseInt(n.toString()) == n` for naturals. */
  lemma ParseIntNat(n: nat)
    ensures ParseInt(NatToString(n)) == Some(n)
  {
    ParseIntDigits(NatToString(n));
    NatToStringRoundTrip(n);
  }

  /** `parseInt` reads a plain digit string as its decimal value. */
  lemma ParseIntDigits(s: string)
    requires s != [] && IsDigits(s)
    ensures ParseInt(s) == Some(DigitsValue(s))
  {
    assert IsDigit(s[0]);
    TrimStartOfDigits(s);
    assert s[0] != '-' && s[0] != '+';
    assert !StartsWith(s, "0x") && !StartsWith(s, "0X") by {
      if |s| >= 2 { assert IsDigit(s[1]); }
    }
    LeadingDigitsOfDigits(s);
  }

  /** A text opening with a digit has no white space to trim. */
  lemma TrimStartOfDigits(s: string)
    requires s != [] && IsDigit(s[0])
    ensures TrimStart(s) == s
  {
    assert !IsWhitespace(s[0]);
  }
}
