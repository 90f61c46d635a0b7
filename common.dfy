/** Small shared vocabulary: optional values, results for the source's
    exceptions, and the ASCII text helpers the configuration reader needs. */
module Common {

  datatype Option<+T> = None | Some(value: T)

  /** A value, or the message of the exception the source would throw. */
  datatype Result<+T> = Ok(value: T) | Err(msg: string)

  /** A loop that converts the elements in order after the results in
      `acc`, stopping at the first exception. */
  function MapResults<A, B>(xs: seq<A>, f: A -> Result<B>, acc: seq<B>): Result<seq<B>>
    decreases |xs|
  {
    if xs == [] then Ok(acc)
    else
      match f(xs[0])
      case Err(e) => Err(e)
      case Ok(b) => MapResults(xs[1..], f, acc + [b])
  }

  /** The loop fails exactly when some element does; otherwise it yields
      one converted element per element, after `acc`. */
  lemma {:induction false} MapResultsMeaning<A, B>(xs: seq<A>, f: A -> Result<B>, acc: seq<B>)
    ensures var r := MapResults(xs, f, acc);
            (r.Err? <==> exists i :: 0 <= i < |xs| && f(xs[i]).Err?) &&
            (r.Ok? ==> |r.value| == |acc| + |xs| && r.value[..|acc|] == acc &&
                       forall i :: 0 <= i < |xs| ==> Ok(r.value[|acc| + i]) == f(xs[i]))
    decreases |xs|
  {
    if xs != [] {
      assert forall i :: 0 < i < |xs| ==> xs[i] == xs[1..][i - 1];
      match f(xs[0])
      case Err(e) =>
      case Ok(b) =>
        MapResultsMeaning(xs[1..], f, acc + [b]);
        var r := MapResults(xs[1..], f, acc + [b]);
        if r.Ok? {
          assert r.value[..|acc|] == (r.value[..|acc| + 1])[..|acc|];
          forall i | 0 <= i < |xs| ensures Ok(r.value[|acc| + i]) == f(xs[i]) {
            if i == 0 {
              assert r.value[..|acc| + 1][|acc|] == b;
            } else {
              assert Ok(r.value[|acc| + 1 + (i - 1)]) == f(xs[1..][i - 1]);
            }
          }
        } else {
          var i :| 0 <= i < |xs[1..]| && f(xs[1..][i]).Err?;
          assert f(xs[i + 1]).Err?;
        }
    }
  }

  /** C#'s `int.MinValue` and `int.MaxValue`. */
  const IntMin: int := -0x8000_0000
  const IntMax: int := 0x7FFF_FFFF

  function Min(a: int, b: int): int { if a <= b then a else b }
  function Max(a: int, b: int): int { if a >= b then a else b }

  function MinR(a: real, b: real): real { if a <= b then a else b }
  function MaxR(a: real, b: real): real { if a >= b then a else b }

  /** Lower-cases ASCII letters; other characters are kept. */
  function LowerChar(c: char): char
  {
    if 'A' <= c <= 'Z' then (c as int + 32) as char else c
  }

  function Lower(s: string): (r: string)
    ensures |r| == |s|
    ensures forall i :: 0 <= i < |s| ==> r[i] == LowerChar(s[i])
  {
    if s == [] then [] else [LowerChar(s[0])] + Lower(s[1..])
  }

  predicate IsWhite(c: char) { c == ' ' || c == '\t' || c == '\n' || c == '\r' }

  predicate IsDigit(c: char) { '0' <= c <= '9' }

  /** `string.IsNullOrWhiteSpace` for a present string. */
  predicate IsBlank(s: string) { forall i :: 0 <= i < |s| ==> IsWhite(s[i]) }

  function TrimStart(s: string): (r: string)
    ensures |r| <= |s|
  {
    if s != [] && IsWhite(s[0]) then TrimStart(s[1..]) else s
  }

  function TrimEnd(s: string): (r: string)
    ensures |r| <= |s|
  {
    if s != [] && IsWhite(s[|s| - 1]) then TrimEnd(s[..|s| - 1]) else s
  }

  function Trim(s: string): string { TrimEnd(TrimStart(s)) }

  /** `String.Split` on one separator character: the pieces between
      separators, in order, empty pieces kept. */
  function Split(s: string, sep: char): (r: seq<string>)
    ensures |r| >= 1
    decreases |s|
  {
    if s == [] then [""]
    else if s[0] == sep then [""] + Split(s[1..], sep)
    else
      var rest := Split(s[1..], sep);
      [[s[0]] + rest[0]] + rest[1..]
  }

  /** The value of a non-empty run of decimal digits. */
  function DigitsValue(s: string): (n: nat)
    requires forall i :: 0 <= i < |s| ==> IsDigit(s[i])
  {
    if s == [] then 0
    else
      assert IsDigit(s[|s| - 1]);
      DigitsValue(s[..|s| - 1]) * 10 + (s[|s| - 1] as int - '0' as int)
  }

  predicate AllDigits(s: string) { s != [] && forall i :: 0 <= i < |s| ==> IsDigit(s[i]) }

  /** `int.Parse`: optional surrounding white space, an optional sign and
      decimal digits; anything else, or a value outside the 32-bit range,
      is a failure. */
  function ParseInt(s: string): (r: Option<int>)
    ensures r.Some? ==> IntMin <= r.value <= IntMax
  {
    var t := Trim(s);
    var neg := |t| > 0 && t[0] == '-';
    var body := if |t| > 0 && (t[0] == '-' || t[0] == '+') then t[1..] else t;
    if !AllDigits(body) then None
    else
      var d: int := DigitsValue(body);
      var v: int := if neg then 0 - d else d;
      if IntMin <= v <= IntMax then Some(v) else None
  }

  /** `float.Parse` restricted to plain decimal notation: an optional sign,
      digits, and an optional fraction part. */
  function ParseReal(s: string): Option<real>
  {
    var t := Trim(s);
    var neg := |t| > 0 && t[0] == '-';
    var body := if |t| > 0 && (t[0] == '-' || t[0] == '+') then t[1..] else t;
    var parts := Split(body, '.');
    if |parts| == 1 && AllDigits(parts[0]) then
      var v := DigitsValue(parts[0]) as real;
      Some(if neg then -v else v)
    else if |parts| == 2 && AllDigits(parts[1]) && (parts[0] == [] || AllDigits(parts[0])) then
      var whole := if parts[0] == [] then 0 else DigitsValue(parts[0]);
      var v := whole as real + DigitsValue(parts[1]) as real / Pow10(|parts[1]|) as real;
      Some(if neg then -v else v)
    else None
  }

  function Pow10(n: nat): (r: nat)
    ensures r >= 1
  {
    if n == 0 then 1 else 10 * Pow10(n - 1)
  }

  /** The decimal text of a natural number. */
  function NatToString(n: nat): (s: string)
    ensures AllDigits(s)
    ensures DigitsValue(s) == n
  {
    if n < 10 then [('0' as int + n) as char]
    else
      var rest := NatToString(n / 10);
      var s := rest + [('0' as int + n % 10) as char];
      assert s[..|s| - 1] == rest;
      s
  }

  /** `bool.Parse`: "true" or "false", ignoring case and surrounding white space. */
  function ParseBool(s: string): Option<bool>
  {
    var t := Lower(Trim(s));
    if t == "true" then Some(true) else if t == "false" then Some(false) else None
  }

  /** Truncation of a real toward zero, as a C# `(int)` cast does. */
  function Truncate(r: real): int
  {
    if r >= 0.0 then r.Floor else -((-r).Floor)
  }

  /** `(int)Math.Floor(r)` and `(int)Math.Ceiling(r)`. */
  function Floor(r: real): int { r.Floor }
  function Ceil(r: real): int { if r.Floor as real == r then r.Floor else r.Floor + 1 }

  /** `MathUtils.Lerp(a, b, t)`. */
  function Lerp(a: real, b: real, t: real): real { a + (b - a) * t }
}

/** The few `System.IO.Path` operations the configuration code uses, on
    '/'-separated paths. */
module Paths {
  import opened Common

  /** `Path.Combine`: a rooted second part replaces the first. */
  function Combine(dir: string, p: string): string
  {
    if |p| > 0 && p[0] == '/' then p
    else if dir == [] then p
    else if dir[|dir| - 1] == '/' then dir + p
    else dir + "/" + p
  }

  /** The index just after the last '/', or 0. */
  function NameStart(p: string): (i: nat)
    ensures i <= |p|
    ensures i > 0 ==> p[i - 1] == '/'
    ensures forall j :: i <= j < |p| ==> p[j] != '/'
  {
    if p == [] then 0
    else if p[|p| - 1] == '/' then |p|
    else NameStart(p[..|p| - 1])
  }

  /** The index of the last '.' in the file name part, if any. */
  function LastDot(p: string, from: nat): (r: Option<nat>)
    requires from <= |p|
    ensures r.Some? ==> from <= r.value < |p| && p[r.value] == '.'
    ensures r.Some? ==> forall j :: r.value < j < |p| ==> p[j] != '.'
    ensures r.None? ==> forall j :: from <= j < |p| ==> p[j] != '.'
    decreases |p|
  {
    if |p| == from then None
    else if p[|p| - 1] == '.' then Some(|p| - 1)
    else LastDot(p[..|p| - 1], from)
  }

  /** `Path.GetExtension`: from the last '.' of the file name to the end;
      empty when there is no dot or the dot is the last character. */
  function Extension(p: string): string
  {
    match LastDot(p, NameStart(p))
    case None => ""
    case Some(i) => if i == |p| - 1 then "" else p[i..]
  }

  /** `Path.GetDirectoryName`: everything before the last '/'. */
  function DirectoryName(p: string): string
  {
    var i := NameStart(p);
    if i == 0 then "" else p[..i - 1]
  }

  /** `Path.ChangeExtension(p, null)`: the path without its extension. */
  function WithoutExtension(p: string): string
  {
    match LastDot(p, NameStart(p))
    case None => p
    case Some(i) => p[..i]
  }
}
