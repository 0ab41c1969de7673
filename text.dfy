/**
 * The string operations the plugin borrows from Python 2: `str.strip()`,
 * `str.find()`, slicing with a possibly negative bound, `", ".join(...)`,
 * and the text that `str(float(n))` gives for the plugin's numbers.
 */
module Text {

  predicate IsDigit(c: char) {
    '0' <= c <= '9'
  }

  /** The characters Python 2's byte-string `strip()` removes. */
  predicate IsSpace(c: char) {
    c == ' ' || c == '\t' || c == '\n' || c == '\r' || c == '\U{000B}' || c == '\U{000C}'
  }

  predicate AllDigits(s: string) {
    forall i :: 0 <= i < |s| ==> IsDigit(s[i])
  }

  predicate AllSpace(s: string) {
    forall i :: 0 <= i < |s| ==> IsSpace(s[i])
  }

  function DigitOf(c: char): (d: nat)
    requires IsDigit(c)
    ensures d < 10
  {
    c as int - '0' as int
  }

  function DigitChar(d: nat): (c: char)
    requires d < 10
    ensures IsDigit(c) && DigitOf(c) == d
  {
    ('0' as int + d) as char
  }

  /** The number a string of decimal digits denotes; leading zeros are allowed. */
  function DigitsValue(ds: string): nat
    requires AllDigits(ds)
  {
    if ds == [] then 0 else DigitsValue(ds[..|ds| - 1]) * 10 + DigitOf(ds[|ds| - 1])
  }

  /** Decimal rendering of a natural number, without leading zeros. */
  function NatToString(n: nat): (s: string)
    ensures s != [] && AllDigits(s)
    ensures DigitsValue(s) == n
    ensures s[0] == '0' ==> s == "0"
  {
    if n < 10 then [DigitChar(n)]
    else
      var prefix := NatToString(n / 10);
      var s := prefix + [DigitChar(n % 10)];
      assert s[..|s| - 1] == prefix;
      s
  }

  function IntToString(i: int): string {
    if i < 0 then "-" + NatToString(-i) else NatToString(i)
  }

  /** `str(float(i))` for an integer option value, in the range where Python prints it as "i.0". */
  function IntAsFloat(i: int): string {
    IntToString(i) + ".0"
  }

  /** A whole reading expressed in hundredths, the unit every checked value is carried in. */
  function Whole(n: nat): nat {
    100 * n
  }

  function FractionDigits(f: nat): string
    requires f < 100
  {
    if f == 0 then "0"
    else if f % 10 == 0 then [DigitChar(f / 10)]
    else [DigitChar(f / 10), DigitChar(f % 10)]
  }

  /**
   * `str()` of the float whose value is v hundredths: the whole part, a dot and
   * the fraction without trailing zeros (at least one digit).
   */
  function Show(v: nat): string {
    NatToString(v / 100) + "." + FractionDigits(v % 100)
  }

  lemma ShowWhole(n: nat)
    ensures Show(Whole(n)) == NatToString(n) + ".0"
  {
    assert Whole(n) / 100 == n && Whole(n) % 100 == 0;
  }

  /** `str.strip()` from the left. */
  function TrimStart(s: string): (r: string)
    ensures |r| <= |s|
  {
    if s != [] && IsSpace(s[0]) then TrimStart(s[1..]) else s
  }

  /** `str.strip()` from the right. */
  function TrimEnd(s: string): (r: string)
    ensures |r| <= |s|
  {
    if s != [] && IsSpace(s[|s| - 1]) then TrimEnd(s[..|s| - 1]) else s
  }

  /** TrimStart removes a prefix of white space and stops at the first other character. */
  lemma {:induction false} TrimStartShape(s: string)
    ensures TrimStart(s) == s[|s| - |TrimStart(s)|..]
    ensures AllSpace(s[..|s| - |TrimStart(s)|])
    ensures TrimStart(s) == [] || !IsSpace(TrimStart(s)[0])
  {
    if s != [] && IsSpace(s[0]) {
      TrimStartShape(s[1..]);
      var k := |s| - |TrimStart(s)|;
      assert s[..k] == [s[0]] + s[1..][..k - 1];
    }
  }

  /** TrimEnd removes a suffix of white space and stops at the last other character. */
  lemma {:induction false} TrimEndShape(s: string)
    ensures TrimEnd(s) == s[..|TrimEnd(s)|]
    ensures AllSpace(s[|TrimEnd(s)|..])
    ensures TrimEnd(s) == [] || !IsSpace(TrimEnd(s)[|TrimEnd(s)| - 1])
  {
    if s != [] && IsSpace(s[|s| - 1]) {
      var front := s[..|s| - 1];
      TrimEndShape(front);
      var k := |TrimEnd(s)|;
      assert s[k..] == front[k..] + [s[|s| - 1]];
    }
  }

  /** `str.strip()`: the result has no white space at either end. */
  function Strip(s: string): (r: string)
    ensures |r| <= |s|
    ensures r == [] || (!IsSpace(r[0]) && !IsSpace(r[|r| - 1]))
  {
    var t := TrimStart(s);
    TrimStartShape(s);
    TrimEndShape(t);
    var r := TrimEnd(t);
    assert r != [] ==> r[0] == t[0];
    r
  }

  lemma {:induction false} TrimStartSkips(pad: string, rest: string)
    requires AllSpace(pad)
    requires rest == [] || !IsSpace(rest[0])
    ensures TrimStart(pad + rest) == rest
  {
    if pad != [] {
      assert (pad + rest)[1..] == pad[1..] + rest;
      TrimStartSkips(pad[1..], rest);
    } else {
      assert pad + rest == rest;
    }
  }

  lemma {:induction false} TrimEndSkips(rest: string, pad: string)
    requires AllSpace(pad)
    requires rest == [] || !IsSpace(rest[|rest| - 1])
    ensures TrimEnd(rest + pad) == rest
  {
    if pad != [] {
      var shorter := pad[..|pad| - 1];
      assert (rest + pad)[..|rest + pad| - 1] == rest + shorter;
      TrimEndSkips(rest, shorter);
    } else {
      assert rest + pad == rest;
    }
  }

  /** Stripping removes exactly the surrounding white space, whatever is inside. */
  lemma StripSurrounded(before: string, core: string, after: string)
    requires AllSpace(before) && AllSpace(after)
    requires core == [] || (!IsSpace(core[0]) && !IsSpace(core[|core| - 1]))
    ensures Strip(before + core + after) == core
  {
    if core == [] {
      assert before + core + after == (before + after) + [];
      TrimStartSkips(before + after, []);
      assert TrimEnd([]) == [];
    } else {
      assert before + core + after == before + (core + after);
      TrimStartSkips(before, core + after);
      TrimEndSkips(core, after);
    }
  }

  lemma StripIdempotent(s: string)
    ensures Strip(Strip(s)) == Strip(s)
  {
    var r := Strip(s);
    var none: string := [];
    assert AllSpace(none);
    StripSurrounded(none, r, none);
    assert none + r + none == r;
  }

  /** `s.find(c)`: the first index of c, or -1. */
  function Find(s: string, c: char): (i: int)
    ensures -1 <= i < |s|
    ensures i == -1 <==> c !in s
    ensures i >= 0 ==> s[i] == c && c !in s[..i]
  {
    if s == [] then -1
    else if s[0] == c then 0
    else
      var j := Find(s[1..], c);
      assert s[1..][..if j < 0 then 0 else j] == s[1..1 + if j < 0 then 0 else j];
      if j == -1 then -1 else j + 1
  }

  /** A slice bound as Python reads it: a negative one counts from the end; both are clamped to the string. */
  function SliceBound(s: string, n: int): (k: nat)
    ensures k <= |s|
  {
    if n < 0 then (if |s| + n < 0 then 0 else |s| + n)
    else if n > |s| then |s| else n
  }

  /** `sep.join(parts)`. */
  function Join(parts: seq<string>, sep: string): string {
    if parts == [] then ""
    else if |parts| == 1 then parts[0]
    else parts[0] + sep + Join(parts[1..], sep)
  }

  /** Joining one more part appends the separator and that part. */
  lemma {:induction false} JoinSnoc(parts: seq<string>, x: string, sep: string)
    requires parts != []
    ensures Join(parts + [x], sep) == Join(parts, sep) + sep + x
  {
    if |parts| == 1 {
      assert (parts + [x])[1..] == [x];
    } else {
      assert (parts + [x])[1..] == parts[1..] + [x];
      JoinSnoc(parts[1..], x, sep);
    }
  }

  /** `[x for x in parts if x != ""]`. */
  function NonEmpty(parts: seq<string>): (kept: seq<string>)
    ensures forall i :: 0 <= i < |kept| ==> kept[i] != ""
    ensures forall x :: x in kept ==> x in parts
    ensures |kept| <= |parts|
  {
    if parts == [] then []
    else (if parts[0] == "" then [] else [parts[0]]) + NonEmpty(parts[1..])
  }

  /** Filtering distributes over concatenation, so it keeps the order of the parts. */
  lemma {:induction false} NonEmptyAppend(a: seq<string>, b: seq<string>)
    ensures NonEmpty(a + b) == NonEmpty(a) + NonEmpty(b)
  {
    if a != [] {
      assert (a + b)[0] == a[0];
      assert (a + b)[1..] == a[1..] + b;
      NonEmptyAppend(a[1..], b);
    } else {
      assert a + b == b;
    }
  }

  /** Parts that are all non-empty pass the filter untouched. */
  lemma {:induction false} NonEmptyKeepsAll(parts: seq<string>)
    requires forall i :: 0 <= i < |parts| ==> parts[i] != ""
    ensures NonEmpty(parts) == parts
  {
    if parts != [] {
      NonEmptyKeepsAll(parts[1..]);
    }
  }
}
