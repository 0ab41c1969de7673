/**
 * Reading values out of the parsed status map (`get_value`) and the derived
 * power-consumption estimate (`calc_consumption`).
 */
module Metrics {
  import opened Wrappers
  import opened Text

  /** The exceptions the plugin can die with while reading its inputs. */
  datatype Error =
    | MissingKey(key: string)   // KeyError: the status output had no such line
    | NoDigits(key: string)     // IndexError: the value holds no digit, so `re.findall` found nothing
    | TimeUnread                // NameError: `time` used although it was never read

  predicate HasDigit(s: string) {
    exists i :: 0 <= i < |s| && IsDigit(s[i])
  }

  /** Where the first digit of s is (|s| when there is none). */
  function FirstDigitIndex(s: string): (i: nat)
    ensures i <= |s|
    ensures forall k :: 0 <= k < i ==> !IsDigit(s[k])
    ensures i < |s| ==> IsDigit(s[i])
  {
    if s == [] || IsDigit(s[0]) then 0 else 1 + FirstDigitIndex(s[1..])
  }

  /** The length of the longest prefix of s made of digits. */
  function DigitRunLength(s: string): (n: nat)
    ensures n <= |s|
    ensures forall k :: 0 <= k < n ==> IsDigit(s[k])
    ensures n < |s| ==> !IsDigit(s[n])
  {
    if s != [] && IsDigit(s[0]) then 1 + DigitRunLength(s[1..]) else 0
  }

  /** The first match of the regular expression `\d+` in s, or "" when it does not match. */
  function FirstDigitRun(s: string): (run: string)
    ensures AllDigits(run)
    ensures run == [] <==> !HasDigit(s)
  {
    var i := FirstDigitIndex(s);
    var n := DigitRunLength(s[i..]);
    assert i < |s| ==> n >= 1;
    s[i..i + n]
  }

  /**
   * The first digit run is the one that follows a digit-free prefix and
   * stops at the first non-digit, whatever comes after it.
   */
  lemma FirstDigitRunOfSplit(before: string, digits: string, after: string)
    requires !HasDigit(before)
    requires digits != [] && AllDigits(digits)
    requires after == [] || !IsDigit(after[0])
    ensures FirstDigitRun(before + digits + after) == digits
  {
    var s := before + digits + after;
    assert IsDigit(s[|before|]);
    assert forall k :: 0 <= k < |before| ==> s[k] == before[k];
    var i := FirstDigitIndex(s);
    assert i == |before|;
    var t := s[i..];
    assert t == digits + after;
    assert |digits| < |t| ==> !IsDigit(t[|digits|]);
    assert forall k :: 0 <= k < |digits| ==> t[k] == digits[k];
    var n := DigitRunLength(t);
    assert n == |digits|;
    assert s[i..i + n] == digits;
  }

  /** `get_value(key)`: the stored text, or KeyError. */
  function ReadText(info: map<string, string>, key: string): (r: Result<string, Error>)
    ensures r.Success? <==> key in info
    ensures r.Success? ==> r.value == info[key]
    ensures r.Failure? ==> r.error == MissingKey(key)
  {
    if key in info then Success(info[key]) else Failure(MissingKey(key))
  }

  /**
   * `get_value(key, True)`: the first run of decimal digits of the stored text,
   * as a number; KeyError when the key is absent, IndexError when the text has no digit.
   */
  function ReadNumber(info: map<string, string>, key: string): (r: Result<nat, Error>)
    ensures key !in info ==> r == Failure(MissingKey(key))
    ensures key in info ==> (r.Failure? <==> !HasDigit(info[key]))
    ensures key in info && r.Failure? ==> r.error == NoDigits(key)
  {
    if key !in info then Failure(MissingKey(key))
    else
      var run := FirstDigitRun(info[key]);
      if run == [] then Failure(NoDigits(key)) else Success(DigitsValue(run))
  }

  /** A stored text that starts its digits with `digits` reads as their value, whatever follows. */
  lemma ReadNumberOfSplit(info: map<string, string>, key: string, before: string, digits: string, after: string)
    requires key in info && info[key] == before + digits + after
    requires !HasDigit(before)
    requires digits != [] && AllDigits(digits)
    requires after == [] || !IsDigit(after[0])
    ensures ReadNumber(info, key) == Success(DigitsValue(digits))
  {
    FirstDigitRunOfSplit(before, digits, after);
  }

  /** A decimal fraction is dropped: "30.5 C" reads as 30, not 30.5. */
  lemma ReadNumberDropsFraction(info: map<string, string>, key: string, whole: string, rest: string)
    requires key in info && info[key] == whole + "." + rest
    requires whole != [] && AllDigits(whole)
    ensures ReadNumber(info, key) == Success(DigitsValue(whole))
  {
    var none: string := [];
    assert !HasDigit(none);
    assert info[key] == none + whole + ("." + rest);
    ReadNumberOfSplit(info, key, none, whole, "." + rest);
  }

  /** Reading back a rendered value gives its whole part: the extractor inverts `Show` up to the fraction. */
  lemma ShowReadsBack(v: nat)
    ensures FirstDigitRun(Show(v)) == NatToString(v / 100)
    ensures DigitsValue(FirstDigitRun(Show(v))) == v / 100
  {
    var none: string := [];
    assert !HasDigit(none);
    var after := "." + FractionDigits(v % 100);
    assert Show(v) == none + NatToString(v / 100) + after;
    FirstDigitRunOfSplit(none, NatToString(v / 100), after);
  }

  /** `load/100*out` in hundredths of a watt, so that it is exact. */
  function ConsumptionHundredths(load: nat, out: nat): (c: nat)
    ensures c as real / 100.0 == (load as real / 100.0) * out as real
  {
    load * out
  }

  /** `calc_consumption()`: reads LOADPCT, then NOMOUTV, and estimates the draw in watts. */
  function CalcConsumption(info: map<string, string>): (r: Result<nat, Error>)
    ensures ReadNumber(info, "LOADPCT").Failure? ==> r == Failure(ReadNumber(info, "LOADPCT").error)
    ensures ReadNumber(info, "LOADPCT").Success? && ReadNumber(info, "NOMOUTV").Failure? ==>
              r == Failure(ReadNumber(info, "NOMOUTV").error)
    ensures r.Success? ==>
              r.value as real / 100.0
              == (ReadNumber(info, "LOADPCT").value as real / 100.0) * ReadNumber(info, "NOMOUTV").value as real
  {
    var load :- ReadNumber(info, "LOADPCT");
    var out :- ReadNumber(info, "NOMOUTV");
    Success(ConsumptionHundredths(load, out))
  }
}
