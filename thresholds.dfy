/**
 * Comparing a value with its warning and critical bounds (`check_value`),
 * the "worst wins" severity register (`set_code`) and its label (`get_return_str`).
 */
module Thresholds {
  import opened Wrappers
  import opened Text

  /**
   * A threshold option. `None` is an option the user did not give; Python 2
   * orders `None` below every number, so comparing with it is still defined.
   */
  type Bound = Option<int>

  /** A value carried in hundredths of its unit, read as a number. */
  function AsReal(v: nat): real {
    v as real / 100.0
  }

  /** `val > bound` in Python 2: always true against `None`. */
  predicate Exceeds(v: nat, b: Bound) {
    match b
    case None => true
    case Some(t) => AsReal(v) > t as real
  }

  /** `val < bound` in Python 2: never true against `None`. */
  predicate FallsShort(v: nat, b: Bound) {
    match b
    case None => false
    case Some(t) => AsReal(v) < t as real
  }

  datatype Verdict = Okay | Warning | Critical {

    /** The code `check_value` hands to `set_code` (okay hands none, which is the same as 0). */
    function Code(): nat {
      match this
      case Okay => 0
      case Warning => 1
      case Critical => 2
    }

    function Word(): string {
      match this
      case Okay => "okay"
      case Warning => "warning"
      case Critical => "critical"
    }
  }

  /**
   * The decision of `check_value`: in the normal sense a high value is bad,
   * in the reverse sense a low one.
   */
  function Evaluate(v: nat, warn: Bound, crit: Bound, reverse: bool): (verdict: Verdict)
    ensures !reverse ==> (verdict == Critical <==> Exceeds(v, crit))
    ensures !reverse ==> (verdict == Warning <==> !Exceeds(v, crit) && Exceeds(v, warn))
    ensures reverse ==> (verdict == Critical <==> FallsShort(v, crit))
    ensures reverse ==> (verdict == Warning <==> !FallsShort(v, crit) && FallsShort(v, warn))
  {
    if !reverse then
      if Exceeds(v, crit) then Critical else if Exceeds(v, warn) then Warning else Okay
    else
      if FallsShort(v, crit) then Critical else if FallsShort(v, warn) then Warning else Okay
  }

  /** With warn < crit, the normal sense splits the values into three bands. */
  lemma NormalSenseBands(v: nat, warn: int, crit: int)
    requires warn < crit
    ensures Evaluate(v, Some(warn), Some(crit), false) == Critical <==> AsReal(v) > crit as real
    ensures Evaluate(v, Some(warn), Some(crit), false) == Warning <==> warn as real < AsReal(v) <= crit as real
    ensures Evaluate(v, Some(warn), Some(crit), false) == Okay <==> AsReal(v) <= warn as real
  {
  }

  /** With warn > crit, the reverse sense splits the values into three bands. */
  lemma ReverseSenseBands(v: nat, warn: int, crit: int)
    requires warn > crit
    ensures Evaluate(v, Some(warn), Some(crit), true) == Critical <==> AsReal(v) < crit as real
    ensures Evaluate(v, Some(warn), Some(crit), true) == Warning <==> crit as real <= AsReal(v) < warn as real
    ensures Evaluate(v, Some(warn), Some(crit), true) == Okay <==> AsReal(v) >= warn as real
  {
  }

  /** Bounds in the wrong order are not rejected: the warning band is then empty. */
  lemma MisorderedBoundsNeverWarn(v: nat, warn: int, crit: int, reverse: bool)
    requires if reverse then warn <= crit else warn >= crit
    ensures Evaluate(v, Some(warn), Some(crit), reverse) != Warning
  {
  }

  /**
   * Whatever the bounds, a higher value is never better in the normal sense
   * and never worse in the reverse sense.
   */
  lemma EvaluateMonotone(v: nat, w: nat, warn: Bound, crit: Bound)
    requires v <= w
    ensures Evaluate(v, warn, crit, false).Code() <= Evaluate(w, warn, crit, false).Code()
    ensures Evaluate(w, warn, crit, true).Code() <= Evaluate(v, warn, crit, true).Code()
  {
    assert AsReal(v) <= AsReal(w);
  }

  /** The text `check_value` returns: "<desc> <state> (<value>)". */
  function Fragment(desc: string, verdict: Verdict, v: nat): (snip: string)
    ensures snip != ""
  {
    desc + " " + verdict.Word() + " (" + Show(v) + ")"
  }

  /** The state word of a fragment is the one the verdict names, so two verdicts never share a fragment. */
  lemma FragmentNamesVerdict(desc: string, verdict: Verdict, other: Verdict, v: nat, w: nat)
    requires Fragment(desc, verdict, v) == Fragment(desc, other, w)
    ensures verdict == other
  {
    var k := |desc| + 1;
    assert Fragment(desc, verdict, v)[k] == verdict.Word()[0];
    assert Fragment(desc, other, w)[k] == other.Word()[0];
  }

  /** `set_code`: the state only ever goes up. */
  function Raise(state: nat, code: int): (r: nat)
    ensures r >= state && r >= code
    ensures r == state || r == code
  {
    if code > state then code else state
  }

  /** The state after `set_code` has been called with each of the codes in turn. */
  function RaiseAll(state: nat, codes: seq<int>): nat {
    if codes == [] then state
    else Raise(RaiseAll(state, codes[..|codes| - 1]), codes[|codes| - 1])
  }

  lemma RaiseAllAppend(state: nat, codes: seq<int>, code: int)
    ensures RaiseAll(state, codes + [code]) == Raise(RaiseAll(state, codes), code)
  {
    assert (codes + [code])[..|codes|] == codes;
  }

  /** Raising through a sequence of codes is raising through its front, then through the rest. */
  lemma {:induction false} RaiseAllSplit(state: nat, codes: seq<int>, k: nat)
    requires k <= |codes|
    ensures RaiseAll(state, codes) == RaiseAll(RaiseAll(state, codes[..k]), codes[k..])
    decreases |codes| - k
  {
    if k < |codes| {
      RaiseAllSplit(state, codes, k + 1);
      RaiseAllAppend(state, codes[..k], codes[k]);
      assert codes[..k + 1] == codes[..k] + [codes[k]];
      var rest := codes[k..];
      assert rest[1..] == codes[k + 1..];
      RaiseAllCons(RaiseAll(state, codes[..k]), codes[k], codes[k + 1..]);
      assert rest == [codes[k]] + codes[k + 1..];
    } else {
      assert codes[..k] == codes;
      assert codes[k..] == [];
    }
  }

  lemma {:induction false} RaiseAllCons(state: nat, code: int, codes: seq<int>)
    ensures RaiseAll(state, [code] + codes) == RaiseAll(Raise(state, code), codes)
    decreases |codes|
  {
    if codes == [] {
      assert [code] + codes == [code];
      assert [code][..0] == [];
    } else {
      var front := codes[..|codes| - 1];
      RaiseAllCons(state, code, front);
      assert ([code] + codes)[..|codes|] == [code] + front;
    }
  }

  /**
   * After any sequence of checks the state is the largest code raised, or the
   * starting state when none is larger.
   */
  lemma {:induction false} RaiseAllIsMax(state: nat, codes: seq<int>)
    ensures RaiseAll(state, codes) >= state
    ensures forall i :: 0 <= i < |codes| ==> RaiseAll(state, codes) >= codes[i]
    ensures RaiseAll(state, codes) == state || exists i :: 0 <= i < |codes| && RaiseAll(state, codes) == codes[i]
  {
    if codes != [] {
      var front := codes[..|codes| - 1];
      RaiseAllIsMax(state, front);
      assert forall i :: 0 <= i < |front| ==> front[i] == codes[i];
      var r := RaiseAll(state, front);
      if r != state && Raise(r, codes[|codes| - 1]) == r {
        var i :| 0 <= i < |front| && r == front[i];
        assert RaiseAll(state, codes) == codes[i];
      }
    }
  }

  /** `get_return_str`. */
  function Label(state: int): string {
    if state == 3 then "UNKNOWN"
    else if state == 2 then "CRITICAL"
    else if state == 1 then "WARNING"
    else "OK"
  }

  /** The label names the exit code: distinct codes 0..3 get distinct labels, and every other code reads "OK". */
  lemma LabelNamesCode(a: int, b: int)
    ensures a !in {1, 2, 3} ==> Label(a) == "OK"
    ensures 0 <= a <= 3 && 0 <= b <= 3 && Label(a) == Label(b) ==> a == b
    ensures Label(2) == "CRITICAL" && Label(1) == "WARNING" && Label(3) == "UNKNOWN"
  {
  }
}
