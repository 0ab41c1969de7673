/**
 * The plugin's run: the global severity `state` and the parsed status map
 * `ups_info`, updated in place by `set_code`, `check_value`,
 * `get_apcaccess_data` and `check_ups`.
 */
module CheckApcaccess {
  import opened Wrappers
  import opened Text
  import opened Metrics
  import opened Thresholds
  import opened StatusParser
  import opened Report

  class UpsCheck {
    /** The worst code raised so far (0 OK, 1 WARNING, 2 CRITICAL, 3 UNKNOWN). */
    var state: nat
    /** The status output, key to value. */
    var upsInfo: map<string, string>

    /** The module globals before anything has run. */
    constructor ()
      ensures state == 0 && upsInfo == map[]
    {
      state := 0;
      upsInfo := map[];
    }

    /** `set_code`: raise the state to the code, never lower it. */
    method SetCode(code: int)
      modifies this`state
      ensures state == Raise(old(state), code)
    {
      if code > state {
        state := code;
      }
    }

    /** `check_value`: render the fragment and raise the state for a warning or a critical value. */
    method CheckValue(v: nat, desc: string, warn: Bound, crit: Bound, reverse: bool) returns (snip: string)
      modifies this`state
      ensures snip == Fragment(desc, Evaluate(v, warn, crit, reverse), v)
      ensures state == Raise(old(state), Evaluate(v, warn, crit, reverse).Code())
    {
      if !reverse {
        if Exceeds(v, crit) {
          snip := Fragment(desc, Critical, v);
          SetCode(2);
        } else if Exceeds(v, warn) {
          snip := Fragment(desc, Warning, v);
          SetCode(1);
        } else {
          snip := Fragment(desc, Okay, v);
        }
      } else {
        if FallsShort(v, crit) {
          snip := Fragment(desc, Critical, v);
          SetCode(2);
        } else if FallsShort(v, warn) {
          snip := Fragment(desc, Warning, v);
          SetCode(1);
        } else {
          snip := Fragment(desc, Okay, v);
        }
      }
    }

    /** The parsing loop of `get_apcaccess_data`: store every line's entry, later lines overwriting earlier ones. */
    method LoadStatus(lines: seq<string>)
      modifies this`upsInfo
      ensures upsInfo == Absorb(old(upsInfo), lines)
    {
      var i := 0;
      while i < |lines|
        invariant 0 <= i <= |lines|
        invariant upsInfo == Absorb(old(upsInfo), lines[..i])
      {
        var line := lines[i];
        var key := Strip(line[..SliceBound(line, Find(line, ':'))]);
        var value := Strip(line[SliceBound(line, Find(line, ':') + 1)..]);
        AbsorbStep(old(upsInfo), lines, i);
        upsInfo := upsInfo[key := value];
        i := i + 1;
      }
      assert lines[..i] == lines;
    }

    /** The readings at the head of `check_ups`, in its order; TIMELEFT only when both time bounds are given. */
    method ReadAll(opts: Options) returns (r: Result<Snapshot, Error>)
      ensures r == Gather(upsInfo, opts)
    {
      var temp :- ReadNumber(upsInfo, "ITEMP");
      var load :- ReadNumber(upsInfo, "LOADPCT");
      var batt :- ReadNumber(upsInfo, "BCHARGE");
      var time: Option<nat> := None;
      if TimeRead(opts) {
        var t :- ReadNumber(upsInfo, "TIMELEFT");
        time := Some(t);
      }
      var powerCons :- CalcConsumption(upsInfo);
      r := Success(Snapshot(temp, load, batt, time, powerCons));
    }

    /** The three checks `check_ups` always runs: temperature, load, battery charge. */
    method CheckAlways(s: Snapshot, opts: Options) returns (snips: seq<string>)
      modifies this`state
      ensures snips == AlwaysSnippets(s, opts)
      ensures state == RaiseAll(old(state), AlwaysCodes(s, opts))
    {
      var snipTemp := CheckValue(Whole(s.temp), "temperature", Some(opts.tempWarn), Some(opts.tempCrit), false);
      var snipLoad := CheckValue(Whole(s.load), "load", Some(opts.loadWarn), Some(opts.loadCrit), false);
      var snipBatt := CheckValue(Whole(s.batt), "battery load", Some(opts.batWarn), Some(opts.batCrit), true);
      snips := [snipTemp, snipLoad, snipBatt];
      ghost var codes := AlwaysCodes(s, opts);
      assert codes[..2] == [codes[0], codes[1]];
      assert codes[..2][..1] == [codes[0]];
      assert [codes[0]][..0] == [];
      assert RaiseAll(old(state), [codes[0]]) == Raise(old(state), codes[0]);
    }

    /** The optional checks: battery time, then consumption, each when one of its bounds is given. */
    method CheckOptional(s: Snapshot, opts: Options) returns (snips: seq<string>)
      requires Ready(s, opts)
      modifies this`state
      ensures snips == OptionalSnippets(s, opts)
      ensures state == RaiseAll(old(state), OptionalCodes(s, opts))
    {
      var snipTime := "";
      ghost var codes: seq<int> := [];
      if TimeChecked(opts) {
        snipTime := CheckValue(Whole(s.time.value), "battery time", opts.timeWarn, opts.timeCrit, true);
        codes := [TimeVerdict(s, opts).Code()];
        assert codes[..0] == [];
      }
      assert state == RaiseAll(old(state), codes);
      var snipConsum := "";
      if ConsumptionChecked(opts) {
        snipConsum := CheckValue(s.consumption, "power consumption", opts.consumWarn, opts.consumCrit, false);
        RaiseAllAppend(old(state), codes, ConsumptionVerdict(s, opts).Code());
        codes := codes + [ConsumptionVerdict(s, opts).Code()];
      }
      snips := [snipTime, snipConsum];
    }

    /** `check_ups`: read, check in the fixed order, and compose the line; the exit code is the state. */
    method CheckUps(opts: Options) returns (r: Result<Report, Error>)
      modifies this`state
      ensures r == Check(upsInfo, opts, old(state))
      ensures r.Success? ==> state == r.value.code
      ensures r.Failure? && r.error != TimeUnread ==> state == old(state)
      ensures r == Failure(TimeUnread) ==>
                var s := Gather(upsInfo, opts).value;
                state == RaiseAll(old(state), AlwaysCodes(s, opts))
    {
      var s :- ReadAll(opts);
      var always := CheckAlways(s, opts);
      if TimeChecked(opts) && s.time.None? {
        return Failure(TimeUnread);
      }
      var optional := CheckOptional(s, opts);
      RaiseAllSplit(old(state), Codes(s, opts), 3);
      assert Codes(s, opts)[..3] == AlwaysCodes(s, opts);
      assert Codes(s, opts)[3..] == OptionalCodes(s, opts);
      var perfdata := BuildPerfdata(s, opts);
      var snips := NonEmpty(always + optional);
      r := Success(Report(Label(state) + ": " + Join(snips, ", ") + perfdata, state));
    }
  }

  /** The performance-data block of `check_ups`, built by successive reassignment. */
  method BuildPerfdata(s: Snapshot, opts: Options) returns (perfdata: string)
    requires Ready(s, opts)
    ensures perfdata == Perfdata(s, opts)
  {
    perfdata := "";
    if opts.showPerfdata {
      perfdata := " |";
      if ConsumptionBounded(opts) {
        perfdata := perfdata + (PerfEntry("consumption", s.consumption) + Bounds(opts.consumWarn.value, opts.consumCrit.value) + ";;");
      } else {
        perfdata := perfdata + PerfEntry("consumption", s.consumption);
      }
      perfdata := perfdata + PercentEntry("temperature", Whole(s.temp), opts.tempWarn, opts.tempCrit);
      perfdata := perfdata + PercentEntry("load", Whole(s.load), opts.loadWarn, opts.loadCrit);
      perfdata := perfdata + PercentEntry("battery_load", Whole(s.batt), opts.batWarn, opts.batCrit);
      if TimeChecked(opts) {
        perfdata := perfdata + (PerfEntry("battery_time", Whole(s.time.value)) + Bounds(opts.timeWarn.value, opts.timeCrit.value) + ";;");
      }
    }
  }

  /** One invocation: parse the status output into fresh globals, then check. */
  method Run(lines: seq<string>, opts: Options) returns (r: Result<Report, Error>)
    ensures r == Check(Absorb(map[], lines), opts, 0)
  {
    var ups := new UpsCheck();
    ups.LoadStatus(lines);
    r := ups.CheckUps(opts);
  }
}
