/**
 * What `check_ups` decides and prints: the readings it takes, the checks it
 * runs, the worst severity, the status line and the performance data.
 */
module Report {
  import opened Wrappers
  import opened Text
  import opened Metrics
  import opened Thresholds

  /** The parsed command line. */
  datatype Options = Options(
    showPerfdata: bool,
    tempWarn: int, tempCrit: int,
    loadWarn: int, loadCrit: int,
    batWarn: int, batCrit: int,
    timeWarn: Bound, timeCrit: Bound,
    consumWarn: Bound, consumCrit: Bound)

  /** The command line's defaults: temperature 50/60, load 50/80, battery 80/50, nothing else. */
  const Defaults: Options := Options(false, 50, 60, 50, 80, 80, 50, None, None, None, None)

  /** Python truthiness of an optional threshold: absent and 0 both count as not given. */
  predicate Given(b: Bound) {
    b.Some? && b.value != 0
  }

  /** `options.time_warn or options.time_crit`: the battery time is checked. */
  predicate TimeChecked(o: Options) {
    Given(o.timeWarn) || Given(o.timeCrit)
  }

  /** `options.time_warn and options.time_crit`: TIMELEFT is read. */
  predicate TimeRead(o: Options) {
    Given(o.timeWarn) && Given(o.timeCrit)
  }

  predicate ConsumptionChecked(o: Options) {
    Given(o.consumWarn) || Given(o.consumCrit)
  }

  /** Both consumption bounds given: only then does the performance data carry them. */
  predicate ConsumptionBounded(o: Options) {
    Given(o.consumWarn) && Given(o.consumCrit)
  }

  /** The readings `check_ups` takes: whole units, the consumption in hundredths of a watt. */
  datatype Snapshot = Snapshot(temp: nat, load: nat, batt: nat, time: Option<nat>, consumption: nat)

  /** TIMELEFT, read only when both time bounds are given. */
  function ReadTime(info: map<string, string>, o: Options): (r: Result<Option<nat>, Error>)
    ensures r.Success? ==> (r.value.Some? <==> TimeRead(o))
    ensures !TimeRead(o) ==> r == Success(None)
    ensures TimeRead(o) && ReadNumber(info, "TIMELEFT").Failure? ==> r == Failure(ReadNumber(info, "TIMELEFT").error)
    ensures TimeRead(o) && ReadNumber(info, "TIMELEFT").Success? ==> r == Success(Some(ReadNumber(info, "TIMELEFT").value))
  {
    if TimeRead(o) then
      var t :- ReadNumber(info, "TIMELEFT");
      Success(Some(t))
    else Success(None)
  }

  /**
   * The readings, in the order the source takes them; the first one that
   * cannot be read ends the run with its error.
   */
  function Gather(info: map<string, string>, o: Options): (r: Result<Snapshot, Error>)
    ensures ReadNumber(info, "ITEMP").Failure? ==> r == Failure(ReadNumber(info, "ITEMP").error)
    ensures r.Success? <==>
              && ReadNumber(info, "ITEMP").Success?
              && ReadNumber(info, "LOADPCT").Success?
              && ReadNumber(info, "BCHARGE").Success?
              && (TimeRead(o) ==> ReadNumber(info, "TIMELEFT").Success?)
              && ReadNumber(info, "NOMOUTV").Success?
    ensures ReadNumber(info, "ITEMP").Success? && ReadNumber(info, "LOADPCT").Failure? ==>
              r == Failure(ReadNumber(info, "LOADPCT").error)
    ensures ReadNumber(info, "ITEMP").Success? && ReadNumber(info, "LOADPCT").Success?
            && ReadNumber(info, "BCHARGE").Failure? ==>
              r == Failure(ReadNumber(info, "BCHARGE").error)
    ensures ReadNumber(info, "ITEMP").Success? && ReadNumber(info, "LOADPCT").Success?
            && ReadNumber(info, "BCHARGE").Success? && TimeRead(o) && ReadNumber(info, "TIMELEFT").Failure? ==>
              r == Failure(ReadNumber(info, "TIMELEFT").error)
    ensures ReadNumber(info, "ITEMP").Success? && ReadNumber(info, "LOADPCT").Success?
            && ReadNumber(info, "BCHARGE").Success? && (TimeRead(o) ==> ReadNumber(info, "TIMELEFT").Success?)
            && ReadNumber(info, "NOMOUTV").Failure? ==>
              r == Failure(ReadNumber(info, "NOMOUTV").error)
    ensures r.Success? ==> (r.value.time.Some? <==> TimeRead(o))
    ensures r.Success? ==>
              && r.value.temp == ReadNumber(info, "ITEMP").value
              && r.value.load == ReadNumber(info, "LOADPCT").value
              && r.value.batt == ReadNumber(info, "BCHARGE").value
              && (TimeRead(o) ==> r.value.time == Some(ReadNumber(info, "TIMELEFT").value))
              && r.value.consumption == CalcConsumption(info).value
  {
    var temp :- ReadNumber(info, "ITEMP");
    var load :- ReadNumber(info, "LOADPCT");
    var batt :- ReadNumber(info, "BCHARGE");
    var time :- ReadTime(info, o);
    var consumption :- CalcConsumption(info);
    Success(Snapshot(temp, load, batt, time, consumption))
  }

  /** The readings every check below needs: a time reading whenever the time is checked. */
  predicate Ready(s: Snapshot, o: Options) {
    TimeChecked(o) ==> TimeRead(o) && s.time.Some?
  }

  function TempVerdict(s: Snapshot, o: Options): Verdict {
    Evaluate(Whole(s.temp), Some(o.tempWarn), Some(o.tempCrit), false)
  }

  function LoadVerdict(s: Snapshot, o: Options): Verdict {
    Evaluate(Whole(s.load), Some(o.loadWarn), Some(o.loadCrit), false)
  }

  function BattVerdict(s: Snapshot, o: Options): Verdict {
    Evaluate(Whole(s.batt), Some(o.batWarn), Some(o.batCrit), true)
  }

  function TimeVerdict(s: Snapshot, o: Options): Verdict
    requires s.time.Some?
  {
    Evaluate(Whole(s.time.value), o.timeWarn, o.timeCrit, true)
  }

  function ConsumptionVerdict(s: Snapshot, o: Options): Verdict {
    Evaluate(s.consumption, o.consumWarn, o.consumCrit, false)
  }

  /** The fragments of the three checks that always run, in their order. */
  function AlwaysSnippets(s: Snapshot, o: Options): seq<string> {
    [ Fragment("temperature", TempVerdict(s, o), Whole(s.temp)),
      Fragment("load", LoadVerdict(s, o), Whole(s.load)),
      Fragment("battery load", BattVerdict(s, o), Whole(s.batt)) ]
  }

  /** The battery-time and consumption fragments; a check that does not run leaves "". */
  function OptionalSnippets(s: Snapshot, o: Options): seq<string>
    requires Ready(s, o)
  {
    [ if TimeChecked(o) then Fragment("battery time", TimeVerdict(s, o), Whole(s.time.value)) else "",
      if ConsumptionChecked(o) then Fragment("power consumption", ConsumptionVerdict(s, o), s.consumption) else "" ]
  }

  /** The five fragments in their fixed order. */
  function Snippets(s: Snapshot, o: Options): seq<string>
    requires Ready(s, o)
  {
    AlwaysSnippets(s, o) + OptionalSnippets(s, o)
  }

  /** The codes the always-run checks raise, in order. */
  function AlwaysCodes(s: Snapshot, o: Options): seq<int> {
    [TempVerdict(s, o).Code(), LoadVerdict(s, o).Code(), BattVerdict(s, o).Code()]
  }

  /** The codes the optional checks raise, in order; a check that does not run raises none. */
  function OptionalCodes(s: Snapshot, o: Options): seq<int>
    requires Ready(s, o)
  {
    (if TimeChecked(o) then [TimeVerdict(s, o).Code()] else [])
    + (if ConsumptionChecked(o) then [ConsumptionVerdict(s, o).Code()] else [])
  }

  /** The codes raised, in the order the checks run. */
  function Codes(s: Snapshot, o: Options): seq<int>
    requires Ready(s, o)
  {
    AlwaysCodes(s, o) + OptionalCodes(s, o)
  }

  /** " 'name'=value", the head of every performance-data entry. */
  function PerfEntry(name: string, v: nat): string {
    " '" + name + "'=" + Show(v)
  }

  /** ";warn;crit", the bounds of an entry, as `float()` renders them. */
  function Bounds(warn: int, crit: int): string {
    ";" + IntAsFloat(warn) + ";" + IntAsFloat(crit)
  }

  /** The consumption entry: its bounds only when both are given. */
  function ConsumptionEntry(s: Snapshot, o: Options): string {
    if ConsumptionBounded(o) then
      PerfEntry("consumption", s.consumption) + Bounds(o.consumWarn.value, o.consumCrit.value) + ";;"
    else PerfEntry("consumption", s.consumption)
  }

  /** An entry with its bounds and the range 0.0 to 100.0. */
  function PercentEntry(name: string, v: nat, warn: int, crit: int): string {
    PerfEntry(name, v) + Bounds(warn, crit) + ";0.0;100.0"
  }

  function TimeEntry(s: Snapshot, o: Options): string
    requires Ready(s, o)
  {
    if TimeChecked(o) then
      PerfEntry("battery_time", Whole(s.time.value)) + Bounds(o.timeWarn.value, o.timeCrit.value) + ";;"
    else ""
  }

  /** The performance data block, entry by entry in the source's order. */
  function Perfdata(s: Snapshot, o: Options): string
    requires Ready(s, o)
  {
    if !o.showPerfdata then ""
    else
      " |" + ConsumptionEntry(s, o)
      + PercentEntry("temperature", Whole(s.temp), o.tempWarn, o.tempCrit)
      + PercentEntry("load", Whole(s.load), o.loadWarn, o.loadCrit)
      + PercentEntry("battery_load", Whole(s.batt), o.batWarn, o.batCrit)
      + TimeEntry(s, o)
  }

  /** What the plugin prints, and the code it exits with. */
  datatype Report = Report(line: string, code: nat)

  function Compose(s: Snapshot, o: Options, state: nat): Report
    requires Ready(s, o)
  {
    var code := RaiseAll(state, Codes(s, o));
    Report(Label(code) + ": " + Join(NonEmpty(Snippets(s, o)), ", ") + Perfdata(s, o), code)
  }

  /**
   * `check_ups` on the parsed status map, starting from the given severity.
   * A battery-time bound given alone makes the source use a reading it never took.
   */
  function Check(info: map<string, string>, o: Options, state: nat): (r: Result<Report, Error>)
    ensures r.Success? <==> Gather(info, o).Success? && (TimeChecked(o) ==> TimeRead(o))
    ensures r.Failure? && Gather(info, o).Success? ==> r.error == TimeUnread
    ensures r.Failure? && Gather(info, o).Failure? ==> r.error == Gather(info, o).error
  {
    var s :- Gather(info, o);
    if TimeChecked(o) && !TimeRead(o) then Failure(TimeUnread) else Success(Compose(s, o, state))
  }

  /**
   * The exit code is the worst code any check raised, or the starting state
   * when none is worse; checks that do not run raise nothing.
   */
  lemma SeverityIsWorst(s: Snapshot, o: Options, state: nat)
    requires Ready(s, o)
    ensures var code := Compose(s, o, state).code;
            && code >= state
            && code >= TempVerdict(s, o).Code()
            && code >= LoadVerdict(s, o).Code()
            && code >= BattVerdict(s, o).Code()
            && (TimeChecked(o) ==> code >= TimeVerdict(s, o).Code())
            && (ConsumptionChecked(o) ==> code >= ConsumptionVerdict(s, o).Code())
            && (code == state || code in Codes(s, o))
  {
    var codes := Codes(s, o);
    RaiseAllIsMax(state, codes);
    assert codes[0] == TempVerdict(s, o).Code();
    assert codes[1] == LoadVerdict(s, o).Code();
    assert codes[2] == BattVerdict(s, o).Code();
    if TimeChecked(o) {
      assert codes[3] == TimeVerdict(s, o).Code();
    }
    if ConsumptionChecked(o) {
      assert codes[|codes| - 1] == ConsumptionVerdict(s, o).Code();
    }
  }

  /** Every check only raises 1 or 2, so a run started from a state of at most 2 never reports UNKNOWN. */
  lemma NeverUnknown(s: Snapshot, o: Options, state: nat)
    requires Ready(s, o)
    requires state <= 2
    ensures Compose(s, o, state).code <= 2
    ensures Label(Compose(s, o, state).code) != "UNKNOWN"
  {
    var codes := Codes(s, o);
    RaiseAllIsMax(state, codes);
    CodesAtMostTwo(s, o);
    var code := Compose(s, o, state).code;
    assert code == RaiseAll(state, codes);
    assert code <= 2;
  }

  lemma CodesAtMostTwo(s: Snapshot, o: Options)
    requires Ready(s, o)
    ensures forall i :: 0 <= i < |Codes(s, o)| ==> Codes(s, o)[i] <= 2
  {
    var always := AlwaysCodes(s, o);
    var optional := OptionalCodes(s, o);
    assert forall i :: 0 <= i < |always| ==> always[i] <= 2;
    assert forall i :: 0 <= i < |optional| ==> optional[i] <= 2;
  }

  /**
   * The status line lists temperature, load and battery always, then the
   * battery time and the consumption exactly when one of their bounds is given.
   */
  lemma ReportedFragments(s: Snapshot, o: Options)
    requires Ready(s, o)
    ensures NonEmpty(Snippets(s, o))
         == [ Fragment("temperature", TempVerdict(s, o), Whole(s.temp)),
              Fragment("load", LoadVerdict(s, o), Whole(s.load)),
              Fragment("battery load", BattVerdict(s, o), Whole(s.batt)) ]
            + (if TimeChecked(o) then [Fragment("battery time", TimeVerdict(s, o), Whole(s.time.value))] else [])
            + (if ConsumptionChecked(o) then [Fragment("power consumption", ConsumptionVerdict(s, o), s.consumption)] else [])
  {
    var always := AlwaysSnippets(s, o);
    var optional := OptionalSnippets(s, o);
    NonEmptyAppend(always, optional);
    NonEmptyKeepsAll(always);
    KeepTwo(optional[0], optional[1]);
    assert optional == [optional[0], optional[1]];
  }

  lemma KeepTwo(d: string, e: string)
    ensures NonEmpty([d, e]) == (if d == "" then [] else [d]) + (if e == "" then [] else [e])
  {
    assert [d, e][1..] == [e];
    assert [e][1..] == [];
  }

  /** The performance data is there exactly when asked for. */
  lemma PerfdataOnlyWhenAsked(s: Snapshot, o: Options)
    requires Ready(s, o)
    ensures Perfdata(s, o) == "" <==> !o.showPerfdata
  {
  }

  /**
   * The consumption entry, always the first, carries its bounds (a ';' right
   * after the value) exactly when both consumption bounds are given.
   */
  lemma ConsumptionEntryBounds(s: Snapshot, o: Options)
    requires Ready(s, o)
    requires o.showPerfdata
    ensures var head := " |" + PerfEntry("consumption", s.consumption);
            && |head| < |Perfdata(s, o)|
            && Perfdata(s, o)[..|head|] == head
            && (Perfdata(s, o)[|head|] == ';' <==> ConsumptionBounded(o))
  {
    var head := " |" + PerfEntry("consumption", s.consumption);
    var tail := if ConsumptionBounded(o) then Bounds(o.consumWarn.value, o.consumCrit.value) + ";;" else "";
    var e1 := PercentEntry("temperature", Whole(s.temp), o.tempWarn, o.tempCrit);
    var e2 := PercentEntry("load", Whole(s.load), o.loadWarn, o.loadCrit);
    var e3 := PercentEntry("battery_load", Whole(s.batt), o.batWarn, o.batCrit);
    var e4 := TimeEntry(s, o);
    assert ConsumptionEntry(s, o) == PerfEntry("consumption", s.consumption) + tail;
    assert Perfdata(s, o) == " |" + (PerfEntry("consumption", s.consumption) + tail) + e1 + e2 + e3 + e4;
    assert e1[0] == ' ';
    MarkAfterHead(" |", PerfEntry("consumption", s.consumption), tail, e1, e2, e3, e4);
  }

  lemma MarkAfterHead(pre: string, entry: string, tail: string, e1: string, e2: string, e3: string, e4: string)
    requires e1 != [] && e1[0] == ' '
    ensures var whole := pre + (entry + tail) + e1 + e2 + e3 + e4;
            && |pre + entry| < |whole|
            && whole[..|pre + entry|] == pre + entry
            && whole[|pre + entry|] == if tail == [] then ' ' else tail[0]
  {
    var whole := pre + (entry + tail) + e1 + e2 + e3 + e4;
    var head := pre + entry;
    assert forall i :: 0 <= i < |head| ==> whole[i] == head[i];
    assert whole[|head|] == (tail + e1)[0];
  }

  /**
   * Python 2 orders None below every number: a consumption warning bound given
   * alone makes every reading critical, a critical bound given alone makes none okay.
   */
  lemma LoneConsumptionBound(s: Snapshot, o: Options)
    ensures Given(o.consumWarn) && o.consumCrit.None? ==> ConsumptionVerdict(s, o) == Critical
    ensures o.consumWarn.None? && Given(o.consumCrit) ==> ConsumptionVerdict(s, o) != Okay
  {
  }

  /** Temperature is not optional: without an ITEMP line the run fails, whatever the options. */
  lemma TemperatureRequired(info: map<string, string>, o: Options, state: nat)
    requires "ITEMP" !in info
    ensures Check(info, o, state) == Failure(MissingKey("ITEMP"))
  {
  }
}
