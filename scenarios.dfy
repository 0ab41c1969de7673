/**
 * Worked runs of the plugin on concrete status output, with the command
 * line's defaults unless stated otherwise.
 */
module Scenarios {
  import opened Wrappers
  import opened Text
  import opened Metrics
  import opened Thresholds
  import opened StatusParser
  import opened Report

  lemma KeyStripped()
    ensures Strip("LOADPCT ") == "LOADPCT"
  {
    StripSurrounded("", "LOADPCT", " ");
  }

  lemma ValueStripped()
    ensures Strip("  42.0 Percent") == "42.0 Percent"
  {
    StripSurrounded("  ", "42.0 Percent", "");
  }

  /** Spacing around the colon does not matter. */
  lemma ParsedLoadLine()
    ensures ParseLine("LOADPCT " + ":" + "  42.0 Percent") == Entry("LOADPCT", "42.0 Percent")
  {
    ParseLineAtFirstColon("LOADPCT ", "  42.0 Percent");
    KeyStripped();
    ValueStripped();
  }

  /** The unit after the number, and the fraction, are ignored. */
  lemma ParsedLoadReading()
    ensures ReadNumber(map["LOADPCT" := "42.0 Percent"], "LOADPCT") == Success(42)
  {
    ReadNumberDropsFraction(map["LOADPCT" := "42.0 Percent"], "LOADPCT", "42", "0 Percent");
  }

  lemma ShownReadings()
    ensures Show(Whole(30)) == "30.0" && Show(Whole(10)) == "10.0" && Show(Whole(100)) == "100.0"
  {
    ShowWhole(30);
    ShowWhole(10);
    ShowWhole(100);
  }

  lemma CalmFragments()
    ensures Fragment("temperature", Okay, Whole(30)) == "temperature okay (30.0)"
    ensures Fragment("load", Okay, Whole(10)) == "load okay (10.0)"
    ensures Fragment("battery load", Okay, Whole(100)) == "battery load okay (100.0)"
  {
    ShownReadings();
  }

  /** The calm run's fragments: all three always-run checks read okay. */
  lemma CalmSnippets()
    ensures NonEmpty(Snippets(Snapshot(30, 10, 100, None, 2300), Defaults))
         == ["temperature okay (30.0)", "load okay (10.0)", "battery load okay (100.0)"]
  {
    var s := Snapshot(30, 10, 100, None, 2300);
    assert TempVerdict(s, Defaults) == Okay;
    assert LoadVerdict(s, Defaults) == Okay;
    assert BattVerdict(s, Defaults) == Okay;
    assert !TimeChecked(Defaults) && !ConsumptionChecked(Defaults);
    ReportedFragments(s, Defaults);
    CalmFragments();
  }

  /** The calm run raises nothing and, with performance data off, appends nothing. */
  lemma CalmQuiet()
    ensures var s := Snapshot(30, 10, 100, None, 2300);
            RaiseAll(0, Codes(s, Defaults)) == 0 && Perfdata(s, Defaults) == ""
  {
    var s := Snapshot(30, 10, 100, None, 2300);
    assert Codes(s, Defaults) == [0, 0, 0];
    RaiseAllIsMax(0, [0, 0, 0]);
  }

  /** The composed pieces of the calm run, before the join is spelled out. */
  lemma CalmPieces()
    ensures var r := Compose(Snapshot(30, 10, 100, None, 2300), Defaults, 0);
            && r.code == 0
            && r.line == "OK" + ": " + Join(["temperature okay (30.0)", "load okay (10.0)", "battery load okay (100.0)"], ", ") + ""
  {
    CalmSnippets();
    CalmQuiet();
  }

  /** A status line of three fragments: the label, then the fragments separated by ", ". */
  lemma JoinedLine(head: string, a: string, b: string, c: string)
    ensures head + ": " + Join([a, b, c], ", ") + "" == head + ": " + a + ", " + b + ", " + c
  {
    assert Join([a], ", ") == a;
    JoinSnoc([a], b, ", ");
    assert [a] + [b] == [a, b];
    JoinSnoc([a, b], c, ", ");
    assert [a, b] + [c] == [a, b, c];
  }

  /** Everything within the default bounds: OK, exit code 0, no optional check. */
  lemma CalmCompose()
    ensures Compose(Snapshot(30, 10, 100, None, 2300), Defaults, 0)
         == Report("OK" + ": " + "temperature okay (30.0)" + ", " + "load okay (10.0)" + ", " + "battery load okay (100.0)", 0)
  {
    CalmPieces();
    JoinedLine("OK", "temperature okay (30.0)", "load okay (10.0)", "battery load okay (100.0)");
  }

  /** A warm UPS under heavy load with a low battery: temperature warns, load and battery are critical. */
  lemma StressedVerdicts()
    ensures var s := Snapshot(55, 85, 40, None, 2300);
            && TempVerdict(s, Defaults) == Warning
            && LoadVerdict(s, Defaults) == Critical
            && BattVerdict(s, Defaults) == Critical
  {
    assert AsReal(Whole(55)) == 55.0;
    assert AsReal(Whole(85)) == 85.0;
    assert AsReal(Whole(40)) == 40.0;
  }

  /** The worst verdict decides: CRITICAL, exit code 2. */
  lemma StressedRun()
    ensures Compose(Snapshot(55, 85, 40, None, 2300), Defaults, 0).code == 2
  {
    var s := Snapshot(55, 85, 40, None, 2300);
    StressedVerdicts();
    SeverityIsWorst(s, Defaults, 0);
    NeverUnknown(s, Defaults, 0);
  }

  /** A key without a colon, and a key and value with no surrounding white space. */
  predicate Clean(key: string, value: string) {
    && ':' !in key
    && (key == [] || (!IsSpace(key[0]) && !IsSpace(key[|key| - 1])))
    && (value == [] || (!IsSpace(value[0]) && !IsSpace(value[|value| - 1])))
  }

  /** A line "KEY: value" of a clean key and value parses to that key and value. */
  lemma ParsedEntry(key: string, value: string)
    requires Clean(key, value)
    ensures ParseLine(key + ": " + value) == Entry(key, value)
  {
    assert key + ": " + value == key + ":" + (" " + value);
    ParseLineAtFirstColon(key, " " + value);
    var none: string := [];
    assert AllSpace(none) && AllSpace(" ");
    StripSurrounded(none, key, none);
    assert none + key + none == key;
    StripSurrounded(" ", value, none);
    assert " " + value + none == " " + value;
  }

  /** Two lines absorbed: the second line's entry is stored on top of the first's. */
  lemma AbsorbTwo(m: map<string, string>, a: string, b: string)
    ensures Absorb(m, [a, b])
         == m[ParseLine(a).key := ParseLine(a).value][ParseLine(b).key := ParseLine(b).value]
  {
    var ea, eb := ParseLine(a), ParseLine(b);
    var entries := ParseAll([a, b]);
    assert entries == [ea, eb];
    assert entries[..1] == [ea] && [ea][..0] == [];
    assert StoreAll(m, [ea]) == m[ea.key := ea.value];
  }

  /** The two-line example parses to its two entries. */
  lemma TwoLinesParsed()
    ensures Absorb(map[], ["LOADPCT " + ":" + "  42.0 Percent", "BCHARGE" + ": " + "100.0 Percent"])
         == map["LOADPCT" := "42.0 Percent"]["BCHARGE" := "100.0 Percent"]
  {
    ParsedEntry("BCHARGE", "100.0 Percent");
    ParsedLoadLine();
    AbsorbTwo(map[], "LOADPCT " + ":" + "  42.0 Percent", "BCHARGE" + ": " + "100.0 Percent");
  }

  /** A stored "<digits>.<rest>" reads as the number the digits spell. */
  lemma ReadsWhole(info: map<string, string>, key: string, whole: string, rest: string, n: nat)
    requires key in info && info[key] == whole + "." + rest
    requires whole != [] && AllDigits(whole) && DigitsValue(whole) == n
    ensures ReadNumber(info, key) == Success(n)
  {
    ReadNumberDropsFraction(info, key, whole, rest);
  }

  lemma Reads42(info: map<string, string>, key: string)
    requires key in info && info[key] == "42.0 Percent"
    ensures ReadNumber(info, key) == Success(42)
  {
    assert "42"[..1] == "4" && "4"[..0] == "";
    ReadsWhole(info, key, "42", "0 Percent", 42);
  }

  lemma Reads100(info: map<string, string>, key: string)
    requires key in info && info[key] == "100.0 Percent"
    ensures ReadNumber(info, key) == Success(100)
  {
    assert "100"[..2] == "10" && "10"[..1] == "1" && "1"[..0] == "";
    ReadsWhole(info, key, "100", "0 Percent", 100);
  }

  lemma Reads30(info: map<string, string>, key: string)
    requires key in info && info[key] == "30.0 C"
    ensures ReadNumber(info, key) == Success(30)
  {
    assert "30"[..1] == "3" && "3"[..0] == "";
    ReadsWhole(info, key, "30", "0 C", 30);
  }

  lemma Reads10(info: map<string, string>, key: string)
    requires key in info && info[key] == "10.0 Percent"
    ensures ReadNumber(info, key) == Success(10)
  {
    assert "10"[..1] == "1" && "1"[..0] == "";
    ReadsWhole(info, key, "10", "0 Percent", 10);
  }

  /** A value with no fraction: "230 Volts" reads as 230. */
  lemma Reads230(info: map<string, string>, key: string)
    requires key in info && info[key] == "230 Volts"
    ensures ReadNumber(info, key) == Success(230)
  {
    var none: string := [];
    assert !HasDigit(none);
    assert info[key] == none + "230" + " Volts";
    assert "230"[..2] == "23" && "23"[..1] == "2" && "2"[..0] == "";
    ReadNumberOfSplit(info, key, none, "230", " Volts");
  }

  /** Both values of the two-line example read back as their whole numbers. */
  lemma TwoLinesRead(info: map<string, string>)
    requires info == map["LOADPCT" := "42.0 Percent"]["BCHARGE" := "100.0 Percent"]
    ensures ReadNumber(info, "LOADPCT") == Success(42)
    ensures ReadNumber(info, "BCHARGE") == Success(100)
  {
    Reads42(info, "LOADPCT");
    Reads100(info, "BCHARGE");
  }

  /** From status text to report: without an ITEMP line the check fails with KeyError for ITEMP. */
  lemma TwoLinesRun()
    ensures Check(Absorb(map[], ["LOADPCT " + ":" + "  42.0 Percent", "BCHARGE" + ": " + "100.0 Percent"]), Defaults, 0)
         == Failure(MissingKey("ITEMP"))
  {
    TwoLinesParsed();
    TemperatureRequired(map["LOADPCT" := "42.0 Percent"]["BCHARGE" := "100.0 Percent"], Defaults, 0);
  }

  /** One more line absorbed stores its entry on top of the earlier ones. */
  lemma AbsorbSnoc(m: map<string, string>, lines: seq<string>, x: string)
    ensures Absorb(m, lines + [x]) == Absorb(m, lines)[ParseLine(x).key := ParseLine(x).value]
  {
    var all := lines + [x];
    assert all[..|lines|] == lines && all[..|lines| + 1] == all;
    AbsorbStep(m, all, |lines|);
  }

  /** Four lines absorbed, each entry stored on top of the ones before. */
  lemma AbsorbFour(m: map<string, string>, a: string, b: string, c: string, d: string)
    ensures Absorb(m, [a, b, c, d])
         == m[ParseLine(a).key := ParseLine(a).value][ParseLine(b).key := ParseLine(b).value]
             [ParseLine(c).key := ParseLine(c).value][ParseLine(d).key := ParseLine(d).value]
  {
    AbsorbTwo(m, a, b);
    AbsorbSnoc(m, [a, b], c);
    assert [a, b] + [c] == [a, b, c];
    AbsorbSnoc(m, [a, b, c], d);
    assert [a, b, c] + [d] == [a, b, c, d];
  }

  /** Four "KEY: value" lines of clean keys and values store those entries in order. */
  lemma ParsedFour(k1: string, v1: string, k2: string, v2: string, k3: string, v3: string, k4: string, v4: string)
    requires Clean(k1, v1) && Clean(k2, v2) && Clean(k3, v3) && Clean(k4, v4)
    ensures Absorb(map[], [k1 + ": " + v1, k2 + ": " + v2, k3 + ": " + v3, k4 + ": " + v4])
         == map[k1 := v1][k2 := v2][k3 := v3][k4 := v4]
  {
    AbsorbFour(map[], k1 + ": " + v1, k2 + ": " + v2, k3 + ": " + v3, k4 + ": " + v4);
    ParsedEntry(k1, v1);
    ParsedEntry(k2, v2);
    ParsedEntry(k3, v3);
    ParsedEntry(k4, v4);
  }

  /** The status output of a calm UPS parses to its four entries. */
  lemma CalmLinesParsed()
    ensures Absorb(map[], ["ITEMP" + ": " + "30.0 C", "LOADPCT" + ": " + "10.0 Percent",
                           "BCHARGE" + ": " + "100.0 Percent", "NOMOUTV" + ": " + "230 Volts"])
         == map["ITEMP" := "30.0 C"]["LOADPCT" := "10.0 Percent"]["BCHARGE" := "100.0 Percent"]["NOMOUTV" := "230 Volts"]
  {
    ParsedFour("ITEMP", "30.0 C", "LOADPCT", "10.0 Percent", "BCHARGE", "100.0 Percent", "NOMOUTV", "230 Volts");
  }

  /** The readings of the calm output: 30, 10 and 100, no battery time, and 10% of 230 V, that is 23 W. */
  lemma CalmLinesRead(info: map<string, string>)
    requires info == map["ITEMP" := "30.0 C"]["LOADPCT" := "10.0 Percent"]["BCHARGE" := "100.0 Percent"]["NOMOUTV" := "230 Volts"]
    ensures Gather(info, Defaults) == Success(Snapshot(30, 10, 100, None, 2300))
  {
    Reads30(info, "ITEMP");
    Reads10(info, "LOADPCT");
    Reads100(info, "BCHARGE");
    Reads230(info, "NOMOUTV");
  }

  /** From status text to report: the calm output prints the OK line and exits 0. */
  lemma CalmLinesRun()
    ensures Check(Absorb(map[], ["ITEMP" + ": " + "30.0 C", "LOADPCT" + ": " + "10.0 Percent",
                                 "BCHARGE" + ": " + "100.0 Percent", "NOMOUTV" + ": " + "230 Volts"]), Defaults, 0)
         == Success(Report("OK" + ": " + "temperature okay (30.0)" + ", " + "load okay (10.0)" + ", " + "battery load okay (100.0)", 0))
  {
    CalmLinesParsed();
    CalmLinesRead(map["ITEMP" := "30.0 C"]["LOADPCT" := "10.0 Percent"]["BCHARGE" := "100.0 Percent"]["NOMOUTV" := "230 Volts"]);
    CalmCompose();
  }
}
