/**
 * Turning the `apcaccess` output into a key/value map (`get_apcaccess_data`):
 * each line is split at its first colon and both sides are stripped.
 */
module StatusParser {
  import opened Text

  datatype Entry = Entry(key: string, value: string)

  /**
   * One line as `get_apcaccess_data` reads it. Without a colon `find` gives -1,
   * so the key is the line less its last character and the value the whole line.
   */
  function ParseLine(line: string): (e: Entry)
    ensures |e.key| <= |line| && |e.value| <= |line|
  {
    var i := Find(line, ':');
    Entry(Strip(line[..SliceBound(line, i)]), Strip(line[SliceBound(line, i + 1)..]))
  }

  /** A line with a colon: the key is what precedes the first colon, the value all that follows, both stripped. */
  lemma ParseLineAtFirstColon(before: string, after: string)
    requires ':' !in before
    ensures ParseLine(before + ":" + after) == Entry(Strip(before), Strip(after))
  {
    var line := before + ":" + after;
    assert line[|before|] == ':';
    assert line[..|before|] == before;
    var i := Find(line, ':');
    assert i == |before|;
    assert line[i + 1..] == after;
  }

  function DropLast(s: string): string {
    if s == [] then [] else s[..|s| - 1]
  }

  /** A line without a colon is not rejected: it yields the quirky entry. */
  lemma ParseLineWithoutColon(line: string)
    requires ':' !in line
    ensures ParseLine(line) == Entry(Strip(DropLast(line)), Strip(line))
  {
    assert line[0..] == line;
  }

  /** The map after the entries have been stored into m one after the other. */
  function StoreAll(m: map<string, string>, entries: seq<Entry>): map<string, string> {
    if entries == [] then m
    else
      var e := entries[|entries| - 1];
      StoreAll(m, entries[..|entries| - 1])[e.key := e.value]
  }

  /** Every line parsed, in order. */
  function ParseAll(lines: seq<string>): (entries: seq<Entry>)
    ensures |entries| == |lines|
    ensures forall j :: 0 <= j < |lines| ==> entries[j] == ParseLine(lines[j])
  {
    if lines == [] then []
    else
      var front := lines[..|lines| - 1];
      var done := ParseAll(front);
      var last := ParseLine(lines[|lines| - 1]);
      assert forall j :: 0 <= j < |front| ==> lines[j] == front[j];
      done + [last]
  }

  /** The map after the lines have been stored into m one after the other. */
  function Absorb(m: map<string, string>, lines: seq<string>): map<string, string> {
    StoreAll(m, ParseAll(lines))
  }

  /** Absorbing one more line stores that line's entry on top. */
  lemma AbsorbStep(m: map<string, string>, lines: seq<string>, i: nat)
    requires i < |lines|
    ensures Absorb(m, lines[..i + 1]) == Absorb(m, lines[..i])[ParseLine(lines[i]).key := ParseLine(lines[i]).value]
  {
    var done := ParseAll(lines[..i]);
    var entries := ParseAll(lines[..i + 1]);
    assert entries == done + [ParseLine(lines[i])];
    assert entries[..|entries| - 1] == done;
  }

  /** The last entry that carries a key decides its value. */
  lemma {:induction false} LastEntryWins(m: map<string, string>, entries: seq<Entry>, i: nat)
    requires i < |entries|
    requires forall j :: i < j < |entries| ==> entries[j].key != entries[i].key
    ensures entries[i].key in StoreAll(m, entries)
    ensures StoreAll(m, entries)[entries[i].key] == entries[i].value
  {
    if i < |entries| - 1 {
      var front := entries[..|entries| - 1];
      assert forall j :: 0 <= j < |front| ==> front[j] == entries[j];
      LastEntryWins(m, front, i);
    }
  }

  /** A key no entry carries keeps whatever m had for it, present or absent. */
  lemma {:induction false} UntouchedByEntries(m: map<string, string>, entries: seq<Entry>, key: string)
    requires forall j :: 0 <= j < |entries| ==> entries[j].key != key
    ensures key in StoreAll(m, entries) <==> key in m
    ensures key in m ==> StoreAll(m, entries)[key] == m[key]
  {
    if entries != [] {
      var front := entries[..|entries| - 1];
      assert forall j :: 0 <= j < |front| ==> front[j] == entries[j];
      UntouchedByEntries(m, front, key);
    }
  }

  /** The keys afterwards are those of m and those the entries carry. */
  lemma {:induction false} StoreAllKeys(m: map<string, string>, entries: seq<Entry>)
    ensures StoreAll(m, entries).Keys == m.Keys + set j | 0 <= j < |entries| :: entries[j].key
  {
    if entries != [] {
      var front := entries[..|entries| - 1];
      StoreAllKeys(m, front);
      assert forall j :: 0 <= j < |front| ==> front[j] == entries[j];
      assert (set j | 0 <= j < |entries| :: entries[j].key)
          == (set j | 0 <= j < |front| :: front[j].key) + {entries[|entries| - 1].key};
    }
  }

  /** Parsing: the last line that carries a key decides its value. */
  lemma LastOccurrenceWins(m: map<string, string>, lines: seq<string>, i: nat)
    requires i < |lines|
    requires forall j :: i < j < |lines| ==> ParseLine(lines[j]).key != ParseLine(lines[i]).key
    ensures ParseLine(lines[i]).key in Absorb(m, lines)
    ensures Absorb(m, lines)[ParseLine(lines[i]).key] == ParseLine(lines[i]).value
  {
    LastEntryWins(m, ParseAll(lines), i);
  }

  /** Parsing: a key no line carries keeps whatever m had for it. */
  lemma UntouchedKey(m: map<string, string>, lines: seq<string>, key: string)
    requires forall j :: 0 <= j < |lines| ==> ParseLine(lines[j]).key != key
    ensures key in Absorb(m, lines) <==> key in m
    ensures key in m ==> Absorb(m, lines)[key] == m[key]
  {
    UntouchedByEntries(m, ParseAll(lines), key);
  }

  /** Parsing: the keys afterwards are those of m and those the lines carry. */
  lemma AbsorbKeys(m: map<string, string>, lines: seq<string>)
    ensures Absorb(m, lines).Keys == m.Keys + set j | 0 <= j < |lines| :: ParseLine(lines[j]).key
  {
    var entries := ParseAll(lines);
    StoreAllKeys(m, entries);
    assert (set j | 0 <= j < |entries| :: entries[j].key) == (set j | 0 <= j < |lines| :: ParseLine(lines[j]).key);
  }
}
