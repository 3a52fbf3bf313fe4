/** Reading and merging `.env` files (scripts/wizard/writer.py, `read_env_file`
    and `write_env_file`). A missing file is None. */
module EnvFile {
  import opened Wrappers
  import opened Sequences
  import opened Text

  // ---- Lines ---------------------------------------------------------------------------

  /** The characters `str.splitlines` breaks at. */
  predicate IsBreak(c: char) {
    var n := c as int;
    10 <= n <= 13 || 0x1C <= n <= 0x1E || n == 0x85 || n == 0x2028 || n == 0x2029
  }

  predicate BreakFree(s: string) {
    forall i :: 0 <= i < |s| ==> !IsBreak(s[i])
  }

  function FirstBreak(s: string): (n: nat)
    ensures n <= |s|
  {
    if s == "" || IsBreak(s[0]) then 0 else FirstBreak(s[1..]) + 1
  }

  lemma {:induction false} FirstBreakFacts(s: string)
    ensures var n := FirstBreak(s); BreakFree(s[..n]) && (n < |s| ==> IsBreak(s[n]))
  {
    if s != "" && !IsBreak(s[0]) {
      FirstBreakFacts(s[1..]);
      var n := FirstBreak(s);
      assert s[..n] == [s[0]] + s[1..][..n - 1];
    }
  }

  /** `text.splitlines()`, with "\r\n" as one break. */
  function SplitLines(text: string): (lines: seq<string>)
    decreases |text|
  {
    if text == "" then []
    else
      var n := FirstBreak(text);
      if n == |text| then [text]
      else if text[n] == '\r' && n + 1 < |text| && text[n + 1] == '\n' then [text[..n]] + SplitLines(text[n + 2..])
      else [text[..n]] + SplitLines(text[n + 1..])
  }

  /** Each line followed by a newline. */
  function Flat(lines: seq<string>): string {
    if lines == [] then "" else lines[0] + "\n" + Flat(lines[1..])
  }

  /** `"\n".join(lines) + "\n"` */
  function Written(lines: seq<string>): string {
    if lines == [] then "\n" else Flat(lines)
  }

  /** Lines hold no line breaks. */
  predicate Lines(lines: seq<string>) {
    forall i :: 0 <= i < |lines| ==> BreakFree(lines[i])
  }

  lemma {:induction false} SplitGivesLines(text: string)
    ensures Lines(SplitLines(text))
    decreases |text|
  {
    if text != "" {
      FirstBreakFacts(text);
      var n := FirstBreak(text);
      if n == |text| {
        assert text[..n] == text;
      } else if text[n] == '\r' && n + 1 < |text| && text[n + 1] == '\n' {
        SplitGivesLines(text[n + 2..]);
      } else {
        SplitGivesLines(text[n + 1..]);
      }
    }
  }

  lemma {:induction false} FirstBreakOf(line: string, rest: string)
    requires BreakFree(line)
    ensures FirstBreak(line + "\n" + rest) == |line|
  {
    var s := line + "\n" + rest;
    if line == "" {
      assert s[0] == '\n';
    } else {
      assert s[0] == line[0];
      assert s[1..] == line[1..] + "\n" + rest;
      FirstBreakOf(line[1..], rest);
    }
  }

  /** Splitting undoes joining. */
  lemma {:induction false} SplitFlat(lines: seq<string>)
    requires Lines(lines)
    ensures SplitLines(Flat(lines)) == lines
  {
    if lines != [] {
      var text := Flat(lines);
      FirstBreakOf(lines[0], Flat(lines[1..]));
      assert text[..|lines[0]|] == lines[0];
      assert text[|lines[0]|] == '\n';
      assert text[|lines[0]| + 1..] == Flat(lines[1..]);
      SplitFlat(lines[1..]);
    }
  }

  /** A character breaks a line in two exactly when it is one of these ten. */
  lemma BreaksAt(c: char)
    ensures SplitLines("a" + [c] + "b") == ["a", "b"] <==>
              c in "\n\r\U{B}\U{C}\U{1C}\U{1D}\U{1E}\U{85}\U{2028}\U{2029}"
    ensures SplitLines("a" + [c] + "b") == ["a", "b"] || SplitLines("a" + [c] + "b") == ["a" + [c] + "b"]
  {
    var s := "a" + [c] + "b";
    assert s[1..] == [c] + "b" && s[2..] == "b" && "b"[1..] == "";
    assert FirstBreak("b") == 1 && SplitLines("b") == ["b"];
    assert FirstBreak([c] + "b") == if IsBreak(c) then 0 else 2 by {
      assert ([c] + "b")[1..] == "b";
    }
    assert FirstBreak(s) == if IsBreak(c) then 1 else 3;
    assert s[..1] == "a";
  }

  // ---- Assignments -----------------------------------------------------------------------

  /** Position of the first '=', or `|s|`. */
  function Equals(s: string): (n: nat)
    ensures n <= |s|
  {
    if s == "" || s[0] == '=' then 0 else 1 + Equals(s[1..])
  }

  lemma {:induction false} EqualsFacts(s: string)
    ensures '=' !in s[..Equals(s)]
  {
    if s != "" && s[0] != '=' {
      EqualsFacts(s[1..]);
      assert s[..Equals(s)] == [s[0]] + s[1..][..Equals(s) - 1];
    }
  }

  lemma {:induction false} EqualsOf(key: string, value: string)
    requires '=' !in key
    ensures Equals(key + "=" + value) == |key|
  {
    var s := key + "=" + value;
    if key != "" {
      assert s[0] == key[0];
      assert s[1..] == key[1..] + "=" + value;
      EqualsOf(key[1..], value);
    }
  }

  /** The key and value of a stripped line that assigns one. */
  function Parts(s: string): Option<(string, string)> {
    if s == "" || s[0] == '#' || Equals(s) == |s| then None
    else Some((Strip(s[..Equals(s)]), Strip(s[Equals(s) + 1..])))
  }

  /** The key and value of a line that assigns one. */
  function Assignment(line: string): Option<(string, string)> {
    Parts(Strip(line))
  }

  lemma {:induction false} EqualsIs(s: string, a: string, b: string)
    requires s == a + "=" + b && '=' !in a
    ensures Equals(s) == |a| && s[..|a|] == a && s[|a| + 1..] == b
  {
    EqualsOf(a, b);
  }

  lemma {:induction false} NoEquals(s: string)
    ensures Equals(s) == |s| <==> '=' !in s
  {
    if s != "" && s[0] != '=' {
      NoEquals(s[1..]);
      assert s == [s[0]] + s[1..];
    }
  }

  /** A line assigns what is around its first '=', stripped. */
  lemma LineAssigns(line: string, a: string, b: string)
    requires Strip(line) == a + "=" + b && '=' !in a && (a == "" || a[0] != '#')
    ensures Assignment(line) == Some((Strip(a), Strip(b)))
  {
    var s := Strip(line);
    EqualsIs(s, a, b);
    assert s[0] == if a == "" then '=' else a[0];
  }

  /** Blank lines, comments and lines without '=' assign nothing, and only they. */
  lemma NothingAssignedIff(line: string)
    ensures Assignment(line) == None <==> Strip(line) == "" || Strip(line)[0] == '#' || '=' !in Strip(line)
  {
    NoEquals(Strip(line));
  }

  /** A pair that a line can carry faithfully. */
  ghost predicate WellFormed(key: string, value: string) {
    && Trimmed(key) && Trimmed(value) && BreakFree(key) && BreakFree(value)
    && '=' !in key && (key != "" ==> key[0] != '#')
  }

  function LineOf(key: string, value: string): string {
    key + "=" + value
  }

  lemma LineParts(key: string, value: string)
    requires '=' !in key
    ensures var s := LineOf(key, value); Equals(s) == |key| && s[..|key|] == key && s[|key| + 1..] == value
  {
    EqualsOf(key, value);
  }

  lemma LineIsTrimmed(key: string, value: string)
    requires WellFormed(key, value)
    ensures var s := LineOf(key, value); s != "" && Trimmed(s) && BreakFree(s) && s[0] != '#'
  {
    var s := LineOf(key, value);
    assert s[0] == if key == "" then '=' else key[0];
    assert s[|s| - 1] == if value == "" then '=' else value[|value| - 1];
    forall i | 0 <= i < |s|
      ensures !IsBreak(s[i])
    {
      assert s[i] == if i < |key| then key[i] else if i == |key| then '=' else value[i - |key| - 1];
    }
  }

  lemma PartsOfLine(key: string, value: string)
    requires WellFormed(key, value)
    ensures Parts(LineOf(key, value)) == Some((key, value))
  {
    LineIsTrimmed(key, value);
    LineParts(key, value);
    StripIsIdentity(key, IsSpace);
    StripIsIdentity(value, IsSpace);
    assert Strip(key) == key && Strip(value) == value;
  }

  lemma LineOfPair(key: string, value: string)
    requires WellFormed(key, value)
    ensures Assignment(LineOf(key, value)) == Some((key, value)) && BreakFree(LineOf(key, value))
  {
    LineIsTrimmed(key, value);
    PartsOfLine(key, value);
    StripIsIdentity(LineOf(key, value), IsSpace);
  }

  lemma StripKeepsBreakFree(s: string)
    requires BreakFree(s)
    ensures BreakFree(Strip(s))
  {
    var a, b := StripFacts(s);
    SliceKeepsBreakFree(s, a, b);
  }

  lemma SliceKeepsBreakFree(s: string, a: nat, b: nat)
    requires BreakFree(s) && a <= b <= |s|
    ensures BreakFree(s[a..b])
  {
    assert forall i :: 0 <= i < b - a ==> s[a..b][i] == s[a + i];
  }

  /** A piece of a trimmed line in front of '=' keeps its first character when stripped. */
  lemma KeyOfFront(s: string, front: string)
    requires front <= s && Trimmed(s) && s != "" && s[0] != '#' && '=' !in front
    ensures var key := Strip(front); '=' !in key && (key != "" ==> key[0] != '#')
  {
    var a, b := StripFacts(front);
    if front != "" {
      assert front[0] == s[0];
      assert StripLeft(front, IsSpace) == front;
      StripRightFacts(front, IsSpace);
    }
    assert forall c :: c in front[a..b] ==> c in front;
  }

  /** Whatever a line assigns is well formed. */
  lemma PartsAreWellFormed(s: string)
    requires BreakFree(s) && Trimmed(s) && Parts(s).Some?
    ensures WellFormed(Parts(s).value.0, Parts(s).value.1)
  {
    var n := Equals(s);
    var front, back := s[..n], s[n + 1..];
    EqualsFacts(s);
    KeyOfFront(s, front);
    SliceKeepsBreakFree(s, 0, n);
    SliceKeepsBreakFree(s, n + 1, |s|);
    var _, _ := StripFacts(front);
    var _, _ := StripFacts(back);
    StripKeepsBreakFree(front);
    StripKeepsBreakFree(back);
  }

  lemma AssignmentIsWellFormed(line: string)
    requires BreakFree(line) && Assignment(line).Some?
    ensures WellFormed(Assignment(line).value.0, Assignment(line).value.1)
  {
    var _, _ := StripFacts(line);
    StripKeepsBreakFree(line);
    PartsAreWellFormed(Strip(line));
  }

  // ---- Reading -----------------------------------------------------------------------------

  /** The map read from lines: later assignments win. */
  function ReadLines(lines: seq<string>): map<string, string> {
    if lines == [] then map[]
    else
      var before := ReadLines(lines[..|lines| - 1]);
      var pair := Assignment(lines[|lines| - 1]);
      if pair.None? then before else before[pair.value.0 := pair.value.1]
  }

  function LinesOf(file: Option<string>): seq<string> {
    if file.None? then [] else SplitLines(file.value)
  }

  method ReadEnvFile(file: Option<string>) returns (result: map<string, string>)
    ensures result == ReadLines(LinesOf(file))
  {
    result := map[];
    var lines := LinesOf(file);
    for i := 0 to |lines|
      invariant result == ReadLines(lines[..i])
    {
      assert lines[..i + 1][..i] == lines[..i];
      var pair := Assignment(lines[i]);
      if pair.Some? {
        result := result[pair.value.0 := pair.value.1];
      }
    }
    assert lines[..|lines|] == lines;
  }

  // ---- Merging -------------------------------------------------------------------------------

  /** The pairs to write, in order, with distinct keys. */
  type Pairs = seq<(string, string)>

  predicate DistinctKeys(pairs: Pairs) {
    DistinctBy(pairs, (p: (string, string)) => p.0)
  }

  function AsMap(pairs: Pairs): map<string, string> {
    if pairs == [] then map[] else AsMap(pairs[..|pairs| - 1])[pairs[|pairs| - 1].0 := pairs[|pairs| - 1].1]
  }

  /** One line of the file after the merge. */
  function Merged(line: string, wanted: map<string, string>): string {
    var pair := Assignment(line);
    if pair.Some? && pair.value.0 in wanted then LineOf(pair.value.0, wanted[pair.value.0]) else line
  }

  function MergedLines(lines: seq<string>, wanted: map<string, string>): (merged: seq<string>)
    ensures |merged| == |lines|
  {
    if lines == [] then []
    else MergedLines(lines[..|lines| - 1], wanted) + [Merged(lines[|lines| - 1], wanted)]
  }

  /** Lines stay where they are; only assignments of wanted keys are rewritten. */
  lemma {:induction false} MergedAt(lines: seq<string>, wanted: map<string, string>, i: nat)
    requires i < |lines|
    ensures MergedLines(lines, wanted)[i] == Merged(lines[i], wanted)
  {
    if i < |lines| - 1 {
      MergedAt(lines[..|lines| - 1], wanted, i);
    }
  }

  /** The pairs whose key the file does not assign, as lines. */
  function NewLines(pairs: Pairs, updated: set<string>): seq<string> {
    if pairs == [] then []
    else
      var before := NewLines(pairs[..|pairs| - 1], updated);
      var (key, value) := pairs[|pairs| - 1];
      if key in updated then before else before + [LineOf(key, value)]
  }

  function AllLines(lines: seq<string>, pairs: Pairs): seq<string> {
    MergedLines(lines, AsMap(pairs)) + NewLines(pairs, ReadLines(lines).Keys)
  }

  lemma Snoc(lines: seq<string>, wanted: map<string, string>, i: nat)
    requires i < |lines|
    ensures MergedLines(lines[..i + 1], wanted) == MergedLines(lines[..i], wanted) + [Merged(lines[i], wanted)]
    ensures var pair := Assignment(lines[i]);
            ReadLines(lines[..i + 1]) == if pair.None? then ReadLines(lines[..i]) else ReadLines(lines[..i])[pair.value.0 := pair.value.1]
  {
    assert lines[..i + 1][..i] == lines[..i];
  }

  /** The first loop of the merge: known keys are rewritten where they stand. */
  method MergeExisting(lines: seq<string>, wanted: map<string, string>) returns (newLines: seq<string>, updated: set<string>)
    ensures newLines == MergedLines(lines, wanted)
    ensures updated == ReadLines(lines).Keys * wanted.Keys
  {
    updated, newLines := {}, [];
    for i := 0 to |lines|
      invariant newLines == MergedLines(lines[..i], wanted)
      invariant updated == ReadLines(lines[..i]).Keys * wanted.Keys
    {
      Snoc(lines, wanted, i);
      var pair := Assignment(lines[i]);
      if pair.Some? && pair.value.0 in wanted {
        newLines := newLines + [LineOf(pair.value.0, wanted[pair.value.0])];
        updated := updated + {pair.value.0};
      } else {
        newLines := newLines + [lines[i]];
      }
    }
    assert lines[..|lines|] == lines;
  }

  /** The second loop: the other pairs are appended. */
  method AppendNew(pairs: Pairs, updated: set<string>) returns (added: seq<string>)
    ensures added == NewLines(pairs, updated)
  {
    added := [];
    for i := 0 to |pairs|
      invariant added == NewLines(pairs[..i], updated)
    {
      assert pairs[..i + 1][..i] == pairs[..i];
      if pairs[i].0 !in updated {
        added := added + [LineOf(pairs[i].0, pairs[i].1)];
      }
    }
    assert pairs[..|pairs|] == pairs;
  }

  method WriteEnvFile(file: Option<string>, pairs: Pairs) returns (text: string)
    requires DistinctKeys(pairs)
    ensures text == Written(AllLines(LinesOf(file), pairs))
  {
    var wanted := AsMap(pairs);
    var lines := LinesOf(file);
    var merged, updated := MergeExisting(lines, wanted);
    var added := AppendNew(pairs, updated);
    forall i | 0 <= i < |pairs|
      ensures pairs[i].0 in wanted
    {
      PairInMap(pairs, i);
    }
    NewLinesSameSet(pairs, updated, ReadLines(lines).Keys);
    text := Written(merged + added);
  }

  lemma {:induction false} NewLinesSameSet(pairs: Pairs, a: set<string>, b: set<string>)
    requires forall i :: 0 <= i < |pairs| ==> (pairs[i].0 in a <==> pairs[i].0 in b)
    ensures NewLines(pairs, a) == NewLines(pairs, b)
  {
    if pairs != [] {
      NewLinesSameSet(pairs[..|pairs| - 1], a, b);
    }
  }

  /** Pairs are appended in their order: the line of a new pair comes right after
      those of the pairs before it. */
  lemma {:induction false} AppendedInOrder(pairs: Pairs, updated: set<string>, i: nat)
    requires i < |pairs|
    ensures NewLines(pairs[..i], updated) + (if pairs[i].0 in updated then [] else [LineOf(pairs[i].0, pairs[i].1)])
            <= NewLines(pairs, updated)
  {
    if i < |pairs| - 1 {
      AppendedInOrder(pairs[..|pairs| - 1], updated, i);
      assert pairs[..|pairs| - 1][..i] == pairs[..i];
    }
  }

  lemma {:induction false} PairInMap(pairs: Pairs, i: nat)
    requires DistinctKeys(pairs) && i < |pairs|
    ensures pairs[i].0 in AsMap(pairs) && AsMap(pairs)[pairs[i].0] == pairs[i].1
  {
    if i < |pairs| - 1 {
      PairInMap(pairs[..|pairs| - 1], i);
    }
  }

  lemma {:induction false} MapHasPair(pairs: Pairs, key: string) returns (i: nat)
    requires key in AsMap(pairs)
    ensures i < |pairs| && pairs[i] == (key, AsMap(pairs)[key])
  {
    if pairs[|pairs| - 1].0 == key {
      i := |pairs| - 1;
    } else {
      i := MapHasPair(pairs[..|pairs| - 1], key);
    }
  }

  // ---- What a write promises -------------------------------------------------------------------

  ghost predicate AllWellFormed(pairs: Pairs) {
    forall i :: 0 <= i < |pairs| ==> WellFormed(pairs[i].0, pairs[i].1)
  }

  ghost predicate WantedWellFormed(wanted: map<string, string>) {
    forall k :: k in wanted ==> WellFormed(k, wanted[k])
  }

  lemma MapIsWellFormed(pairs: Pairs)
    requires AllWellFormed(pairs)
    ensures WantedWellFormed(AsMap(pairs))
  {
    var wanted := AsMap(pairs);
    forall k | k in wanted
      ensures WellFormed(k, wanted[k])
    {
      var i := MapHasPair(pairs, k);
      assert WellFormed(pairs[i].0, pairs[i].1);
    }
  }

  /** A merged line assigns the wanted value to the key it assigned before. */
  lemma MergedAssigns(line: string, wanted: map<string, string>)
    requires WantedWellFormed(wanted)
    ensures var pair := Assignment(line);
            Assignment(Merged(line, wanted))
            == if pair.Some? && pair.value.0 in wanted then Some((pair.value.0, wanted[pair.value.0])) else pair
  {
    var pair := Assignment(line);
    if pair.Some? && pair.value.0 in wanted {
      LineOfPair(pair.value.0, wanted[pair.value.0]);
    }
  }

  /** The part of `old` that `wanted` overrides in place. */
  function Overridden(before: map<string, string>, wanted: map<string, string>): map<string, string> {
    map k | k in before :: if k in wanted then wanted[k] else before[k]
  }

  lemma ReadSnoc(lines: seq<string>, line: string)
    ensures var pair := Assignment(line);
            ReadLines(lines + [line]) == if pair.None? then ReadLines(lines) else ReadLines(lines)[pair.value.0 := pair.value.1]
  {
    assert (lines + [line])[..|lines|] == lines;
  }

  lemma OverriddenSnoc(before: map<string, string>, wanted: map<string, string>, key: string, value: string)
    ensures Overridden(before[key := value], wanted)
            == Overridden(before, wanted)[key := if key in wanted then wanted[key] else value]
  {
  }

  lemma {:induction false} ReadMerged(lines: seq<string>, wanted: map<string, string>)
    requires WantedWellFormed(wanted)
    ensures ReadLines(MergedLines(lines, wanted)) == Overridden(ReadLines(lines), wanted)
  {
    if lines != [] {
      var front, last := lines[..|lines| - 1], lines[|lines| - 1];
      ReadMerged(front, wanted);
      assert lines == front + [last];
      ReadOneMore(front, last, MergedLines(front, wanted), wanted);
    }
  }

  /** One more line read from either side. */
  lemma ReadOneMore(front: seq<string>, last: string, merged: seq<string>, wanted: map<string, string>)
    requires WantedWellFormed(wanted) && ReadLines(merged) == Overridden(ReadLines(front), wanted)
    ensures ReadLines(merged + [Merged(last, wanted)]) == Overridden(ReadLines(front + [last]), wanted)
  {
    MergedAssigns(last, wanted);
    ReadSnoc(front, last);
    ReadSnoc(merged, Merged(last, wanted));
    var pair := Assignment(last);
    if pair.Some? {
      OverriddenSnoc(ReadLines(front), wanted, pair.value.0, pair.value.1);
    }
  }

  lemma MinusSnoc(before: map<string, string>, m: map<string, string>, updated: set<string>, key: string, value: string)
    ensures before + (m[key := value] - updated)
            == if key in updated then before + (m - updated) else (before + (m - updated))[key := value]
  {
  }

  /** Appending the pairs whose keys are not in `updated` adds exactly those pairs. */
  lemma {:induction false} ReadAppended(lines: seq<string>, pairs: Pairs, updated: set<string>)
    requires AllWellFormed(pairs)
    ensures ReadLines(lines + NewLines(pairs, updated)) == ReadLines(lines) + (AsMap(pairs) - updated)
  {
    if pairs == [] {
      assert lines + [] == lines;
    } else {
      var front := pairs[..|pairs| - 1];
      var (key, value) := pairs[|pairs| - 1];
      ReadAppended(lines, front, updated);
      MinusSnoc(ReadLines(lines), AsMap(front), updated, key, value);
      if key !in updated {
        assert WellFormed(pairs[|pairs| - 1].0, pairs[|pairs| - 1].1);
        LineOfPair(key, value);
        assert lines + NewLines(pairs, updated) == (lines + NewLines(front, updated)) + [LineOf(key, value)];
        ReadSnoc(lines + NewLines(front, updated), LineOf(key, value));
      }
    }
  }

  lemma OverrideThenAdd(before: map<string, string>, wanted: map<string, string>)
    ensures Overridden(before, wanted) + (wanted - before.Keys) == before + wanted
  {
  }

  lemma ReadAllLines(lines: seq<string>, pairs: Pairs)
    requires AllWellFormed(pairs)
    ensures ReadLines(AllLines(lines, pairs)) == ReadLines(lines) + AsMap(pairs)
  {
    var wanted := AsMap(pairs);
    MapIsWellFormed(pairs);
    ReadMerged(lines, wanted);
    ReadAppended(MergedLines(lines, wanted), pairs, ReadLines(lines).Keys);
    OverrideThenAdd(ReadLines(lines), wanted);
  }

  lemma MergedIsLines(lines: seq<string>, wanted: map<string, string>)
    requires Lines(lines) && WantedWellFormed(wanted)
    ensures Lines(MergedLines(lines, wanted))
  {
    forall i | 0 <= i < |lines|
      ensures BreakFree(MergedLines(lines, wanted)[i])
    {
      MergedAt(lines, wanted, i);
      var pair := Assignment(lines[i]);
      if pair.Some? && pair.value.0 in wanted {
        LineOfPair(pair.value.0, wanted[pair.value.0]);
      }
    }
  }

  lemma {:induction false} NewIsLines(pairs: Pairs, updated: set<string>)
    requires AllWellFormed(pairs)
    ensures Lines(NewLines(pairs, updated))
  {
    if pairs != [] {
      NewIsLines(pairs[..|pairs| - 1], updated);
      assert WellFormed(pairs[|pairs| - 1].0, pairs[|pairs| - 1].1);
      LineOfPair(pairs[|pairs| - 1].0, pairs[|pairs| - 1].1);
    }
  }

  lemma AllLinesAreLines(file: Option<string>, pairs: Pairs)
    requires AllWellFormed(pairs)
    ensures Lines(AllLines(LinesOf(file), pairs))
  {
    if file.Some? {
      SplitGivesLines(file.value);
    }
    MapIsWellFormed(pairs);
    MergedIsLines(LinesOf(file), AsMap(pairs));
    NewIsLines(pairs, ReadLines(LinesOf(file)).Keys);
  }

  /** What is read back from written lines. */
  lemma ReadWritten(lines: seq<string>)
    requires Lines(lines)
    ensures ReadLines(SplitLines(Written(lines))) == ReadLines(lines)
  {
    if lines == [] {
      SplitFlat([""]);
      assert Flat([""]) == "\n";
      assert Assignment("").None?;
      assert [""][..0] == [];
      assert ReadLines([""]) == map[];
    } else {
      SplitFlat(lines);
    }
  }

  lemma {:induction false} ReadIsWellFormed(lines: seq<string>)
    requires Lines(lines)
    ensures WantedWellFormed(ReadLines(lines))
  {
    if lines != [] {
      ReadIsWellFormed(lines[..|lines| - 1]);
      if Assignment(lines[|lines| - 1]).Some? {
        AssignmentIsWellFormed(lines[|lines| - 1]);
      }
    }
  }

  /** For every existing file, reading after writing gives the old map overridden
      by the pairs exactly when all the pairs are well formed. */
  lemma ReadAfterWriteIff(file: Option<string>, pairs: Pairs)
    requires DistinctKeys(pairs)
    ensures ReadLines(SplitLines(Written(AllLines(LinesOf(file), pairs)))) == ReadLines(LinesOf(file)) + AsMap(pairs)
            <==> AllWellFormed(pairs)
  {
    var lines := AllLines(LinesOf(file), pairs);
    if AllWellFormed(pairs) {
      AllLinesAreLines(file, pairs);
      ReadWritten(lines);
      ReadAllLines(LinesOf(file), pairs);
    } else if ReadLines(SplitLines(Written(lines))) == ReadLines(LinesOf(file)) + AsMap(pairs) {
      SplitGivesLines(Written(lines));
      ReadIsWellFormed(SplitLines(Written(lines)));
      forall i | 0 <= i < |pairs|
        ensures WellFormed(pairs[i].0, pairs[i].1)
      {
        PairInMap(pairs, i);
      }
      assert false;
    }
  }

  /** Comment, blank and unrelated lines survive in place, and every line that
      assigned a wanted key assigns the wanted value. */
  lemma LinesSurvive(lines: seq<string>, pairs: Pairs, i: nat)
    requires i < |lines|
    ensures i < |AllLines(lines, pairs)|
    ensures var pair := Assignment(lines[i]);
            AllLines(lines, pairs)[i]
            == if pair.Some? && pair.value.0 in AsMap(pairs) then LineOf(pair.value.0, AsMap(pairs)[pair.value.0]) else lines[i]
  {
    MergedAt(lines, AsMap(pairs), i);
  }

  lemma MergeIsStable(lines: seq<string>, wanted: map<string, string>)
    requires forall i :: 0 <= i < |lines| ==> Merged(lines[i], wanted) == lines[i]
    ensures MergedLines(lines, wanted) == lines
  {
    forall i | 0 <= i < |lines|
      ensures MergedLines(lines, wanted)[i] == lines[i]
    {
      MergedAt(lines, wanted, i);
    }
  }

  lemma MergedIsStable(line: string, wanted: map<string, string>)
    requires WantedWellFormed(wanted)
    ensures Merged(Merged(line, wanted), wanted) == Merged(line, wanted)
  {
    MergedAssigns(line, wanted);
  }

  lemma {:induction false} NewLinesStable(pairs: Pairs, updated: set<string>, wanted: map<string, string>, j: nat)
    requires AllWellFormed(pairs) && WantedWellFormed(wanted) && j < |NewLines(pairs, updated)|
    requires forall i :: 0 <= i < |pairs| ==> pairs[i].0 in wanted && wanted[pairs[i].0] == pairs[i].1
    ensures Merged(NewLines(pairs, updated)[j], wanted) == NewLines(pairs, updated)[j]
  {
    var n := |pairs| - 1;
    var before := NewLines(pairs[..n], updated);
    if j < |before| {
      NewLinesStable(pairs[..n], updated, wanted, j);
    } else {
      assert WellFormed(pairs[n].0, pairs[n].1);
      LineOfPair(pairs[n].0, pairs[n].1);
    }
  }

  lemma {:induction false} NothingNew(pairs: Pairs, updated: set<string>)
    requires forall i :: 0 <= i < |pairs| ==> pairs[i].0 in updated
    ensures NewLines(pairs, updated) == []
  {
    if pairs != [] {
      NothingNew(pairs[..|pairs| - 1], updated);
    }
  }

  lemma AllLinesStable(lines: seq<string>, pairs: Pairs)
    requires DistinctKeys(pairs) && AllWellFormed(pairs)
    ensures AllLines(AllLines(lines, pairs), pairs) == AllLines(lines, pairs)
  {
    var wanted, updated := AsMap(pairs), ReadLines(lines).Keys;
    var all := AllLines(lines, pairs);
    MapIsWellFormed(pairs);
    forall i | 0 <= i < |pairs|
      ensures pairs[i].0 in wanted && wanted[pairs[i].0] == pairs[i].1
    {
      PairInMap(pairs, i);
    }
    forall i | 0 <= i < |all|
      ensures Merged(all[i], wanted) == all[i]
    {
      if i < |lines| {
        MergedAt(lines, wanted, i);
        MergedIsStable(lines[i], wanted);
      } else {
        NewLinesStable(pairs, updated, wanted, i - |lines|);
      }
    }
    MergeIsStable(all, wanted);
    ReadAllLines(lines, pairs);
    NothingNew(pairs, ReadLines(all).Keys);
  }

  lemma PairsLeaveLines(lines: seq<string>, pairs: Pairs)
    requires DistinctKeys(pairs) && AllWellFormed(pairs)
    ensures pairs != [] ==> AllLines(lines, pairs) != []
  {
    if pairs != [] {
      ReadAllLines(lines, pairs);
      PairInMap(pairs, 0);
      assert pairs[0].0 in ReadLines(AllLines(lines, pairs));
    }
  }

  /** Writing the same pairs again leaves the text as it is. */
  lemma WritingTwiceIsWritingOnce(file: Option<string>, pairs: Pairs)
    requires DistinctKeys(pairs) && AllWellFormed(pairs)
    ensures var once := Written(AllLines(LinesOf(file), pairs));
            Written(AllLines(LinesOf(Some(once)), pairs)) == once
  {
    var all := AllLines(LinesOf(file), pairs);
    AllLinesAreLines(file, pairs);
    AllLinesStable(LinesOf(file), pairs);
    if all == [] {
      SplitFlat([""]);
      assert Flat([""]) == "\n";
      PairsLeaveLines(LinesOf(file), pairs);
      assert AllLines([""], []) == [""] by {
        assert Merged("", map[]) == "";
        assert MergedLines([""][..0], map[]) == [];
      }
    } else {
      SplitFlat(all);
    }
  }
}
