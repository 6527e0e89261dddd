/** The unit syntax the manager reads: sections, and one setting to a line. */
module Units {
  import opened Wrappers
  import opened Lines

  datatype Entry = Section(header: string) | Setting(key: string, value: string)

  /** Where the key of a line ends. */
  function KeyEnd(line: string): (n: nat)
    ensures n <= |line|
  {
    if line == "" || line[0] == '=' then 0 else 1 + KeyEnd(line[1..])
  }

  /** A blank line and a comment say nothing. */
  function EntryOf(line: string): seq<Entry> {
    if line == "" || line[0] == '#' then []
    else if line[0] == '[' then [Section(line)]
    else if KeyEnd(line) == |line| then []
    else [Setting(line[..KeyEnd(line)], line[KeyEnd(line) + 1..])]
  }

  function EntriesIn(lines: seq<string>): seq<Entry> {
    if lines == [] then [] else EntryOf(lines[0]) + EntriesIn(lines[1..])
  }

  function EntriesOf(text: string): seq<Entry> { EntriesIn(Split(text, '\n')) }

  lemma {:induction false} EntriesOfBoth(a: seq<string>, b: seq<string>)
    ensures EntriesIn(a + b) == EntriesIn(a) + EntriesIn(b)
    decreases |a|
  {
    if a == [] {
      assert a + b == b;
    } else {
      assert (a + b)[1..] == a[1..] + b;
      EntriesOfBoth(a[1..], b);
      Regrouped(EntryOf(a[0]), EntriesIn(a[1..]), EntriesIn(b));
    }
  }

  lemma OneEntry(line: string)
    ensures EntriesIn([line]) == EntryOf(line)
  {
    assert [line][1..] == [];
  }

  lemma {:induction false} KeyEndsAtTheFirst(key: string, value: string)
    requires '=' !in key
    ensures KeyEnd(key + ("=" + value)) == |key|
    decreases |key|
  {
    var line := key + ("=" + value);
    if key == "" {
      assert line[0] == '=';
    } else {
      assert line[0] == key[0] && line[1..] == key[1..] + ("=" + value);
      KeyEndsAtTheFirst(key[1..], value);
    }
  }

  /** A key the manager reads: it opens a comment or a section nowhere, and holds no separator. */
  predicate Key(key: string) { key != "" && key[0] != '#' && key[0] != '[' && '=' !in key }

  /** A setting as it is written. */
  function Assigned(key: string, value: string): string { key + ("=" + value) }

  lemma SettingIsRead(key: string, value: string)
    requires Key(key)
    ensures EntryOf(Assigned(key, value)) == [Setting(key, value)]
  {
    var line := key + ("=" + value);
    KeyEndsAtTheFirst(key, value);
    assert line[0] == key[0] && line[..|key|] == key && line[|key| + 1..] == value;
  }

  lemma {:induction false} CommentsSayNothing(prose: seq<string>)
    requires Commentary(prose)
    ensures EntriesIn(prose) == []
    decreases |prose|
  {
    if prose != [] {
      assert prose[0] in prose && forall l :: l in prose[1..] ==> l in prose;
      CommentsSayNothing(prose[1..]);
    }
  }

  /** Lines of one key. */
  function Keyed(key: string, values: seq<string>): seq<string> {
    seq(|values|, i requires 0 <= i < |values| => key + ("=" + values[i]))
  }

  function Settings(key: string, values: seq<string>): seq<Entry> {
    seq(|values|, i requires 0 <= i < |values| => Setting(key, values[i]))
  }

  lemma {:induction false} KeyedAreRead(key: string, values: seq<string>)
    requires Key(key)
    ensures EntriesIn(Keyed(key, values)) == Settings(key, values)
    decreases |values|
  {
    if values != [] {
      assert Keyed(key, values)[1..] == Keyed(key, values[1..]);
      SettingIsRead(key, values[0]);
      KeyedAreRead(key, values[1..]);
      assert Settings(key, values) == [Setting(key, values[0])] + Settings(key, values[1..]);
    }
  }

  lemma KeyedAreOneLine(key: string, values: seq<string>)
    requires OneLine(key) && AllOneLine(values)
    ensures AllOneLine(Keyed(key, values))
  {
    forall l | l in Keyed(key, values) ensures OneLine(l) {
      var i :| 0 <= i < |values| && Keyed(key, values)[i] == l;
      assert values[i] in values;
      OneLineOfBoth("=", values[i]);
      OneLineOfBoth(key, "=" + values[i]);
    }
  }

  /** What a text of whole lines says is what its lines say. */
  lemma TextOfLines(lines: seq<string>)
    requires AllOneLine(lines)
    ensures EntriesOf(Unlines(lines)) == EntriesIn(lines)
  {
    SplitLines(lines, "");
    assert Unlines(lines) + "" == Unlines(lines);
    EntriesOfBoth(lines, [""]);
    OneEntry("");
  }

  // ---- Short blocks of lines, read together

  lemma TwoEntries(a: string, b: string)
    ensures EntriesIn([a, b]) == EntryOf(a) + EntryOf(b)
  {
    assert [a, b] == [a] + [b];
    EntriesOfBoth([a], [b]);
    OneEntry(a);
    OneEntry(b);
  }

  lemma SilenceThenMore(lines: seq<string>, more: seq<string>)
    requires EntriesIn(lines) == []
    ensures EntriesIn(lines + more) == EntriesIn(more)
  {
    EntriesOfBoth(lines, more);
  }

  lemma BlankThenMore(more: seq<string>)
    ensures EntriesIn([""] + more) == EntriesIn(more)
  {
    OneEntry("");
    SilenceThenMore([""], more);
  }

  lemma LineThenMore(line: string, more: seq<string>)
    ensures EntriesIn([line] + more) == EntryOf(line) + EntriesIn(more)
  {
    EntriesOfBoth([line], more);
    OneEntry(line);
  }
}
